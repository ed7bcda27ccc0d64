/** The `AddressToAreaLookup` component (widget-loader.js:219-371): its state
    slots and the handlers that change them. Each handler runs to completion
    against one snapshot of the state, as a React event handler does. */
module Widget {
  import opened Wrappers
  import opened JsStrings
  import opened Http
  import opened Errors
  import opened Suggest
  import opened Geocode
  import opened Area
  import opened Submit

  datatype Key = ArrowDown | ArrowUp | Enter | Escape | OtherKey(name: string)

  /** JavaScript's `a % n`: the remainder of division truncated toward zero.
      It agrees with Dafny's Euclidean `%` on non-negative operands and is
      never positive for negative ones. */
  function JsRemainder(a: int, n: int): (r: int)
    requires n > 0
    ensures a >= 0 ==> r == a % n && 0 <= r < n
    ensures a < 0 ==> -n < r <= 0
  {
    if a >= 0 then a % n else -((-a) % n)
  }

  /** ArrowDown: one past the highlight, taken modulo the list length with
      JavaScript's remainder. From "none" (-1) it goes to the first entry and
      from the last it wraps to the first. */
  function NextHighlight(h: int, n: int): (r: int)
    requires n > 0
    ensures h >= -1 ==> r == (h + 1) % n
    ensures h >= -1 ==> 0 <= r < n
    ensures -1 <= h < n - 1 ==> r == h + 1
    ensures h == n - 1 ==> r == 0
  {
    var r := JsRemainder(h + 1, n);
    if -1 <= h < n - 1 then ModBelow(h + 1, n); r
    else if h == n - 1 then ModSelf(n); r
    else r
  }

  lemma ModBelow(a: int, n: int)
    requires 0 <= a < n
    ensures a % n == a
  {
  }

  lemma ModSelf(n: int)
    requires n > 0
    ensures n % n == 0
  {
  }

  /** ArrowUp: one before the highlight; from "none" or the first entry it
      wraps to the last. */
  function PrevHighlight(h: int, n: int): (r: int)
    requires n > 0
    ensures h <= n ==> 0 <= r < n
    ensures 0 < h ==> r == h - 1
    ensures h <= 0 ==> r == n - 1
  {
    if h <= 0 then n - 1 else h - 1
  }

  /** On a highlighted entry, ArrowUp undoes ArrowDown and vice versa. */
  lemma HighlightCycle(h: int, n: int)
    requires 0 <= h < n
    ensures PrevHighlight(NextHighlight(h, n), n) == h
    ensures NextHighlight(PrevHighlight(h, n), n) == h
  {
  }

  /** The highlight after `k` ArrowDown presses. */
  function ArrowDowns(h: int, n: int, k: nat): int
    requires n > 0
  {
    if k == 0 then h else NextHighlight(ArrowDowns(h, n, k - 1), n)
  }

  /** Starting from "none", the (k+1)-th ArrowDown highlights entry k: the
      list is walked in order. */
  lemma {:induction false} ArrowDownsWalk(n: int, k: nat)
    requires 0 <= k < n
    ensures ArrowDowns(-1, n, k + 1) == k
  {
    if k > 0 {
      ArrowDownsWalk(n, k - 1);
    }
  }

  /** One more ArrowDown after the last entry wraps to the first. */
  lemma ArrowDownsWrap(n: int)
    requires n > 0
    ensures ArrowDowns(-1, n, n + 1) == 0
  {
    ArrowDownsWalk(n, n - 1);
  }

  /** All state slots of the component, `debounceRef` included: `pending`
      is the text of the scheduled, not yet fired, suggestion fetch. */
  datatype State = State(input: string, loading: bool, error: string, suggestions: seq<Suggestion>,
                         showSuggest: bool, highlight: int, selectedMagicKey: Option<string>,
                         result: Option<LookupResult>, pending: Option<string>)

  /** What holds between handler runs: the highlight is never below -1, only
      text of at least three characters is ever scheduled, no run is in
      progress, and a result and an error are never shown together. */
  predicate Invariant(s: State) {
    s.highlight >= -1 &&
    (s.pending.Some? ==> |s.pending.value| >= 3) &&
    !s.loading &&
    (s.result.Some? ==> s.error == "")
  }

  /** `selectSuggestion(index)`: an entry in range is committed (its text
      becomes the input, its key the selected key, the panel closes); an
      index out of range changes nothing. */
  function Selected(s: State, index: int): (r: State)
    ensures 0 <= index < |s.suggestions| ==>
      r.input == s.suggestions[index].text && r.selectedMagicKey == s.suggestions[index].magicKey &&
      !r.showSuggest && r.(input := s.input, selectedMagicKey := s.selectedMagicKey, showSuggest := s.showSuggest) == s
    ensures !(0 <= index < |s.suggestions|) ==> r == s
  {
    if 0 <= index < |s.suggestions| then
      var c := s.suggestions[index];
      s.(input := c.text, selectedMagicKey := c.magicKey, showSuggest := false)
    else s
  }

  class AddressLookup {
    var input: string
    var loading: bool
    var error: string
    var suggestions: seq<Suggestion>
    var showSuggest: bool
    var highlight: int
    var selectedMagicKey: Option<string>
    var result: Option<LookupResult>
    var pending: Option<string>

    function View(): State
      reads this
    {
      State(input, loading, error, suggestions, showSuggest, highlight, selectedMagicKey, result, pending)
    }

    ghost predicate Valid()
      reads this
    {
      Invariant(View())
    }

    /** The initial `useState` values (widget-loader.js:220-228). */
    constructor ()
      ensures Valid()
      ensures View() == State("", false, "", [], false, -1, None, None, None)
    {
      input, loading, error, suggestions := "", false, "", [];
      showSuggest, highlight, selectedMagicKey, result, pending := false, -1, None, None, None;
    }

    /** `handleInputChange(text)`: the text is taken, the key and the
      highlight are reset and any scheduled fetch is cancelled. Short text
      empties and hides the list; longer text schedules one fetch for itself. */
    method InputChange(text: string)
      requires Valid()
      modifies this
      ensures Valid()
      ensures View() ==
        if |text| < 3 then
          old(View()).(input := text, selectedMagicKey := None, highlight := -1,
                       suggestions := [], showSuggest := false, pending := None)
        else
          old(View()).(input := text, selectedMagicKey := None, highlight := -1, pending := Some(text))
    {
      input := text;
      selectedMagicKey := None;
      highlight := -1;
      pending := None;
      if |text| < 3 {
        suggestions := [];
        showSuggest := false;
        return;
      }
      pending := Some(text);
    }

    /** The scheduled fetch fires and its reply lands: the suggest request for
      the scheduled text is sent; a reply replaces the list and opens the
      panel, a rejected fetch leaves the list and the panel as they were. */
    method FireDebounce(service: Request -> Reply<SuggestBody>) returns (issued: Request)
      requires Valid() && pending.Some?
      modifies this
      ensures Valid()
      ensures issued == SuggestRequest(old(pending).value) && |old(pending).value| >= 3
      ensures View() ==
        match SuggestAddresses(service(issued))
        case Err(_) => old(View()).(pending := None)
        case Ok(list) => old(View()).(suggestions := list, showSuggest := true, pending := None)
    {
      issued := SuggestRequest(pending.value);
      pending := None;
      var list := SuggestAddresses(service(issued));
      if list.Ok? {
        suggestions := list.value;
        showSuggest := true;
      }
    }

    /** `selectSuggestion(index)`, also what a click on an entry does. */
    method SelectSuggestion(index: int)
      requires Valid()
      modifies this
      ensures Valid()
      ensures View() == Selected(old(View()), index)
    {
      if 0 <= index < |suggestions| {
        var c := suggestions[index];
        input := c.text;
        selectedMagicKey := c.magicKey;
        showSuggest := false;
      }
    }

    /** `handleKeyDown`: nothing happens unless the panel is open and the list
      is non-empty. Arrows move the highlight cyclically, Enter on a
      highlighted entry commits it, Escape closes the panel. `prevented` is
      whether `e.preventDefault()` was called, that is whether the key press
      does not also submit the form. */
    method KeyDown(key: Key) returns (prevented: bool)
      requires Valid()
      modifies this
      ensures Valid()
      ensures var n := |old(suggestions)|;
        if !old(showSuggest) || n == 0 then View() == old(View()) && !prevented
        else match key
          case ArrowDown => View() == old(View()).(highlight := NextHighlight(old(highlight), n)) && prevented
          case ArrowUp => View() == old(View()).(highlight := PrevHighlight(old(highlight), n)) && prevented
          case Enter =>
            if old(highlight) >= 0 then View() == Selected(old(View()), old(highlight)) && prevented
            else View() == old(View()) && !prevented
          case Escape => View() == old(View()).(showSuggest := false) && !prevented
          case OtherKey(_) => View() == old(View()) && !prevented
    {
      prevented := false;
      if !showSuggest || |suggestions| == 0 {
        return;
      }
      match key
      case ArrowDown =>
        prevented := true;
        highlight := NextHighlight(highlight, |suggestions|);
      case ArrowUp =>
        prevented := true;
        highlight := PrevHighlight(highlight, |suggestions|);
      case Enter =>
        if highlight >= 0 {
          prevented := true;
          SelectSuggestion(highlight);
        }
      case Escape =>
        showSuggest := false;
      case OtherKey(_) =>
    }

    /** `onFocus` of the input (widget-loader.js:398): reopen the panel when
      the text is longer than two characters. */
    method Focus()
      requires Valid()
      modifies this
      ensures Valid()
      ensures View() == if |old(input)| > 2 then old(View()).(showSuggest := true) else old(View())
    {
      if |input| > 2 {
        showSuggest := true;
      }
    }

    /** `onClick` of the container (widget-loader.js:375): any click closes the panel. */
    method Dismiss()
      requires Valid()
      modifies this
      ensures Valid()
      ensures View() == old(View()).(showSuggest := false)
    {
      showSuggest := false;
    }

    /** `onSearch`: error and result are cleared and the panel closed first;
      blank text then ends the handler without a request. Otherwise the run
      geocodes the trimmed text with the selected key and queries the area,
      and sets exactly one of `result` and `error`; `loading` ends false.
      Text, list, highlight, key and the scheduled fetch are left as they were. */
    method Search(geoService: Request -> Reply<GeocodeBody>, areaService: Request -> Reply<FeatureBody>,
                  toMercator: (real, real) -> (real, real)) returns (issued: seq<Request>)
      requires Valid()
      modifies this
      ensures Valid()
      ensures var addr := Trim(old(input));
        var run := LookupRun(addr, MagicKeyArgument(old(selectedMagicKey)), geoService, areaService, toMercator);
        if addr == "" then
          issued == [] && View() == old(View()).(error := "", result := None, showSuggest := false)
        else
          issued == run.issued &&
          View() == old(View()).(error := ErrorOf(run.outcome), result := ResultOf(run.outcome),
                                 showSuggest := false, loading := false)
    {
      error := "";
      result := None;
      showSuggest := false;
      var addr := Trim(input);
      if addr == "" {
        issued := [];
        return;
      }
      loading := true;
      var outcome;
      outcome, issued := RunLookup(addr, MagicKeyArgument(selectedMagicKey), geoService, areaService, toMercator);
      if outcome.Ok? {
        result := Some(outcome.value);
      } else {
        error := ErrorText(outcome.failure);
      }
      loading := false;
    }
  }
}
