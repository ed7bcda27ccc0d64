/** How the area part of a result is shown (widget-loader.js:481-530): a six
    row table whose cells fall back with `??`, or a "no polygon" note. */
module Display {
  import opened Wrappers
  import opened Json

  /** A table cell: an attribute value as shown, or the placeholder "—". */
  datatype Cell = Value(v: JsValue) | Dash
  datatype Row = Row(caption: string, cell: Cell)
  datatype AreaView = Table(rows: seq<Row>) | NoPolygonMatched

  /** `attrs[name] ?? fallback`: only a missing or null field falls back;
      other falsy values ("", 0, false) are kept rather than replaced by the dash. */
  function Coalesce(attrs: Attributes, name: string, fallback: Cell): (c: Cell)
    ensures name in attrs && attrs[name] != Null ==> c == Value(attrs[name])
    ensures name !in attrs || attrs[name] == Null ==> c == fallback
  {
    if name in attrs && attrs[name] != Null then Value(attrs[name]) else fallback
  }

  /** One plain field, or the dash. */
  function FieldCell(attrs: Attributes, name: string): Cell {
    Coalesce(attrs, name, Dash)
  }

  /** The municipality: `Kommunnamn`, else `Kommun`, else the dash. */
  function MunicipalityCell(attrs: Attributes): Cell {
    Coalesce(attrs, "Kommunnamn", Coalesce(attrs, "Kommun", Dash))
  }

  function AttributeRows(attrs: Attributes): seq<Row> {
    [Row("DeSO code", FieldCell(attrs, "Deso")),
     Row("Region code", FieldCell(attrs, "Regsokod")),
     Row("Region name", FieldCell(attrs, "Regsonamn")),
     Row("Municipality", MunicipalityCell(attrs)),
     Row("County", FieldCell(attrs, "Län")),
     Row("Area type", FieldCell(attrs, "Typ_Av_Omr"))]
  }

  /** The table when the polygon had attributes, the "no polygon" note otherwise. */
  function ShowArea(attributes: Option<Attributes>): AreaView {
    if attributes.Some? then Table(AttributeRows(attributes.value)) else NoPolygonMatched
  }

  /** The field behind each plain row: the cell is the field's value when it
      is present and not null, and the dash otherwise. */
  function SourceField(caption: string): Option<string> {
    if caption == "DeSO code" then Some("Deso")
    else if caption == "Region code" then Some("Regsokod")
    else if caption == "Region name" then Some("Regsonamn")
    else if caption == "County" then Some("Län")
    else if caption == "Area type" then Some("Typ_Av_Omr")
    else None
  }

  /** A matched polygon always gives the six rows in the fixed order; each
      plain row shows its field or the dash, and nothing else. */
  lemma TableRows(attrs: Attributes)
    ensures ShowArea(Some(attrs)).Table?
    ensures var rows := ShowArea(Some(attrs)).rows;
      |rows| == 6 &&
      [rows[0].caption, rows[1].caption, rows[2].caption, rows[3].caption, rows[4].caption, rows[5].caption] ==
        ["DeSO code", "Region code", "Region name", "Municipality", "County", "Area type"] &&
      forall i :: 0 <= i < 6 && i != 3 ==>
        SourceField(rows[i].caption).Some? &&
        var name := SourceField(rows[i].caption).value;
        (rows[i].cell == Dash <==> name !in attrs || attrs[name] == Null) &&
        (rows[i].cell != Dash ==> rows[i].cell == Value(attrs[name]))
  {
  }

  /** The municipality row prefers `Kommunnamn`, uses `Kommun` only when
      `Kommunnamn` is missing or null, and shows the dash when both are. */
  lemma MunicipalityFallback(attrs: Attributes)
    ensures var c := MunicipalityCell(attrs);
      var hasName := "Kommunnamn" in attrs && attrs["Kommunnamn"] != Null;
      var hasCode := "Kommun" in attrs && attrs["Kommun"] != Null;
      (hasName ==> c == Value(attrs["Kommunnamn"])) &&
      (!hasName && hasCode ==> c == Value(attrs["Kommun"])) &&
      (!hasName && !hasCode <==> c == Dash)
  {
  }

  /** No polygon gives the note, never a table of dashes. */
  lemma NoPolygonNote(attributes: Option<Attributes>)
    ensures ShowArea(attributes) == NoPolygonMatched <==> attributes.None?
  {
  }
}
