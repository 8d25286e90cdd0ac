/**
  The saved-password list: the stored entries and the rendered rows of the
  "saved" panel, each with its show/hide toggle.
 */
module Saved {

  /** A stored profile: a name and the password saved under it. */
  datatype Entry = Entry(name: string, password: string)

  /** The masked text a hidden row shows: eight bullets. */
  const Mask: string := "\U{2022}\U{2022}\U{2022}\U{2022}\U{2022}\U{2022}\U{2022}\U{2022}"

  /**
    One rendered row: the entry it was rendered from (captured when the list was
    rendered), the password span's text, its `data-hidden` attribute and the
    toggle button's label.
   */
  datatype Row = Row(entry: Entry, text: string, hidden: string, button: string)

  predicate IsHidden(row: Row)
  {
    row.hidden == "true"
  }

  /** The shown text and the button label agree with the hidden flag. */
  predicate Consistent(row: Row)
  {
    if IsHidden(row) then row.text == Mask && row.button == "Show"
    else row.hidden == "false" && row.text == row.entry.password && row.button == "Hide"
  }

  /** A freshly rendered row starts masked. */
  function RenderRow(e: Entry): (row: Row)
    ensures row.entry == e && IsHidden(row) && Consistent(row)
  {
    Row(e, Mask, "true", "Show")
  }

  /** Rendering rebuilds the whole panel from the stored entries, every row masked. */
  function Render(saved: seq<Entry>): (rows: seq<Row>)
    ensures |rows| == |saved|
    ensures forall i :: 0 <= i < |rows| ==> rows[i].entry == saved[i] && IsHidden(rows[i]) && Consistent(rows[i])
  {
    seq(|saved|, i requires 0 <= i < |saved| => RenderRow(saved[i]))
  }

  /** A click on the row's toggle button: a hidden row reveals its password, a shown one re-masks it. */
  function ToggleRow(row: Row): (r: Row)
    ensures r.entry == row.entry
    ensures IsHidden(r) <==> !IsHidden(row)
    ensures Consistent(r)
    ensures IsHidden(row) ==> r.text == row.entry.password && r.button == "Hide"
    ensures !IsHidden(row) ==> r.text == Mask && r.button == "Show"
  {
    var wasHidden := row.hidden == "true";
    Row(row.entry,
        if wasHidden then row.entry.password else Mask,
        if wasHidden then "false" else "true",
        if wasHidden then "Hide" else "Show")
  }

  /** Toggling twice restores a consistent row. */
  lemma ToggleTwice(row: Row)
    requires Consistent(row)
    ensures ToggleRow(ToggleRow(row)) == row
  {
  }

  /** A click on the toggle of row `i`; every other row is unchanged. */
  function ToggleAt(rows: seq<Row>, i: nat): (r: seq<Row>)
    requires i < |rows|
    ensures |r| == |rows|
    ensures r[i] == ToggleRow(rows[i])
    ensures forall j :: 0 <= j < |r| && j != i ==> r[j] == rows[j]
  {
    rows[i := ToggleRow(rows[i])]
  }

  /** Every row of the panel agrees with its flag. */
  predicate AllConsistent(rows: seq<Row>)
  {
    forall i :: 0 <= i < |rows| ==> Consistent(rows[i])
  }

  /** The text row `i` shows is a function of its flag: the mask, or the literal password. */
  lemma ShownText(rows: seq<Row>, i: nat)
    requires AllConsistent(rows) && i < |rows|
    ensures rows[i].text == if IsHidden(rows[i]) then Mask else rows[i].entry.password
  {
  }
}
