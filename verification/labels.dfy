/**
 * Reading one label file: each line is split on whitespace; lines with fewer
 * than five fields are skipped, and each remaining line is unpacked into
 * exactly five numbers (anything else raises, which fails the whole load).
 */
module Labels {
  import opened Wrappers
  import opened Boxes

  /** One whitespace-separated field: a number, or text that float() rejects. */
  datatype Token = Number(value: real) | Word

  /** What happens to one line. */
  datatype LineResult = Dropped | Row(row: Label) | Malformed

  const FieldCount: nat := 5

  function ParseLine(fields: seq<Token>): (r: LineResult)
    ensures r.Dropped? <==> |fields| < FieldCount
    ensures r.Malformed? <==> |fields| > FieldCount || (|fields| == FieldCount && exists i :: 0 <= i < FieldCount && fields[i].Word?)
    ensures r.Row? ==> Render(r.row) == fields
  {
    if |fields| < FieldCount then Dropped
    else if |fields| > FieldCount then Malformed
    else if fields[0].Number? && fields[1].Number? && fields[2].Number? && fields[3].Number? && fields[4].Number? then
      Row(Label(fields[0].value, fields[1].value, fields[2].value, fields[3].value, fields[4].value))
    else Malformed
  }

  /** The five fields a row is written as. */
  function Render(l: Label): (fields: seq<Token>)
    ensures |fields| == FieldCount
  {
    [Number(l.cls), Number(l.cx), Number(l.cy), Number(l.w), Number(l.h)]
  }

  /** The rows of a file, in line order, or None if some line raises. */
  function ParseLabels(lines: seq<seq<Token>>): (r: Option<seq<Label>>)
    ensures r.Some? ==> |r.value| <= |lines|
  {
    if lines == [] then Some([])
    else
      match ParseLabels(lines[..|lines| - 1])
      case None => None
      case Some(rows) =>
        match ParseLine(lines[|lines| - 1])
        case Dropped => Some(rows)
        case Row(l) => Some(rows + [l])
        case Malformed => None
  }

  /** The lines a successful load keeps: those with at least five fields, in order. */
  function LongLines(lines: seq<seq<Token>>): seq<seq<Token>> {
    if lines == [] then []
    else LongLines(lines[..|lines| - 1]) + (if |lines[|lines| - 1]| >= FieldCount then [lines[|lines| - 1]] else [])
  }

  function RenderAll(rows: seq<Label>): seq<seq<Token>> {
    seq(|rows|, k requires 0 <= k < |rows| => Render(rows[k]))
  }

  /** The load raises exactly when some line has five or more fields and is not five numbers. */
  lemma {:induction false} ParseLabelsFails(lines: seq<seq<Token>>)
    ensures ParseLabels(lines).None? <==> exists i :: 0 <= i < |lines| && ParseLine(lines[i]).Malformed?
  {
    if lines != [] {
      var init := lines[..|lines| - 1];
      ParseLabelsFails(init);
      assert forall i :: 0 <= i < |init| ==> init[i] == lines[i];
    }
  }

  /**
   * A successful load keeps exactly the lines with at least five fields, and
   * writing its rows back out gives those lines again; shorter lines leave no trace.
   */
  lemma {:induction false} ParseLabelsKeepsLongLines(lines: seq<seq<Token>>)
    requires ParseLabels(lines).Some?
    ensures RenderAll(ParseLabels(lines).value) == LongLines(lines)
  {
    if lines != [] {
      var init, last := lines[..|lines| - 1], lines[|lines| - 1];
      ParseLabelsKeepsLongLines(init);
      var rows := ParseLabels(init).value;
      match ParseLine(last)
      case Dropped =>
      case Row(l) =>
        assert RenderAll(rows + [l]) == RenderAll(rows) + [Render(l)];
      case Malformed =>
    }
  }

  /** Writing rows out as label lines and loading them back gives the rows. */
  lemma {:induction false} RenderRoundTrip(rows: seq<Label>)
    ensures ParseLabels(RenderAll(rows)) == Some(rows)
  {
    if rows != [] {
      var init := rows[..|rows| - 1];
      RenderRoundTrip(init);
      assert RenderAll(rows)[..|rows| - 1] == RenderAll(init);
      assert ParseLine(Render(rows[|rows| - 1])) == Row(rows[|rows| - 1]);
      assert init + [rows[|rows| - 1]] == rows;
    }
  }

  /** The load loop of the source: appends one row per five-field line, stops on the first raise. */
  method LoadLabels(lines: seq<seq<Token>>) returns (r: Option<seq<Label>>)
    ensures r == ParseLabels(lines)
  {
    var rows: seq<Label> := [];
    var i := 0;
    while i < |lines|
      invariant 0 <= i <= |lines|
      invariant ParseLabels(lines[..i]) == Some(rows)
    {
      assert lines[..i + 1][..i] == lines[..i];
      var line := ParseLine(lines[i]);
      if line.Malformed? {
        ParseLabelsFails(lines);
        ParseLabelsFails(lines[..i + 1]);
        return None;
      }
      if line.Row? {
        rows := rows + [line.row];
      }
      i := i + 1;
    }
    assert lines[..i] == lines;
    return Some(rows);
  }
}
