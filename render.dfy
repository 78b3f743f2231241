/** The data preparation of `generate_html_report`: the two-column link
    table padded to the longer list, and the in-place rewrite of top-level
    `None` values to `"Null"`. The HTML template around them, the timestamp
    and the file write are not modelled. */
module Render {
  import opened Values

  // ---------------------------------------------------------------------------
  // The link table

  /** The cell of column `xs` in row `i`: the list entry, or empty past its end. */
  function Cell(xs: seq<string>, i: nat): string {
    if i < |xs| then xs[i] else ""
  }

  function Max(a: nat, b: nat): nat {
    if a >= b then a else b
  }

  function HeadCell(xs: seq<string>): string {
    if xs == [] then "" else xs[0]
  }

  function Tail(xs: seq<string>): seq<string> {
    if xs == [] then [] else xs[1..]
  }

  /** The rows of the table, defined by pairing the lists front to front
      and padding the shorter one with empty cells. */
  function Zip(a: seq<string>, b: seq<string>): seq<(string, string)>
    decreases |a| + |b|
  {
    if a == [] && b == [] then [] else [(HeadCell(a), HeadCell(b))] + Zip(Tail(a), Tail(b))
  }

  /** The table has as many rows as the longer list, and row `i` holds
      entry `i` of each list or an empty cell past its end. */
  lemma {:induction false} ZipLongest(a: seq<string>, b: seq<string>)
    ensures |Zip(a, b)| == Max(|a|, |b|)
    ensures forall i | 0 <= i < |Zip(a, b)| :: Zip(a, b)[i] == (Cell(a, i), Cell(b, i))
    decreases |a| + |b|
  {
    if a == [] && b == [] {
    } else {
      var rest := Zip(Tail(a), Tail(b));
      ZipLongest(Tail(a), Tail(b));
      assert Zip(a, b) == [(HeadCell(a), HeadCell(b))] + rest;
      forall i | 0 <= i < |Zip(a, b)|
        ensures Zip(a, b)[i] == (Cell(a, i), Cell(b, i))
      {
        if i > 0 {
          assert Zip(a, b)[i] == rest[i - 1];
          assert Cell(Tail(a), i - 1) == Cell(a, i);
          assert Cell(Tail(b), i - 1) == Cell(b, i);
        }
      }
    }
  }

  /** One table row. */
  function RowHtml(row: (string, string)): string {
    "<tr><td>" + row.0 + "</td><td>" + row.1 + "</td></tr>"
  }

  /** The rows one after another. */
  function Table(rows: seq<(string, string)>): string {
    if rows == [] then "" else Table(rows[..|rows| - 1]) + RowHtml(rows[|rows| - 1])
  }

  /** The row loop of `generate_html_report`. */
  method RowsHtml(internal: seq<string>, external: seq<string>) returns (rowsHtml: string)
    ensures rowsHtml == Table(Zip(internal, external))
  {
    var numRows := Max(|internal|, |external|);
    ghost var rows := Zip(internal, external);
    ZipLongest(internal, external);
    rowsHtml := "";
    for i := 0 to numRows
      invariant rowsHtml == Table(rows[..i])
    {
      var internalLink := if i < |internal| then internal[i] else "";
      var externalLink := if i < |external| then external[i] else "";
      var row := "<tr><td>" + internalLink + "</td><td>" + externalLink + "</td></tr>";
      assert row == RowHtml(rows[i]);
      assert rows[..i + 1][..i] == rows[..i];
      rowsHtml := rowsHtml + row;
    }
    assert rows[..numRows] == rows;
  }

  /** The text of each entry of a link list, or no entries when the report
      lacks the key (`report.get(key, [])`). */
  function LinkTexts(report: Report, key: Field): (r: seq<string>)
    ensures key !in report ==> r == []
    ensures key in report && report[key].List? ==>
              |r| == |report[key].items| &&
              forall i | 0 <= i < |r| :: report[key].items[i].Str? ==> r[i] == report[key].items[i].s
  {
    if key in report && report[key].List? then
      var items := report[key].items;
      seq(|items|, i requires 0 <= i < |items| => if items[i].Str? then items[i].s else "")
    else []
  }

  // ---------------------------------------------------------------------------
  // `None` to `"Null"`

  function NullIfNone(v: Value): Value {
    if v == NoneV then Str("Null") else v
  }

  /** The report with every top-level `None` replaced by `"Null"`. */
  function NoneToNull(m: Report): Report {
    map k | k in m :: NullIfNone(m[k])
  }

  /** After the rewrite the report has the same keys, no top-level `None`,
      `"Null"` where there was `None`, and every other value unchanged,
      including dictionaries that hold `None` inside. */
  lemma NoneToNullSpec(m: Report)
    ensures NoneToNull(m).Keys == m.Keys
    ensures forall k | k in NoneToNull(m) :: NoneToNull(m)[k] != NoneV
    ensures forall k | k in m && m[k] == NoneV :: NoneToNull(m)[k] == Str("Null")
    ensures forall k | k in m && m[k] != NoneV :: NoneToNull(m)[k] == m[k]
  {
  }

  /** Rewriting twice changes nothing more. */
  lemma NoneToNullIdempotent(m: Report)
    ensures NoneToNull(NoneToNull(m)) == NoneToNull(m)
  {
  }

  /** The report dictionary that `generate_html_report` updates in place. */
  class Record {
    var fields: Report

    constructor(fields: Report)
      ensures this.fields == fields
    {
      this.fields := fields;
    }

    /** The loop over `report.items()` that sets each `None` value to `"Null"`. */
    method NormalizeNone()
      modifies this
      ensures fields == NoneToNull(old(fields))
    {
      ghost var original := fields;
      var pending := fields.Keys;
      while pending != {}
        invariant pending <= original.Keys
        invariant fields.Keys == original.Keys
        invariant forall k | k in original :: fields[k] == (if k in pending then original[k] else NullIfNone(original[k]))
        decreases |pending|
      {
        var k :| k in pending;
        if fields[k] == NoneV {
          fields := fields[k := Str("Null")];
        }
        pending := pending - {k};
      }
      assert fields == NoneToNull(original);
    }
  }

  /** The table rows from the report's link lists, then the `None` rewrite
      of the report. */
  method GenerateHtmlReport(record: Record) returns (rowsHtml: string)
    modifies record
    ensures rowsHtml == Table(Zip(LinkTexts(old(record.fields), InternalLinks), LinkTexts(old(record.fields), ExternalLinks)))
    ensures record.fields == NoneToNull(old(record.fields))
  {
    var internal := LinkTexts(record.fields, InternalLinks);
    var external := LinkTexts(record.fields, ExternalLinks);
    rowsHtml := RowsHtml(internal, external);
    record.NormalizeNone();
  }
}
