/** Reading an export back: a reader for section 2 of RFC 4180 with LF line ends, and the round trip. */
module CsvReader {
  import opened Options
  import opened CsvExport

  // ---------------------------------------------------------------- the reader

  /** A field and the text after it. */
  datatype Field = Field(value: string, rest: string)

  /** An unquoted field: everything up to a comma, a quote or a line end. */
  function Bare(s: string): (f: Field)
    ensures |f.rest| <= |s|
  {
    if s == "" || NeedsQuotes([s[0]]) then Field("", s)
    else var f := Bare(s[1..]); f.(value := [s[0]] + f.value)
  }

  /** A quoted field after its opening quote; a doubled quote stands for one. */
  function Quoted(s: string): (f: Option<Field>)
    ensures f.Some? ==> |f.value.rest| < |s|
  {
    if s == "" then None
    else if s[0] != '"' then Prepend(s[0], Quoted(s[1..]))
    else if |s| > 1 && s[1] == '"' then Prepend('"', Quoted(s[2..]))
    else Some(Field("", s[1..]))
  }

  function Prepend(c: char, f: Option<Field>): Option<Field> {
    if f.Some? then Some(f.value.(value := [c] + f.value.value)) else None
  }

  function FirstField(s: string): (f: Option<Field>)
    ensures f.Some? ==> |f.value.rest| <= |s|
  {
    if s != "" && s[0] == '"' then Quoted(s[1..]) else Some(Bare(s))
  }

  /** The records of `s`, the first of which continues with the fields `row` already read. */
  function Records(s: string, row: seq<string>): Option<seq<seq<string>>>
    decreases |s|, 1
  {
    match FirstField(s)
    case None => None
    case Some(f) => AfterField(f.rest, row + [f.value])
  }

  function AfterField(s: string, row: seq<string>): Option<seq<seq<string>>>
    decreases |s|, 0
  {
    if s == "" then Some([row])
    else if s[0] == ',' then Records(s[1..], row)
    else if s[0] != '\n' then None
    else if |s| == 1 then Some([row])
    else
      match Records(s[1..], [])
      case None => None
      case Some(rows) => Some([row] + rows)
  }

  function Read(csv: string): Option<seq<seq<string>>> {
    Records(csv, [])
  }

  // ---------------------------------------------------------------- one field

  predicate EndsField(rest: string) {
    rest == "" || rest[0] == ',' || rest[0] == '\n'
  }

  lemma BareStep(c: char, s: string)
    requires !NeedsQuotes([c])
    ensures Bare([c] + s) == Field([c] + Bare(s).value, Bare(s).rest)
  {
    assert ([c] + s)[1..] == s;
  }

  lemma {:induction false} BareReads(v: string, rest: string)
    requires !NeedsQuotes(v) && EndsField(rest)
    ensures Bare(v + rest) == Field(v, rest)
    decreases |v|
  {
    if v == "" {
      assert v + rest == rest;
    } else {
      assert v[0] in v && forall c :: c in v[1..] ==> c in v;
      BareReads(v[1..], rest);
      BareStep(v[0], v[1..] + rest);
      assert v + rest == [v[0]] + (v[1..] + rest);
      assert v == [v[0]] + v[1..];
    }
  }

  lemma QuotedStep(c: char, s: string)
    requires c != '"'
    ensures Quoted([c] + s) == Prepend(c, Quoted(s))
  {
    assert ([c] + s)[1..] == s;
  }

  lemma QuotedQuote(s: string)
    ensures Quoted("\"\"" + s) == Prepend('"', Quoted(s))
  {
    assert ("\"\"" + s)[2..] == s;
  }

  lemma QuotedEnds(rest: string)
    requires EndsField(rest)
    ensures Quoted("\"" + rest) == Some(Field("", rest))
  {
    assert ("\"" + rest)[1..] == rest;
  }

  lemma {:induction false} QuotedReads(v: string, rest: string)
    requires EndsField(rest)
    ensures Quoted(Doubled(v) + "\"" + rest) == Some(Field(v, rest))
    decreases |v|
  {
    if v == "" {
      assert Doubled(v) + "\"" + rest == "\"" + rest;
      QuotedEnds(rest);
    } else {
      var later := Doubled(v[1..]) + "\"" + rest;
      QuotedReads(v[1..], rest);
      if v[0] == '"' {
        assert Doubled(v) + "\"" + rest == "\"\"" + later;
        QuotedQuote(later);
      } else {
        assert Doubled(v) + "\"" + rest == [v[0]] + later;
        QuotedStep(v[0], later);
      }
      assert v == [v[0]] + v[1..];
    }
  }

  lemma FieldReads(v: string, rest: string)
    requires EndsField(rest)
    ensures FirstField(Escape(v) + rest) == Some(Field(v, rest))
  {
    if NeedsQuotes(v) {
      QuotedReads(v, rest);
      assert Escape(v) + rest == "\"" + (Doubled(v) + "\"" + rest);
    } else {
      BareReads(v, rest);
      if v != "" {
        assert v[0] in v;
      }
    }
  }

  // ---------------------------------------------------------------- lines and tables

  lemma LastCellReads(cell: string, rest: string, row: seq<string>)
    requires rest == "" || rest[0] == '\n'
    ensures Records(Escape(cell) + rest, row) == AfterField(rest, row + [cell])
  {
    FieldReads(cell, rest);
  }

  lemma NextCellReads(cell: string, tail: string, row: seq<string>)
    ensures Records(Escape(cell) + ("," + tail), row) == Records(tail, row + [cell])
  {
    FieldReads(cell, "," + tail);
    assert ("," + tail)[1..] == tail;
  }

  lemma LineOfOne(cells: seq<string>)
    requires |cells| == 1
    ensures Line(cells) == Escape(cells[0])
  {
    assert Escaped(cells)[0] == Escape(cells[0]);
  }

  lemma LineSplits(cells: seq<string>)
    requires |cells| > 1
    ensures Line(cells) == Escape(cells[0]) + "," + Line(cells[1..])
  {
    assert Escaped(cells)[1..] == Escaped(cells[1..]);
  }

  lemma Regrouped(a: string, b: string, c: string, d: string)
    ensures a + b + c + d == a + (b + (c + d))
  {
  }

  lemma {:induction false} LineReads(cells: seq<string>, rest: string, row: seq<string>)
    requires cells != [] && (rest == "" || rest[0] == '\n')
    ensures Records(Line(cells) + rest, row) == AfterField(rest, row + cells)
    decreases |cells|
  {
    if |cells| == 1 {
      LineOfOne(cells);
      LastCellReads(cells[0], rest, row);
      assert [cells[0]] == cells;
    } else {
      var cell, later := cells[0], cells[1..];
      LineSplits(cells);
      Regrouped(Escape(cell), ",", Line(later), rest);
      NextCellReads(cell, Line(later) + rest, row);
      LineReads(later, rest, row + [cell]);
      assert row + [cell] + later == row + cells;
    }
  }

  /** A line end closes the record. */
  lemma LineEnds(later: string, row: seq<string>)
    ensures later == "" ==> AfterField("\n" + later, row) == Some([row])
    ensures later != "" && Records(later, []).Some? ==>
      AfterField("\n" + later, row) == Some([row] + Records(later, []).value)
  {
    var s := "\n" + later;
    assert s[0] == '\n' && s[1..] == later;
  }

  lemma FirstLineReads(row: seq<string>, later: string)
    requires row != []
    ensures Records(Line(row) + "\n" + later, []) == AfterField("\n" + later, row)
  {
    var none: seq<string> := [];
    LineReads(row, "\n" + later, none);
    assert none + row == row;
    assert Line(row) + "\n" + later == Line(row) + ("\n" + later);
  }

  lemma {:induction false} LinesRead(rows: seq<seq<string>>)
    requires rows != [] && forall i :: 0 <= i < |rows| ==> rows[i] != []
    ensures Lines(rows) != "" && Records(Lines(rows), []) == Some(rows)
    decreases |rows|
  {
    var later := Lines(rows[1..]);
    FirstLineReads(rows[0], later);
    LineEnds(later, rows[0]);
    if |rows| == 1 {
      assert rows == [rows[0]];
    } else {
      LinesRead(rows[1..]);
      assert rows == [rows[0]] + rows[1..];
    }
  }

  /** A line without cells is read back as one empty cell. */
  lemma EmptyLineReads(rest: string)
    requires rest == "" || rest[0] == '\n'
    ensures Records(Line([]) + rest, []) == AfterField(rest, [""])
  {
    assert Line([]) + rest == rest && Escape("") + rest == rest;
    FieldReads("", rest);
    var row: seq<string> := [];
    assert row + [""] == [""];
  }

  /**
   * The round trip: an export reads back as its header and every cell in order, exactly when at
   * least one selected column exists.
   */
  lemma ExportReadsBack(iso: int -> string, transactions: seq<Transaction>, selectedKeys: seq<string>)
    ensures var columns := Active(selectedKeys);
            var rows := [Header(columns)] + Table(iso, transactions, columns);
            Read(Lines(rows)) == Some(rows) <==> columns != []
  {
    var columns := Active(selectedKeys);
    var rows := [Header(columns)] + Table(iso, transactions, columns);
    if columns != [] {
      LinesRead(rows);
    } else {
      var rest := "\n" + Lines(rows[1..]);
      assert rows[0] == [] && Lines(rows) == Line([]) + rest;
      EmptyLineReads(rest);
    }
  }

  lemma {:induction false} ActiveConcat(a: seq<string>, b: seq<string>)
    ensures Active(a + b) == Active(a) + Active(b)
    decreases |a|
  {
    if a == [] {
      assert a + b == b;
    } else {
      ActiveConcat(a[1..], b);
      assert (a + b)[1..] == a[1..] + b;
    }
  }

  /** The columns of an export are the known ones among the selected keys, in that order. */
  lemma ActiveInOrder(first: seq<string>, key: string, later: seq<string>)
    ensures Active(first + [key] + later) ==
            Active(first) + (match Find(ALL_EXPORT_COLUMNS, key) case None => [] case Some(c) => [c]) + Active(later)
  {
    ActiveConcat(first + [key], later);
    ActiveConcat(first, [key]);
    assert [key][1..] == [];
  }
}
