/**
 Splitting any delimited line: every line is a row of cells, bare or qualified, and the
 fields it is split into are their values. Bare cells are kept as they are; what follows a
 closing qualifier belongs to the same field; an unclosed one runs to the end.
 */
module CsvLines {
  import opened Names
  import opened Csv

  datatype Cell =
    | Bare(text: string)
    | Qualified(text: string, after: string)   // the text between the qualifiers, and what follows the closing one
    | Unclosed(text: string)

  function Printed(c: Cell, q: char): string {
    match c
    case Bare(text) => text
    case Qualified(text, after) => [q] + DoubledBy(text, q) + [q] + after
    case Unclosed(text) => [q] + DoubledBy(text, q)
  }

  function Value(c: Cell): string {
    match c case Bare(text) => text case Qualified(text, after) => text + after case Unclosed(text) => text
  }

  predicate Free(s: string, d: char) { forall i :: 0 <= i < |s| ==> s[i] != d }

  /** A cell as it may stand in a line; only the last may be unclosed. */
  predicate CellOk(c: Cell, d: char, q: Option<char>, last: bool) {
    match c
    case Bare(text) => Free(text, d) && (text != "" && q.Some? ==> text[0] != q.value)
    case Qualified(_, after) => q.Some? && q.value != d && Free(after, d) && (after != "" ==> after[0] != q.value)
    case Unclosed(_) => q.Some? && last
  }

  predicate RowOk(cells: seq<Cell>, d: char, q: Option<char>) {
    cells != [] && forall i :: 0 <= i < |cells| ==> CellOk(cells[i], d, q, i == |cells| - 1)
  }

  function Row(cells: seq<Cell>, d: char, q: char): string
    requires cells != []
  {
    if |cells| == 1 then Printed(cells[0], q) else Printed(cells[0], q) + [d] + Row(cells[1..], d, q)
  }

  function ValuesOf(cells: seq<Cell>): (r: seq<string>)
    ensures |r| == |cells| && forall i :: 0 <= i < |cells| ==> r[i] == Value(cells[i])
  {
    seq(|cells|, i requires 0 <= i < |cells| => Value(cells[i]))
  }

  /** The fields once the first one's text is `v` and the rest of the line follows. */
  function Then(v: string, rest: string, d: char, q: Option<char>): seq<string> {
    if rest == "" then [v] else [v] + Split(rest[1..], d, q, "", true)
  }

  /** Inside a field that has begun, everything up to the delimiter is added as it is. */
  lemma {:induction false} BareRuns(text: string, rest: string, d: char, q: Option<char>, cur: string)
    requires Free(text, d) && (rest != "" ==> rest[0] == d)
    ensures Split(text + rest, d, q, cur, false) == Then(cur + text, rest, d, q)
    decreases |text|
  {
    var s := text + rest;
    if text == "" {
      assert s == rest && cur + text == cur;
    } else {
      assert s[0] == text[0] && s[1..] == text[1..] + rest;
      assert cur + [text[0]] + text[1..] == cur + text;
      BareRuns(text[1..], rest, d, q, cur + [text[0]]);
    }
  }

  lemma {:induction false} BareCell(text: string, rest: string, d: char, q: Option<char>)
    requires CellOk(Bare(text), d, q, true) && (rest != "" ==> rest[0] == d) && q != Some(d)
    ensures Split(text + rest, d, q, "", true) == Then(text, rest, d, q)
  {
    var s := text + rest;
    if text == "" {
      assert s == rest;
    } else {
      assert s[0] == text[0] && s[1..] == text[1..] + rest;
      assert "" + [text[0]] == [text[0]] && [text[0]] + text[1..] == text;
      assert Split(s, d, q, "", true) == Split(s[1..], d, q, [text[0]], false);
      BareRuns(text[1..], rest, d, q, [text[0]]);
    }
  }

  lemma {:induction false} QualifiedCell(text: string, after: string, rest: string, d: char, q: char)
    requires CellOk(Qualified(text, after), d, Some(q), true) && (rest != "" ==> rest[0] == d)
    ensures Split(Printed(Qualified(text, after), q) + rest, d, Some(q), "", true) == Then(text + after, rest, d, Some(q))
  {
    hide Inside, DoubledBy, Split;
    var s := Printed(Qualified(text, after), q) + rest;
    var tail := after + rest;
    assert s == [q] + (DoubledBy(text, q) + [q] + tail);
    InsideUndoes(text, q, tail);
    Opens(DoubledBy(text, q) + [q] + tail, d, q);
    BareRuns(after, rest, d, Some(q), text);
  }

  lemma {:induction false} Opens(s: string, d: char, q: char)
    ensures var (text, rest) := Inside(s, q); Split([q] + s, d, Some(q), "", true) == Split(rest, d, Some(q), text, false)
  {
    hide Inside;
    assert ([q] + s)[1..] == s;
    var (text, rest) := Inside(s, q);
    assert "" + text == text;
  }

  lemma {:induction false} NeverCloses(text: string, q: char)
    ensures Inside(DoubledBy(text, q), q) == (text, "")
    decreases |text|
  {
    if text != "" {
      var s := DoubledBy(text, q);
      NeverCloses(text[1..], q);
      var tail := DoubledBy(text[1..], q);
      if text[0] == q {
        assert s[2..] == tail;
      } else {
        assert s[1..] == tail;
      }
      assert [text[0]] + text[1..] == text;
    }
  }

  lemma {:induction false} UnclosedCell(text: string, d: char, q: char)
    ensures Split(Printed(Unclosed(text), q), d, Some(q), "", true) == [text]
  {
    hide Inside, DoubledBy;
    var s := Printed(Unclosed(text), q);
    NeverCloses(text, q);
    assert s[0] == q && s[1..] == DoubledBy(text, q) && "" + text == text;
    assert Split(s, d, Some(q), "", true) == Split("", d, Some(q), text, false);
  }

  /** One cell and what follows it. */
  lemma {:induction false} FirstCell(c: Cell, rest: string, d: char, q: Option<char>, last: bool)
    requires CellOk(c, d, q, last) && (rest != "" ==> rest[0] == d) && q != Some(d) && (last <==> rest == "")
    ensures Split(Printed(c, if q.Some? then q.value else d) + rest, d, q, "", true) == Then(Value(c), rest, d, q)
  {
    hide Split, DoubledBy;
    match c {
      case Bare(text) => BareCell(text, rest, d, q);
      case Qualified(text, after) => QualifiedCell(text, after, rest, d, q.value);
      case Unclosed(text) =>
        UnclosedCell(text, d, q.value);
        assert Printed(c, q.value) + rest == Printed(c, q.value);
    }
  }

  /** Any row of cells is split into its cells' values. */
  lemma {:induction false} RowSplits(cells: seq<Cell>, d: char, q: Option<char>)
    requires RowOk(cells, d, q) && q != Some(d)
    ensures Split(Row(cells, d, if q.Some? then q.value else d), d, q, "", true) == ValuesOf(cells)
    decreases |cells|
  {
    hide Split, Printed, Value, CellOk, Row, ValuesOf;
    var q' := if q.Some? then q.value else d;
    var p := Printed(cells[0], q');
    UnfoldRow(cells, d, q');
    OneMoreValue(cells);
    if |cells| == 1 {
      FirstCell(cells[0], "", d, q, true);
      assert p + "" == p;
    } else {
      var rest := [d] + Row(cells[1..], d, q');
      FirstCell(cells[0], rest, d, q, false);
      assert rest[1..] == Row(cells[1..], d, q');
      RestOk(cells, d, q);
      RowSplits(cells[1..], d, q);
    }
  }

  lemma {:induction false} UnfoldRow(cells: seq<Cell>, d: char, q: char)
    requires cells != []
    ensures |cells| == 1 ==> Row(cells, d, q) == Printed(cells[0], q)
    ensures |cells| > 1 ==> Row(cells, d, q) == Printed(cells[0], q) + ([d] + Row(cells[1..], d, q))
  {
    hide Printed;
  }

  lemma {:induction false} OneMoreValue(cells: seq<Cell>)
    requires cells != []
    ensures ValuesOf(cells) == [Value(cells[0])] + ValuesOf(cells[1..]) && (|cells| == 1 ==> ValuesOf(cells[1..]) == [])
  {
    hide Value;
  }

  lemma {:induction false} RestOk(cells: seq<Cell>, d: char, q: Option<char>)
    requires RowOk(cells, d, q) && |cells| > 1
    ensures RowOk(cells[1..], d, q)
  {
    hide CellOk;
  }

  // ---- Every line is such a row ----

  /** The text before the first delimiter. */
  function UpTo(s: string, d: char): string { if s == "" || s[0] == d then "" else [s[0]] + UpTo(s[1..], d) }

  lemma {:induction false} UpToSplits(s: string, d: char)
    ensures var a := UpTo(s, d); Free(a, d) && a <= s && (|a| < |s| ==> s[|a|] == d) && (a != "" ==> a[0] == s[0])
    decreases |s|
  {
    if s != "" && s[0] != d {
      UpToSplits(s[1..], d);
    }
  }

  /** A qualified text, read to its closing qualifier, and whether there was one. */
  lemma {:induction false} ReadBack(s: string, q: char) returns (closed: bool)
    ensures var (text, rest) := Inside(s, q);
            if closed then s == DoubledBy(text, q) + [q] + rest && (rest != "" ==> rest[0] != q)
            else s == DoubledBy(text, q) && rest == ""
    decreases |s|
  {
    if s == "" {
      closed := false;
    } else if s[0] != q {
      closed := ReadBack(s[1..], q);
      var (text, rest) := Inside(s[1..], q);
      assert ([s[0]] + text)[1..] == text;
      assert [s[0]] + s[1..] == s;
      if closed {
        assert [s[0]] + (DoubledBy(text, q) + [q] + rest) == [s[0]] + DoubledBy(text, q) + [q] + rest;
      }
    } else if |s| > 1 && s[1] == q {
      closed := ReadBack(s[2..], q);
      var (text, rest) := Inside(s[2..], q);
      assert ([q] + text)[1..] == text;
      assert [q, q] + s[2..] == s;
      if closed {
        assert [q, q] + (DoubledBy(text, q) + [q] + rest) == [q, q] + DoubledBy(text, q) + [q] + rest;
      }
    } else {
      closed := true;
      assert s == [q] + s[1..];
    }
  }

  /** The first cell of a line, and the rest after its delimiter. */
  lemma {:induction false} TakeCell(s: string, d: char, q: Option<char>) returns (c: Cell, rest: string)
    requires q != Some(d)
    ensures CellOk(c, d, q, rest == "") && (rest != "" ==> rest[0] == d)
    ensures s == Printed(c, if q.Some? then q.value else d) + rest
  {
    hide Inside, DoubledBy;
    if s != "" && q == Some(s[0]) {
      var closed := ReadBack(s[1..], s[0]);
      var (text, more) := Inside(s[1..], s[0]);
      assert [s[0]] + s[1..] == s;
      if closed {
        var after := UpTo(more, d);
        UpToSplits(more, d);
        c, rest := Qualified(text, after), more[|after|..];
        assert after + rest == more;
        assert [s[0]] + (DoubledBy(text, s[0]) + [s[0]] + more) == [s[0]] + DoubledBy(text, s[0]) + [s[0]] + after + rest;
      } else {
        c, rest := Unclosed(text), "";
      }
    } else {
      var text := UpTo(s, d);
      UpToSplits(s, d);
      c, rest := Bare(text), s[|text|..];
      assert text + rest == s;
    }
  }

  /** So splitting is determined: for every line there is a row of cells that prints as it, and its values are the fields. */
  lemma {:induction false} EveryLine(line: string, d: char, q: Option<char>) returns (cells: seq<Cell>)
    requires q != Some(d)
    ensures RowOk(cells, d, q) && Row(cells, d, if q.Some? then q.value else d) == line
    ensures Split(line, d, q, "", true) == ValuesOf(cells)
    decreases |line|
  {
    hide Split, Printed, Value, CellOk;
    var q' := if q.Some? then q.value else d;
    var c, rest := TakeCell(line, d, q);
    if rest == "" {
      cells := [c];
      assert Printed(c, q') + "" == Printed(c, q');
    } else {
      Shorter(line, Printed(c, q'), rest);
      var more := EveryLine(rest[1..], d, q);
      cells := [c] + more;
      assert cells[1..] == more && [d] + rest[1..] == rest;
      assert Printed(c, q') + [d] + Row(more, d, q') == Printed(c, q') + rest;
      forall i | 0 <= i < |cells|
        ensures CellOk(cells[i], d, q, i == |cells| - 1)
      {
        if i > 0 {
          assert cells[i] == more[i - 1];
        }
      }
    }
    RowSplits(cells, d, q);
  }

  lemma {:induction false} Shorter(line: string, p: string, rest: string)
    requires line == p + rest && rest != ""
    ensures |rest[1..]| < |line|
  {
  }

  /** The printed line, character by character: each field between quotes, its own quotes doubled, and commas between them. */
  lemma {:induction false} LineIs(v: string, rest: seq<string>)
    ensures Line([v]) == "\"" + DoubledBy(v, '"') + "\""
    ensures rest != [] ==> Line([v] + rest) == "\"" + DoubledBy(v, '"') + "\"," + Line(rest)
  {
    hide Doubled;
    DoubledIs(v);
    if rest != [] {
      assert ([v] + rest)[1..] == rest;
      assert Quoted(v) + "," == "\"" + DoubledBy(v, '"') + "\",";
    }
  }
}
