/**
 Quoting a field for the log and splitting a delimited line: the printer and the
 parser undo each other (section 2, items 5 to 7 of RFC 4180).
 */
module Csv {
  import opened Names

  const QUOTE: char := '"'
  const COMMA: char := ','

  // ---- Printing ----

  /** `value` with every quote doubled. */
  function Doubled(value: string): string {
    if value == "" then ""
    else Doubled(value[..|value| - 1]) + (if value[|value| - 1] == QUOTE then [QUOTE, QUOTE] else [value[|value| - 1]])
  }

  function Quoted(value: string): string { [QUOTE] + Doubled(value) + [QUOTE] }

  /** `csv_field`. */
  method CsvField(out: string, value: string) returns (r: string)
    ensures r == out + Quoted(value)
  {
    r := out + [QUOTE];
    var i := 0;
    while i < |value|
      invariant 0 <= i <= |value|
      invariant r == out + [QUOTE] + Doubled(value[..i])
    {
      assert value[..i + 1][..i] == value[..i];
      if value[i] == QUOTE {
        r := r + [QUOTE];
      }
      r := r + [value[i]];
      i := i + 1;
    }
    assert value[..i] == value;
    r := r + [QUOTE];
  }

  function Line(fields: seq<string>): string
    requires fields != []
  {
    if |fields| == 1 then Quoted(fields[0]) else Quoted(fields[0]) + [COMMA] + Line(fields[1..])
  }

  // ---- Splitting ----

  /** The rest of a qualified field: its text, and what follows the closing qualifier (or the end). */
  function Inside(s: string, q: char): (string, string)
    decreases |s|
  {
    if s == "" then ("", "")
    else if s[0] != q then
      var (text, rest) := Inside(s[1..], q);
      ([s[0]] + text, rest)
    else if |s| > 1 && s[1] == q then
      var (text, rest) := Inside(s[2..], q);
      ([q] + text, rest)
    else ("", s[1..])
  }

  lemma {:induction false} InsideShorter(s: string, q: char)
    ensures |Inside(s, q).1| <= |s|
    decreases |s|
  {
    if s != "" && s[0] != q {
      InsideShorter(s[1..], q);
    } else if |s| > 1 && s[1] == q {
      InsideShorter(s[2..], q);
    }
  }

  /** The fields of `s`, given the text of the first one so far and whether it has begun. */
  function Split(s: string, d: char, q: Option<char>, cur: string, start: bool): (r: seq<string>)
    ensures r != []
    decreases |s|
  {
    if s == "" then [cur]
    else if start && q == Some(s[0]) then
      InsideShorter(s[1..], s[0]);
      var (text, rest) := Inside(s[1..], s[0]);
      Split(rest, d, q, cur + text, false)
    else if s[0] == d then [cur] + Split(s[1..], d, q, "", true)
    else Split(s[1..], d, q, cur + [s[0]], false)
  }

  /** `cfhttp_split_line`. */
  method SplitLine(line: string, d: char, q: Option<char>) returns (fields: seq<string>)
    ensures fields == Split(line, d, q, "", true)
  {
    fields := [];
    var cur := "";
    var i := 0;
    var start := true;
    assert line[0..] == line;
    while i < |line|
      invariant 0 <= i <= |line|
      invariant fields + Split(line[i..], d, q, cur, start) == Split(line, d, q, "", true)
    {
      var c := line[i];
      assert line[i..][1..] == line[i + 1..];
      i := i + 1;
      if start && q == Some(c) {
        start := false;
        cur, i := ReadQualified(line, c, cur, i);
      } else {
        start := false;
        if c == d {
          ghost var rest := Split(line[i..], d, q, "", true);
          assert fields + ([cur] + rest) == fields + [cur] + rest;
          fields := fields + [cur];
          cur := "";
          start := true;
        } else {
          cur := cur + [c];
        }
      }
    }
    assert line[i..] == "";
    fields := fields + [cur];
  }

  /** The inner loop: consume to the closing qualifier, undoing doubled ones. */
  method ReadQualified(line: string, q: char, cur0: string, i0: nat) returns (cur: string, i: nat)
    requires i0 <= |line|
    ensures i0 <= i <= |line|
    ensures cur == cur0 + Inside(line[i0..], q).0 && line[i..] == Inside(line[i0..], q).1
  {
    cur, i := cur0, i0;
    var closed := false;
    assert cur0 + "" == cur0;
    while i < |line| && !closed
      invariant i0 <= i <= |line|
      invariant !closed ==> cur0 + Inside(line[i0..], q).0 == cur + Inside(line[i..], q).0
      invariant !closed ==> Inside(line[i0..], q).1 == Inside(line[i..], q).1
      invariant closed ==> cur == cur0 + Inside(line[i0..], q).0 && line[i..] == Inside(line[i0..], q).1
      decreases |line| - i, !closed
    {
      var c := line[i];
      ghost var s := line[i..];
      assert s[1..] == line[i + 1..];
      i := i + 1;
      if c == q {
        if i < |line| && line[i] == q {
          assert s[2..] == line[i + 1..];
          ghost var text := Inside(line[i + 1..], q).0;
          assert cur + ([c] + text) == cur + [c] + text;
          i := i + 1;
          cur := cur + [c];
        } else {
          assert cur + "" == cur;
          closed := true;
        }
      } else {
        ghost var text := Inside(line[i..], q).0;
        assert cur + ([c] + text) == cur + [c] + text;
        cur := cur + [c];
      }
    }
    if !closed {
      assert line[i..] == "" && cur + "" == cur;
    }
  }

  // ---- Round trip ----

  function Once(c: char): string { if c == QUOTE then [QUOTE, QUOTE] else [c] }

  lemma {:induction false} UnfoldDoubled(v: string)
    ensures v == "" ==> Doubled(v) == ""
    ensures v != "" ==> Doubled(v) == Doubled(v[..|v| - 1]) + Once(v[|v| - 1])
  {
  }

  lemma {:induction false} DoubledCons(v: string)
    requires v != ""
    ensures Doubled(v) == Once(v[0]) + Doubled(v[1..])
    decreases |v|
  {
    hide Doubled, Once;
    UnfoldDoubled(v);
    if |v| == 1 {
      assert v[..0] == "" && v[1..] == "";
      UnfoldDoubled("");
    } else {
      var n := |v| - 1;
      DoubledCons(v[..n]);
      UnfoldDoubled(v[1..]);
      assert v[..n][1..] == v[1..][..n - 1];
    }
  }

  /** `v` with every `q` doubled, from the front. */
  function DoubledBy(v: string, q: char): string {
    if v == "" then "" else (if v[0] == q then [q, q] else [v[0]]) + DoubledBy(v[1..], q)
  }

  lemma {:induction false} DoubledIs(v: string)
    ensures Doubled(v) == DoubledBy(v, QUOTE)
    decreases |v|
  {
    hide Doubled;
    if v == "" {
      UnfoldDoubled(v);
    } else {
      DoubledCons(v);
      DoubledIs(v[1..]);
    }
  }

  lemma {:induction false} InsideUndoes(v: string, q: char, rest: string)
    requires rest != "" ==> rest[0] != q
    ensures Inside(DoubledBy(v, q) + [q] + rest, q) == (v, rest)
    decreases |v|
  {
    var s := DoubledBy(v, q) + [q] + rest;
    if v == "" {
      assert s == [q] + rest;
      assert s[1..] == rest;
    } else {
      InsideUndoes(v[1..], q, rest);
      var tail := DoubledBy(v[1..], q) + [q] + rest;
      if v[0] == q {
        assert s == [q, q] + tail;
        assert s[2..] == tail;
      } else {
        assert s == [v[0]] + tail;
        assert s[1..] == tail;
      }
      assert [v[0]] + v[1..] == v;
    }
  }

  lemma {:induction false} QuotedField(v: string, rest: string)
    requires rest != "" ==> rest[0] == COMMA
    ensures Split(Quoted(v) + rest, COMMA, Some(QUOTE), "", true) ==
            if rest == "" then [v] else [v] + Split(rest[1..], COMMA, Some(QUOTE), "", true)
  {
    var s := Quoted(v) + rest;
    DoubledIs(v);
    InsideUndoes(v, QUOTE, rest);
    assert s[1..] == Doubled(v) + [QUOTE] + rest && s[0] == QUOTE;
    assert "" + v == v;
    assert Split(s, COMMA, Some(QUOTE), "", true) == Split(rest, COMMA, Some(QUOTE), v, false);
  }

  /** Whatever the fields hold: quotes, commas, newlines or nothing. */
  lemma {:induction false} SplitUndoesLine(fields: seq<string>)
    requires fields != []
    ensures Split(Line(fields), COMMA, Some(QUOTE), "", true) == fields
    decreases |fields|
  {
    if |fields| == 1 {
      QuotedField(fields[0], "");
      assert Quoted(fields[0]) + "" == Quoted(fields[0]);
    } else {
      var rest := [COMMA] + Line(fields[1..]);
      QuotedField(fields[0], rest);
      assert Quoted(fields[0]) + [COMMA] + Line(fields[1..]) == Quoted(fields[0]) + rest;
      assert rest[1..] == Line(fields[1..]);
      SplitUndoesLine(fields[1..]);
    }
  }

  // ---- The log line ----

  function Tail(fields: seq<string>, i: nat): string
    requires i <= |fields|
  {
    if i == |fields| then "" else [COMMA] + Line(fields[i..])
  }

  lemma {:induction false} TailHead(fields: seq<string>, i: nat)
    requires i < |fields|
    ensures Line(fields[i..]) == Quoted(fields[i]) + Tail(fields, i + 1)
  {
    hide Quoted;
    if i + 1 < |fields| {
      assert fields[i..][1..] == fields[i + 1..];
      assert Quoted(fields[i]) + [COMMA] + Line(fields[i + 1..]) == Quoted(fields[i]) + ([COMMA] + Line(fields[i + 1..]));
    } else {
      assert Quoted(fields[i]) + "" == Quoted(fields[i]);
    }
  }

  /** `format_line`: the fields quoted and separated by commas, then a newline. */
  method FormatLine(fields: seq<string>) returns (out: string)
    requires fields != []
    ensures out == Line(fields) + "\n"
    ensures Split(out[..|out| - 1], COMMA, Some(QUOTE), "", true) == fields
  {
    hide Quoted, Line, Split;
    assert fields[0..] == fields;
    TailHead(fields, 0);
    out := CsvField("", fields[0]);
    assert "" + Quoted(fields[0]) == Quoted(fields[0]);
    var i := 1;
    while i < |fields|
      invariant 1 <= i <= |fields|
      invariant Line(fields) == out + Tail(fields, i)
    {
      TailHead(fields, i);
      ghost var was := out;
      assert was + ([COMMA] + (Quoted(fields[i]) + Tail(fields, i + 1))) == was + [COMMA] + Quoted(fields[i]) + Tail(fields, i + 1);
      out := out + [COMMA];
      out := CsvField(out, fields[i]);
      i := i + 1;
    }
    assert out + "" == out;
    SplitUndoesLine(fields);
    out := out + "\n";
    assert out[..|out| - 1] == Line(fields);
  }
}
