/** The text `exportToCSV` builds before handing it to the browser
    (pages/Dashboard.tsx:9-24). A record is its fields in key order; a key
    that the first record has and a later one lacks reads as missing. */
module Csv {
  import opened Types

  /** A field value as the export sees it. `Num` carries the text JavaScript
      renders the number as. */
  datatype Value = Str(s: string) | Num(text: string) | Bool(b: bool) | Null | Missing

  type Record = seq<(string, Value)>

  /** `Object.keys(record)`. */
  function Keys(r: Record): (keys: seq<string>)
    ensures |keys| == |r|
  {
    seq(|r|, i requires 0 <= i < |r| => r[i].0)
  }

  /** `record[key]`: the value of the first field with that key. */
  function Lookup(r: Record, key: string): Value
    decreases |r|
  {
    if r == [] then Missing
    else if r[0].0 == key then r[0].1
    else Lookup(r[1..], key)
  }

  /** `parts.join(sep)`. */
  function Join(parts: seq<string>, sep: string): string
    decreases |parts|
  {
    if |parts| == 0 then ""
    else if |parts| == 1 then parts[0]
    else parts[0] + sep + Join(parts[1..], sep)
  }

  /** `s.split(c)`: the pieces between occurrences of `c`, at least one. */
  function SplitOn(s: string, c: char): (pieces: seq<string>)
    ensures |pieces| >= 1
    decreases |s|
  {
    if s == [] then [""]
    else
      var rest := SplitOn(s[1..], c);
      if s[0] == c then [""] + rest else [[s[0]] + rest[0]] + rest[1..]
  }

  lemma {:induction false} SplitWithoutSeparator(a: string, c: char)
    requires c !in a
    ensures SplitOn(a, c) == [a]
    decreases |a|
  {
    if a != [] {
      SplitWithoutSeparator(a[1..], c);
      assert [a[0]] + a[1..] == a;
    }
  }

  lemma {:induction false} SplitAfterPiece(a: string, b: string, c: char)
    requires c !in a
    ensures SplitOn(a + [c] + b, c) == [a] + SplitOn(b, c)
    decreases |a|
  {
    if a == [] {
      assert a + [c] + b == [c] + b;
      assert ([c] + b)[1..] == b;
    } else {
      assert (a + [c] + b)[1..] == a[1..] + [c] + b;
      SplitAfterPiece(a[1..], b, c);
      assert [a[0]] + a[1..] == a;
    }
  }

  /** Splitting undoes joining when no piece holds the separator. */
  lemma {:induction false} SplitJoin(parts: seq<string>, c: char)
    requires |parts| >= 1
    requires forall i :: 0 <= i < |parts| ==> c !in parts[i]
    ensures SplitOn(Join(parts, [c]), c) == parts
    decreases |parts|
  {
    if |parts| == 1 {
      SplitWithoutSeparator(parts[0], c);
    } else {
      SplitJoin(parts[1..], c);
      SplitAfterPiece(parts[0], Join(parts[1..], [c]), c);
      assert [parts[0]] + parts[1..] == parts;
    }
  }

  /** A character is in a join only if it is in a piece or in the separator. */
  lemma {:induction false} JoinAvoids(parts: seq<string>, sep: string, c: char)
    requires c !in sep
    requires forall i :: 0 <= i < |parts| ==> c !in parts[i]
    ensures c !in Join(parts, sep)
    decreases |parts|
  {
    if |parts| > 1 {
      JoinAvoids(parts[1..], sep, c);
    }
  }

  /** Every piece but the last with a carriage return appended. */
  function WithCr(parts: seq<string>): (r: seq<string>)
    ensures |r| == |parts|
  {
    seq(|parts|, i requires 0 <= i < |parts| => if i < |parts| - 1 then parts[i] + "\r" else parts[i])
  }

  /** Joining on CRLF is joining on LF after a CR ends every line but the last. */
  lemma {:induction false} JoinCrlf(parts: seq<string>)
    ensures Join(parts, "\r\n") == Join(WithCr(parts), "\n")
    decreases |parts|
  {
    if |parts| > 1 {
      JoinCrlf(parts[1..]);
      assert WithCr(parts)[1..] == WithCr(parts[1..]);
      assert parts[0] + "\r\n" + Join(parts[1..], "\r\n") == (parts[0] + "\r") + "\n" + Join(parts[1..], "\r\n");
    }
  }

  function HexDigit(n: int): char
    requires 0 <= n < 16
  {
    if n < 10 then ('0' as int + n) as char else ('a' as int + n - 10) as char
  }

  function HexValue(c: char): (v: int)
    ensures -1 <= v < 16
  {
    if '0' <= c <= '9' then c as int - '0' as int
    else if 'a' <= c <= 'f' then c as int - 'a' as int + 10
    else if 'A' <= c <= 'F' then c as int - 'A' as int + 10
    else -1
  }

  /** How `JSON.stringify` writes one character inside a string: the seven
      short escapes, `\u00xx` with lower-case hex for the other control
      characters, and the character itself otherwise. */
  function EscapeChar(ch: char): (e: string)
    ensures |e| >= 1
  {
    if ch == '"' then "\\\""
    else if ch == '\\' then "\\\\"
    else if ch == '\U{8}' then "\\b"
    else if ch == '\t' then "\\t"
    else if ch == '\n' then "\\n"
    else if ch == '\U{C}' then "\\f"
    else if ch == '\r' then "\\r"
    else if ch < ' ' then "\\u00" + [HexDigit(ch as int / 16), HexDigit(ch as int % 16)]
    else [ch]
  }

  function Escape(s: string): string
    decreases |s|
  {
    if s == [] then "" else EscapeChar(s[0]) + Escape(s[1..])
  }

  /** `JSON.stringify` of a string. */
  function JsonQuote(s: string): (q: string)
    ensures |q| >= 2 && q[0] == '"' && q[|q| - 1] == '"'
  {
    "\"" + Escape(s) + "\""
  }

  /** Reading a JSON string body back: each escape becomes its character;
      anything else stands for itself. */
  function Unescape(e: string): string
    decreases |e|
  {
    if e == [] then ""
    else if e[0] == '\\' && |e| >= 2 then
      var d := e[1];
      if d == '"' || d == '\\' || d == '/' then [d] + Unescape(e[2..])
      else if d == 'b' then ['\U{8}'] + Unescape(e[2..])
      else if d == 't' then ['\t'] + Unescape(e[2..])
      else if d == 'n' then ['\n'] + Unescape(e[2..])
      else if d == 'f' then ['\U{C}'] + Unescape(e[2..])
      else if d == 'r' then ['\r'] + Unescape(e[2..])
      else if d == 'u' && |e| >= 6 && HexValue(e[2]) == 0 && HexValue(e[3]) == 0 && HexValue(e[4]) >= 0 && HexValue(e[5]) >= 0 then
        [(HexValue(e[4]) * 16 + HexValue(e[5])) as char] + Unescape(e[6..])
      else [e[0]] + Unescape(e[1..])
    else [e[0]] + Unescape(e[1..])
  }

  lemma UnescapeOne(ch: char, rest: string)
    ensures Unescape(EscapeChar(ch) + rest) == [ch] + Unescape(rest)
  {
    var e := EscapeChar(ch) + rest;
    if ch < ' ' && ch != '\U{8}' && ch != '\t' && ch != '\n' && ch != '\U{C}' && ch != '\r' {
      var n := ch as int;
      assert e[4] == HexDigit(n / 16) && e[5] == HexDigit(n % 16);
      assert e[6..] == rest;
    } else if |EscapeChar(ch)| == 2 {
      assert e[2..] == rest;
    } else {
      assert e[1..] == rest;
    }
  }

  /** Reading back what `JSON.stringify` wrote gives the original string. */
  lemma {:induction false} UnescapeEscape(s: string)
    ensures Unescape(Escape(s)) == s
    decreases |s|
  {
    if s != [] {
      UnescapeEscape(s[1..]);
      UnescapeOne(s[0], Escape(s[1..]));
      assert [s[0]] + s[1..] == s;
    }
  }

  /** An escaped string holds no raw control character, so no line break,
      and a comma only where the original had one. */
  lemma {:induction false} EscapeIsPrintable(s: string)
    ensures forall i :: 0 <= i < |Escape(s)| ==> Escape(s)[i] >= ' '
    ensures ',' in Escape(s) ==> ',' in s
    decreases |s|
  {
    if s != [] {
      EscapeIsPrintable(s[1..]);
      var e := EscapeChar(s[0]);
      if s[0] < ' ' && s[0] != '\U{8}' && s[0] != '\t' && s[0] != '\n' && s[0] != '\U{C}' && s[0] != '\r' {
        var n := s[0] as int;
        assert HexDigit(n / 16) >= '0' && HexDigit(n % 16) >= '0';
      }
      assert forall i :: 0 <= i < |e| ==> e[i] >= ' ';
      assert ',' in e ==> s[0] == ',';
      assert Escape(s) == e + Escape(s[1..]);
    }
  }

  /** One cell (pages/Dashboard.tsx:18-22): a string holding a comma is
      wrapped in double quotes as it is, with no escaping inside; any other
      value is written as `JSON.stringify` writes it, after the replacer has
      turned null into the empty string. A key the record lacks gives
      undefined, which `join` writes as nothing. */
  function Cell(v: Value): (c: string)
    ensures v.Str? ==> |c| >= 2 && c[0] == '"' && c[|c| - 1] == '"'
  {
    match v
    case Str(s) => if ',' in s then "\"" + s + "\"" else JsonQuote(s)
    case Num(text) => text
    case Bool(b) => if b then "true" else "false"
    case Null => "\"\""
    case Missing => ""
  }

  /** A cell holds a comma exactly when its value is a string or number text
      holding one. */
  lemma CellComma(v: Value)
    ensures ',' in Cell(v) <==> (v.Str? && ',' in v.s) || (v.Num? && ',' in v.text)
  {
    if v.Str? && ',' !in v.s {
      EscapeIsPrintable(v.s);
    }
  }

  /** A cell holds a line feed exactly when its value is a string that holds
      both a comma and a line feed, or number text holding a line feed: a
      string without a comma is escaped. */
  lemma CellLineFeed(v: Value)
    ensures '\n' in Cell(v) <==> (v.Str? && ',' in v.s && '\n' in v.s) || (v.Num? && '\n' in v.text)
  {
    if v.Str? && ',' !in v.s {
      EscapeIsPrintable(v.s);
    }
  }

  function Cells(keys: seq<string>, row: Record): (cells: seq<string>)
    ensures |cells| == |keys|
  {
    seq(|keys|, k requires 0 <= k < |keys| => Cell(Lookup(row, keys[k])))
  }

  function RowLine(keys: seq<string>, row: Record): string {
    Join(Cells(keys, row), ",")
  }

  /** The header line, then one line per record, all under the first
      record's keys. */
  function CsvLines(data: seq<Record>): (lines: seq<string>)
    requires data != []
    ensures |lines| == |data| + 1
  {
    var keys := Keys(data[0]);
    [Join(keys, ",")] + seq(|data|, i requires 0 <= i < |data| => RowLine(keys, data[i]))
  }

  /** The exported text; nothing for no data ("No data to export"). */
  function CsvText(data: seq<Record>): (text: Option<string>)
    ensures text.None? <==> data == []
  {
    if data == [] then None else Some(Join(CsvLines(data), "\r\n"))
  }

  /** No value that reaches the text can split a line or a row. */
  predicate PlainValue(v: Value) {
    match v
    case Str(s) => ',' !in s
    case Num(text) => ',' !in text && '\n' !in text
    case _ => true
  }

  /** Splitting a row line on commas gives back one cell per header key when
      no value holds a comma: the columns line up with the header. */
  lemma RowSplitsIntoCells(keys: seq<string>, row: Record)
    requires |keys| >= 1
    requires forall k :: 0 <= k < |keys| ==> PlainValue(Lookup(row, keys[k]))
    ensures SplitOn(RowLine(keys, row), ',') == Cells(keys, row)
  {
    forall k | 0 <= k < |keys|
      ensures ',' !in Cells(keys, row)[k]
    {
      CellComma(Lookup(row, keys[k]));
    }
    SplitJoin(Cells(keys, row), ',');
  }

  /** Splitting the header on commas gives back the keys when no key holds a
      comma. */
  lemma HeaderSplitsIntoKeys(data: seq<Record>)
    requires data != [] && |data[0]| >= 1
    requires forall k :: 0 <= k < |data[0]| ==> ',' !in data[0][k].0
    ensures SplitOn(CsvLines(data)[0], ',') == Keys(data[0])
  {
    SplitJoin(Keys(data[0]), ',');
  }

  /** When neither a key nor a value can hold a line feed, splitting the text
      on line feeds gives back the header and one line per record, each but
      the last still ending in its carriage return. */
  lemma LinesSplitOnLineFeed(data: seq<Record>)
    requires data != []
    requires forall k :: 0 <= k < |data[0]| ==> '\n' !in data[0][k].0
    requires forall i, k :: 0 <= i < |data| && 0 <= k < |data[0]| ==> PlainValue(Lookup(data[i], data[0][k].0))
    ensures SplitOn(CsvText(data).value, '\n') == WithCr(CsvLines(data))
  {
    var keys := Keys(data[0]);
    var lines := CsvLines(data);
    JoinAvoids(keys, ",", '\n');
    forall i | 0 <= i < |data|
      ensures '\n' !in RowLine(keys, data[i])
    {
      forall k | 0 <= k < |keys|
        ensures '\n' !in Cells(keys, data[i])[k]
      {
        CellLineFeed(Lookup(data[i], keys[k]));
      }
      JoinAvoids(Cells(keys, data[i]), ",", '\n');
    }
    assert forall i :: 0 <= i < |lines| ==> '\n' !in lines[i] by {
      forall i | 0 <= i < |lines|
        ensures '\n' !in lines[i]
      {
        if i > 0 {
          assert lines[i] == RowLine(keys, data[i - 1]);
        }
      }
    }
    forall i | 0 <= i < |lines|
      ensures '\n' !in WithCr(lines)[i]
    {
      assert WithCr(lines)[i] == lines[i] || WithCr(lines)[i] == lines[i] + "\r";
    }
    JoinCrlf(lines);
    SplitJoin(WithCr(lines), '\n');
  }
}
