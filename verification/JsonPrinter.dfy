// JSON values as serde_json holds them, and the compact printer `serde_json::to_string`.

module Json {

  /**
   * An object is the list of its entries in iteration order (serde_json with `preserve_order`;
   * without it the list is simply sorted). A number is the text serde_json prints for it.
   */
  datatype Value =
    | Null
    | Bool(b: bool)
    | Number(text: string)
    | String(s: string)
    | Array(items: seq<Value>)
    | Object(entries: seq<Entry>)

  datatype Entry = Entry(key: string, value: Value)

  predicate NumberChar(c: char) {
    '0' <= c <= '9' || c == '+' || c == '-' || c == '.' || c == 'e' || c == 'E'
  }

  predicate DistinctKeys(entries: seq<Entry>) {
    forall i, j :: 0 <= i < j < |entries| ==> entries[i].key != entries[j].key
  }

  /** What every serde_json value satisfies: map keys are distinct, number texts are number texts. */
  ghost predicate Wf(v: Value) {
    match v
    case Number(text) =>
      text != [] && (forall c :: c in text ==> NumberChar(c)) && (text[0] == '-' || '0' <= text[0] <= '9')
    case Array(items) => forall x :: x in items ==> Wf(x)
    case Object(entries) => DistinctKeys(entries) && forall e :: e in entries ==> Wf(e.value)
    case _ => true
  }

  function Hex(n: nat): char
    requires n < 16
  {
    "0123456789abcdef"[n]
  }

  function Ch(c: char, rest: string): (r: string)
    ensures r != [] && r[0] == c && r[1..] == rest
  {
    [c] + rest
  }

  /** Writes the character `c` of a string literal, then `rest`. */
  function Escaped(c: char, rest: string): string {
    var n := c as int;
    if c == '"' then Ch('\\', Ch('"', rest))
    else if c == '\\' then Ch('\\', Ch('\\', rest))
    else if n == 8 then Ch('\\', Ch('b', rest))
    else if n == 12 then Ch('\\', Ch('f', rest))
    else if n == 10 then Ch('\\', Ch('n', rest))
    else if n == 13 then Ch('\\', Ch('r', rest))
    else if n == 9 then Ch('\\', Ch('t', rest))
    else if n < 0x20 then Ch('\\', Ch('u', Ch('0', Ch('0', Ch(Hex(n / 16), Ch(Hex(n % 16), rest))))))
    else Ch(c, rest)
  }

  /** Writes the rest of a string literal with its closing quote, then `rest`. */
  function Quoted(s: string, rest: string): string {
    if s == [] then Ch('"', rest) else Escaped(s[0], Quoted(s[1..], rest))
  }

  /** Writes `v` as `serde_json::to_string` does, then `rest`. */
  function PrintTo(v: Value, rest: string): string
    decreases v, 0
  {
    match v
    case Null => "null" + rest
    case Bool(b) => if b then "true" + rest else "false" + rest
    case Number(text) => text + rest
    case String(s) => Ch('"', Quoted(s, rest))
    case Array(items) =>
      Ch('[', if items == [] then Ch(']', rest) else PrintTo(items[0], PrintItems(items[1..], rest)))
    case Object(entries) =>
      Ch('{', if entries == [] then Ch('}', rest) else PrintEntry(entries[0], PrintEntries(entries[1..], rest)))
  }

  function PrintItems(items: seq<Value>, rest: string): string {
    if items == [] then Ch(']', rest) else Ch(',', PrintTo(items[0], PrintItems(items[1..], rest)))
  }

  function PrintEntry(e: Entry, rest: string): string {
    Ch('"', Quoted(e.key, Ch(':', PrintTo(e.value, rest))))
  }

  function PrintEntries(entries: seq<Entry>, rest: string): string {
    if entries == [] then Ch('}', rest) else Ch(',', PrintEntry(entries[0], PrintEntries(entries[1..], rest)))
  }

  function Print(v: Value): string {
    PrintTo(v, [])
  }

  // ---- The printer is injective: printed text can be read back in only one way. ----

  lemma ChUnique(c: char, d: char, x: string, y: string)
    requires Ch(c, x) == Ch(d, y)
    ensures c == d && x == y
  {
  }

  /** The character after the backslash, or 0 for a character written as itself. */
  function EscapeCode(c: char): char {
    var n := c as int;
    if c == '"' || c == '\\' then c else if n == 8 then 'b' else if n == 12 then 'f' else if n == 10 then 'n'
    else if n == 13 then 'r' else if n == 9 then 't' else if n < 0x20 then 'u' else '\0'
  }

  lemma ControlUnique(c: char, d: char, x: string, y: string)
    requires EscapeCode(c) == 'u' && EscapeCode(d) == 'u' && Escaped(c, x) == Escaped(d, y)
    ensures c == d && x == y
  {
    var n, m := c as int, d as int;
    var x1, y1 := Ch(Hex(n % 16), x), Ch(Hex(m % 16), y);
    var x2, y2 := Ch(Hex(n / 16), x1), Ch(Hex(m / 16), y1);
    ChUnique('\\', '\\', Ch('u', Ch('0', Ch('0', x2))), Ch('u', Ch('0', Ch('0', y2))));
    ChUnique('u', 'u', Ch('0', Ch('0', x2)), Ch('0', Ch('0', y2)));
    ChUnique('0', '0', Ch('0', x2), Ch('0', y2));
    ChUnique('0', '0', x2, y2);
    ChUnique(Hex(n / 16), Hex(m / 16), x1, y1);
    ChUnique(Hex(n % 16), Hex(m % 16), x, y);
    HexUnique(n / 16, m / 16);
    HexUnique(n % 16, m % 16);
  }

  lemma HexUnique(n: nat, m: nat)
    requires n < 16 && m < 16 && Hex(n) == Hex(m)
    ensures n == m
  {
  }

  /** Everything `Escaped` writes after the first character. */
  function AfterFirst(c: char, rest: string): string {
    var n := c as int;
    if EscapeCode(c) == '\0' then rest
    else if EscapeCode(c) == 'u' then Ch('u', Ch('0', Ch('0', Ch(Hex(n / 16), Ch(Hex(n % 16), rest)))))
    else Ch(EscapeCode(c), rest)
  }

  lemma EscapedUnique(c: char, d: char, x: string, y: string)
    requires Escaped(c, x) == Escaped(d, y)
    ensures c == d && x == y
  {
    var c0 := if EscapeCode(c) == '\0' then c else '\\';
    var d0 := if EscapeCode(d) == '\0' then d else '\\';
    assert Escaped(c, x) == Ch(c0, AfterFirst(c, x));
    assert Escaped(d, y) == Ch(d0, AfterFirst(d, y));
    ChUnique(c0, d0, AfterFirst(c, x), AfterFirst(d, y));
    if EscapeCode(c) != '\0' {
      assert AfterFirst(c, x)[0] == EscapeCode(c) && AfterFirst(d, y)[0] == EscapeCode(d);
      if EscapeCode(c) == 'u' {
        ControlUnique(c, d, x, y);
      } else {
        ChUnique(EscapeCode(c), EscapeCode(d), x, y);
      }
    }
  }

  lemma EscapedFirst(c: char, rest: string)
    ensures Escaped(c, rest) != [] && Escaped(c, rest)[0] != '"'
  {
  }

  lemma {:induction false} QuotedUnique(s: string, t: string, x: string, y: string)
    requires Quoted(s, x) == Quoted(t, y)
    ensures s == t && x == y
    decreases |s| + |t|
  {
    if s == [] && t == [] {
      ChUnique('"', '"', x, y);
    } else if s == [] {
      EscapedFirst(t[0], Quoted(t[1..], y));
    } else if t == [] {
      EscapedFirst(s[0], Quoted(s[1..], x));
    } else {
      EscapedUnique(s[0], t[0], Quoted(s[1..], x), Quoted(t[1..], y));
      QuotedUnique(s[1..], t[1..], x, y);
      assert s == [s[0]] + s[1..] && t == [t[0]] + t[1..];
    }
  }

  /** What can follow a printed value: nothing, or a character that cannot extend a number. */
  predicate Delimited(x: string) {
    x == [] || !NumberChar(x[0])
  }

  lemma NumberUnique(s: string, t: string, x: string, y: string)
    requires forall c :: c in s ==> NumberChar(c)
    requires forall c :: c in t ==> NumberChar(c)
    requires Delimited(x) && Delimited(y) && s + x == t + y
    ensures s == t && x == y
  {
    var l := s + x;
    assert l == t + y;
    assert |s| < |l| ==> !NumberChar(l[|s|]);
    assert |t| < |l| ==> !NumberChar(l[|t|]);
    assert forall i :: 0 <= i < |s| ==> l[i] == s[i];
    assert forall i :: 0 <= i < |t| ==> l[i] == t[i];
    assert |s| == |t|;
    assert s == l[..|s|] && t == l[..|t|] && x == l[|s|..] && y == l[|t|..];
  }

  /** The first printed character tells which kind of value follows. */
  function Kind(c: char): nat {
    if c == 'n' then 0 else if c == 't' then 1 else if c == 'f' then 2 else if c == '"' then 3
    else if c == '[' then 4 else if c == '{' then 5 else if c == '-' || '0' <= c <= '9' then 6 else 7
  }

  function KindOf(v: Value): nat {
    match v
    case Null => 0
    case Bool(b) => if b then 1 else 2
    case String(_) => 3
    case Array(_) => 4
    case Object(_) => 5
    case Number(_) => 6
  }

  lemma FirstChar(v: Value, rest: string)
    requires Wf(v)
    ensures PrintTo(v, rest) != [] && Kind(PrintTo(v, rest)[0]) == KindOf(v)
  {
    if v.Number? {
      assert PrintTo(v, rest)[0] == v.text[0];
    }
  }

  lemma {:induction false} PrintUnique(a: Value, b: Value, x: string, y: string)
    requires Wf(a) && Wf(b) && Delimited(x) && Delimited(y)
    requires PrintTo(a, x) == PrintTo(b, y)
    ensures a == b && x == y
    decreases a, 1
  {
    FirstChar(a, x);
    FirstChar(b, y);
    match a {
      case Null => assert x == PrintTo(a, x)[4..] && y == PrintTo(b, y)[4..];
      case Bool(v) =>
        var n := if v then 4 else 5;
        assert x == PrintTo(a, x)[n..] && y == PrintTo(b, y)[n..];
      case Number(s) => NumberUnique(s, b.text, x, y);
      case String(s) =>
        ChUnique('"', '"', Quoted(s, x), Quoted(b.s, y));
        QuotedUnique(s, b.s, x, y);
      case Array(items) => ArrayUnique(items, b.items, x, y);
      case Object(entries) => ObjectUnique(entries, b.entries, x, y);
    }
  }

  lemma {:induction false} ArrayUnique(s: seq<Value>, t: seq<Value>, x: string, y: string)
    requires Wf(Array(s)) && Wf(Array(t)) && Delimited(x) && Delimited(y)
    requires PrintTo(Array(s), x) == PrintTo(Array(t), y)
    ensures s == t && x == y
    decreases Array(s), 0
  {
    if s == [] || t == [] {
      EmptyArray(s, t, x, y);
      ChUnique('[', '[', Ch(']', x), Ch(']', y));
      ChUnique(']', ']', x, y);
    } else {
      WfParts(s);
      WfParts(t);
      var x', y' := PrintItems(s[1..], x), PrintItems(t[1..], y);
      ChUnique('[', '[', PrintTo(s[0], x'), PrintTo(t[0], y'));
      PrintUnique(s[0], t[0], x', y');
      ItemsUnique(s[1..], t[1..], x, y);
      assert s == [s[0]] + s[1..] && t == [t[0]] + t[1..];
    }
  }

  lemma WfParts(s: seq<Value>)
    requires Wf(Array(s)) && s != []
    ensures Wf(s[0]) && Wf(Array(s[1..]))
  {
  }

  lemma EmptyArray(s: seq<Value>, t: seq<Value>, x: string, y: string)
    requires Wf(Array(s)) && Wf(Array(t)) && (s == [] || t == [])
    requires PrintTo(Array(s), x) == PrintTo(Array(t), y)
    ensures s == [] && t == []
  {
    if s != [] {
      FirstChar(s[0], PrintItems(s[1..], x));
    } else if t != [] {
      FirstChar(t[0], PrintItems(t[1..], y));
    }
  }

  lemma {:induction false} ItemsUnique(s: seq<Value>, t: seq<Value>, x: string, y: string)
    requires Wf(Array(s)) && Wf(Array(t)) && Delimited(x) && Delimited(y)
    requires PrintItems(s, x) == PrintItems(t, y)
    ensures s == t && x == y
    decreases s
  {
    assert s == [] <==> t == [];
    if s == [] {
      ChUnique(']', ']', x, y);
    } else {
      WfParts(s);
      WfParts(t);
      var x', y' := PrintItems(s[1..], x), PrintItems(t[1..], y);
      ChUnique(',', ',', PrintTo(s[0], x'), PrintTo(t[0], y'));
      PrintUnique(s[0], t[0], x', y');
      ItemsUnique(s[1..], t[1..], x, y);
      assert s == [s[0]] + s[1..] && t == [t[0]] + t[1..];
    }
  }

  lemma {:induction false} EntryUnique(e: Entry, f: Entry, x: string, y: string)
    requires Wf(e.value) && Wf(f.value) && Delimited(x) && Delimited(y)
    requires PrintEntry(e, x) == PrintEntry(f, y)
    ensures e == f && x == y
    decreases e
  {
    var x', y' := Ch(':', PrintTo(e.value, x)), Ch(':', PrintTo(f.value, y));
    ChUnique('"', '"', Quoted(e.key, x'), Quoted(f.key, y'));
    QuotedUnique(e.key, f.key, x', y');
    ChUnique(':', ':', PrintTo(e.value, x), PrintTo(f.value, y));
    PrintUnique(e.value, f.value, x, y);
  }

  lemma {:induction false} ObjectUnique(s: seq<Entry>, t: seq<Entry>, x: string, y: string)
    requires Wf(Object(s)) && Wf(Object(t)) && Delimited(x) && Delimited(y)
    requires PrintTo(Object(s), x) == PrintTo(Object(t), y)
    ensures s == t && x == y
    decreases Object(s), 0
  {
    var l := if s == [] then Ch('}', x) else PrintEntry(s[0], PrintEntries(s[1..], x));
    var r := if t == [] then Ch('}', y) else PrintEntry(t[0], PrintEntries(t[1..], y));
    ChUnique('{', '{', l, r);
    assert s == [] <==> t == [];
    if s == [] {
      ChUnique('}', '}', x, y);
    } else {
      EntryUnique(s[0], t[0], PrintEntries(s[1..], x), PrintEntries(t[1..], y));
      EntriesUnique(s[1..], t[1..], x, y);
      assert s == [s[0]] + s[1..] && t == [t[0]] + t[1..];
    }
  }

  lemma {:induction false} EntriesUnique(s: seq<Entry>, t: seq<Entry>, x: string, y: string)
    requires forall e :: e in s ==> Wf(e.value)
    requires forall e :: e in t ==> Wf(e.value)
    requires Delimited(x) && Delimited(y)
    requires PrintEntries(s, x) == PrintEntries(t, y)
    ensures s == t && x == y
    decreases s
  {
    assert s == [] <==> t == [];
    if s == [] {
      ChUnique('}', '}', x, y);
    } else {
      ChUnique(',', ',', PrintEntry(s[0], PrintEntries(s[1..], x)), PrintEntry(t[0], PrintEntries(t[1..], y)));
      EntryUnique(s[0], t[0], PrintEntries(s[1..], x), PrintEntries(t[1..], y));
      EntriesUnique(s[1..], t[1..], x, y);
      assert s == [s[0]] + s[1..] && t == [t[0]] + t[1..];
    }
  }

  /** `serde_json::to_string` never maps two values to one text. */
  lemma PrintInjective(a: Value, b: Value)
    requires Wf(a) && Wf(b) && Print(a) == Print(b)
    ensures a == b
  {
    PrintUnique(a, b, [], []);
  }
}
