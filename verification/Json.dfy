/** The text of encoding/json for the payloads that are hashed, and why such a text can be read back. */
module Json {

  function Hex(d: nat): char
    requires d < 16
  {
    if d < 10 then '0' + d as char else 'a' + (d - 10) as char
  }

  function Hex4(n: nat): string
    requires n < 0x10000
  {
    [Hex(n / 0x1000), Hex(n / 0x100 % 0x10), Hex(n / 0x10 % 0x10), Hex(n % 0x10)]
  }

  /** Characters that are written as a backslash, u and four hexadecimal digits: controls, and what could end a script in HTML. */
  predicate IsUnsafe(c: char) {
    c < ' ' || c == '<' || c == '>' || c == '&' || c == '\U{2028}' || c == '\U{2029}'
  }

  function Escape(c: char): (s: string)
    ensures |s| >= 1 && s[0] != '"'
  {
    match c
    case '"' => "\\\""
    case '\\' => "\\\\"
    case '\n' => "\\n"
    case '\r' => "\\r"
    case '\t' => "\\t"
    case '\U{8}' => "\\b"
    case '\U{C}' => "\\f"
    case _ => if IsUnsafe(c) then "\\u" + Hex4(c as int) else [c]
  }

  function Escaped(s: string): string {
    if s == [] then "" else Escape(s[0]) + Escaped(s[1..])
  }

  function StringText(s: string): string {
    ['"'] + Escaped(s) + ['"']
  }

  datatype Field = Field(key: string, value: string)

  function Member(f: Field): string {
    StringText(f.key) + [':'] + StringText(f.value)
  }

  /** The members that follow earlier ones, and the end of the object. */
  function Rest(fields: seq<Field>): string {
    if fields == [] then ['}'] else [','] + Member(fields[0]) + Rest(fields[1..])
  }

  function ObjectText(first: Field, others: seq<Field>): string {
    ['{'] + Member(first) + Rest(others)
  }

  ghost predicate IsObject(t: string) {
    exists first, others :: t == ObjectText(first, others)
  }

  /** The items that follow earlier ones, and the end of the array. */
  function Tail(items: seq<string>): string {
    if items == [] then [']'] else [','] + items[0] + Tail(items[1..])
  }

  function ArrayText(items: seq<string>): string {
    ['['] + if items == [] then [']'] else items[0] + Tail(items[1..])
  }

  // Reading back: each text ends where its own syntax says, whatever follows it.

  lemma HexInjective(c: nat, d: nat)
    requires c < 16 && d < 16 && Hex(c) == Hex(d)
    ensures c == d
  {
  }

  lemma DigitsOf(n: nat)
    ensures n == 0x10 * (n / 0x10) + n % 0x10
    ensures n / 0x10 / 0x10 == n / 0x100 && n / 0x100 / 0x10 == n / 0x1000
  {
  }

  lemma Hex4Injective(a: nat, b: nat)
    requires a < 0x10000 && b < 0x10000 && Hex4(a) == Hex4(b)
    ensures a == b
  {
    hide Hex;
    assert Hex4(a)[0] == Hex4(b)[0] && Hex4(a)[1] == Hex4(b)[1] && Hex4(a)[2] == Hex4(b)[2] && Hex4(a)[3] == Hex4(b)[3];
    var p, q := a / 0x1000, b / 0x1000;
    HexInjective(p, q);
    HexInjective(a / 0x100 % 0x10, b / 0x100 % 0x10);
    HexInjective(a / 0x10 % 0x10, b / 0x10 % 0x10);
    HexInjective(a % 0x10, b % 0x10);
    DigitsOf(a);
    DigitsOf(b);
    DigitsOf(a / 0x10);
    DigitsOf(b / 0x10);
    DigitsOf(a / 0x100);
    DigitsOf(b / 0x100);
  }

  /** Concatenations of parts of one length agree part by part. */
  lemma PartsAgree<T>(a: seq<T>, x: seq<T>, b: seq<T>, y: seq<T>)
    requires a + x == b + y && |a| == |b|
    ensures a == b && x == y
  {
    assert a == (a + x)[..|a|] && b == (b + y)[..|a|];
    assert x == (a + x)[|a|..] && y == (b + y)[|a|..];
  }

  lemma EscapeLength(c: char, d: char, x: string, y: string)
    requires Escape(c) + x == Escape(d) + y
    ensures |Escape(c)| == |Escape(d)|
  {
    var s, t := Escape(c) + x, Escape(d) + y;
    assert s[0] == Escape(c)[0] && t[0] == Escape(d)[0];
    if |Escape(c)| > 1 && |Escape(d)| > 1 {
      assert s[1] == Escape(c)[1] && t[1] == Escape(d)[1];
    }
  }

  lemma EscapeInjective(c: char, d: char)
    requires Escape(c) == Escape(d)
    ensures c == d
  {
    if |Escape(c)| == 6 {
      assert Escape(c)[2..] == Hex4(c as int) && Escape(d)[2..] == Hex4(d as int);
      Hex4Injective(c as int, d as int);
    }
  }

  lemma EscapeEnds(c: char, d: char, x: string, y: string)
    requires Escape(c) + x == Escape(d) + y
    ensures c == d && x == y
  {
    hide Escape;
    EscapeLength(c, d, x, y);
    PartsAgree(Escape(c), x, Escape(d), y);
    EscapeInjective(c, d);
  }

  lemma {:induction false} EscapedEnds(s: string, t: string, x: string, y: string)
    requires Escaped(s) + ['"'] + x == Escaped(t) + ['"'] + y
    ensures s == t && x == y
  {
    hide Escape;
    var a, b := Escaped(s) + ['"'] + x, Escaped(t) + ['"'] + y;
    assert s != [] ==> a[0] == Escape(s[0])[0];
    assert t != [] ==> b[0] == Escape(t[0])[0];
    if s == [] || t == [] {
      assert a[1..] == x && b[1..] == y;
    } else {
      var u, v := Escaped(s[1..]) + ['"'] + x, Escaped(t[1..]) + ['"'] + y;
      assert a == Escape(s[0]) + u && b == Escape(t[0]) + v;
      EscapeEnds(s[0], t[0], u, v);
      EscapedEnds(s[1..], t[1..], x, y);
      assert s == [s[0]] + s[1..] && t == [t[0]] + t[1..];
    }
  }

  lemma StringEnds(s: string, t: string, x: string, y: string)
    requires StringText(s) + x == StringText(t) + y
    ensures s == t && x == y
  {
    hide Escaped;
    assert (StringText(s) + x)[1..] == Escaped(s) + ['"'] + x;
    assert (StringText(t) + y)[1..] == Escaped(t) + ['"'] + y;
    EscapedEnds(s, t, x, y);
  }

  lemma MemberEnds(f: Field, g: Field, x: string, y: string)
    requires Member(f) + x == Member(g) + y
    ensures f == g && x == y
  {
    hide StringText;
    assert Member(f) + x == StringText(f.key) + ([':'] + StringText(f.value) + x);
    assert Member(g) + y == StringText(g.key) + ([':'] + StringText(g.value) + y);
    StringEnds(f.key, g.key, [':'] + StringText(f.value) + x, [':'] + StringText(g.value) + y);
    assert ([':'] + StringText(f.value) + x)[1..] == StringText(f.value) + x;
    assert ([':'] + StringText(g.value) + y)[1..] == StringText(g.value) + y;
    StringEnds(f.value, g.value, x, y);
  }

  lemma {:induction false} RestEnds(fields: seq<Field>, others: seq<Field>, x: string, y: string)
    requires Rest(fields) + x == Rest(others) + y
    ensures fields == others && x == y
  {
    hide Member;
    var a, b := Rest(fields) + x, Rest(others) + y;
    if fields == [] || others == [] {
      assert a[0] == b[0];
      assert a[1..] == x && b[1..] == y;
    } else {
      assert a[1..] == Member(fields[0]) + (Rest(fields[1..]) + x);
      assert b[1..] == Member(others[0]) + (Rest(others[1..]) + y);
      MemberEnds(fields[0], others[0], Rest(fields[1..]) + x, Rest(others[1..]) + y);
      RestEnds(fields[1..], others[1..], x, y);
      assert fields == [fields[0]] + fields[1..] && others == [others[0]] + others[1..];
    }
  }

  lemma ObjectEnds(f: Field, fields: seq<Field>, g: Field, others: seq<Field>, x: string, y: string)
    requires ObjectText(f, fields) + x == ObjectText(g, others) + y
    ensures f == g && fields == others && x == y
  {
    hide Member, Rest;
    assert (ObjectText(f, fields) + x)[1..] == Member(f) + (Rest(fields) + x);
    assert (ObjectText(g, others) + y)[1..] == Member(g) + (Rest(others) + y);
    MemberEnds(f, g, Rest(fields) + x, Rest(others) + y);
    RestEnds(fields, others, x, y);
  }

  lemma ItemEnds(a: string, b: string, x: string, y: string)
    requires IsObject(a) && IsObject(b) && a + x == b + y
    ensures a == b && x == y
  {
    hide ObjectText;
    var f, fields :| a == ObjectText(f, fields);
    var g, others :| b == ObjectText(g, others);
    ObjectEnds(f, fields, g, others, x, y);
  }

  ghost predicate AllObjects(items: seq<string>) {
    forall i :: 0 <= i < |items| ==> IsObject(items[i])
  }

  lemma {:induction false} TailEnds(a: seq<string>, b: seq<string>, x: string, y: string)
    requires AllObjects(a) && AllObjects(b) && Tail(a) + x == Tail(b) + y
    ensures a == b && x == y
  {
    hide IsObject;
    var s, t := Tail(a) + x, Tail(b) + y;
    if a == [] || b == [] {
      assert s[0] == t[0];
      assert s[1..] == x && t[1..] == y;
    } else {
      assert s[1..] == a[0] + (Tail(a[1..]) + x) && t[1..] == b[0] + (Tail(b[1..]) + y);
      ItemEnds(a[0], b[0], Tail(a[1..]) + x, Tail(b[1..]) + y);
      TailEnds(a[1..], b[1..], x, y);
      assert a == [a[0]] + a[1..] && b == [b[0]] + b[1..];
    }
  }

  lemma ObjectOpens(t: string)
    requires IsObject(t)
    ensures |t| > 0 && t[0] == '{'
  {
  }

  lemma ArrayEnds(a: seq<string>, b: seq<string>, x: string, y: string)
    requires AllObjects(a) && AllObjects(b) && ArrayText(a) + x == ArrayText(b) + y
    ensures a == b && x == y
  {
    hide IsObject, Tail;
    var s, t := ArrayText(a) + x, ArrayText(b) + y;
    if a != [] {
      ObjectOpens(a[0]);
      assert s[1..] == a[0] + (Tail(a[1..]) + x);
    }
    if b != [] {
      ObjectOpens(b[0]);
      assert t[1..] == b[0] + (Tail(b[1..]) + y);
    }
    if a == [] || b == [] {
      assert s[1] == t[1];
      assert s[2..] == x && t[2..] == y;
    } else {
      ItemEnds(a[0], b[0], Tail(a[1..]) + x, Tail(b[1..]) + y);
      TailEnds(a[1..], b[1..], x, y);
      assert a == [a[0]] + a[1..] && b == [b[0]] + b[1..];
    }
  }
}
