/** What the two hash chains put under SHA-256, and what a hash therefore fixes. */
module Hashing {
  import opened Ledger
  import opened Text
  import opened Json

  /** SHA-256 printed in hexadecimal, as an unspecified function. */
  type Sha = string -> string

  ghost predicate CollisionFree(sha: Sha) {
    forall x, y :: sha(x) == sha(y) ==> x == y
  }

  /** As of hexadecimal digits. */
  ghost predicate WithoutSeparator(sha: Sha) {
    forall x :: '|' !in sha(x)
  }

  // Move hashes.

  /** The fields of an entry that its hash covers. */
  datatype MoveRecord = MoveRecord(id: Id, name: string, date: Date, journal: Id, lines: seq<Line>, previous: string)

  /** A line with its key, as a query lists it. */
  datatype KeyedLine = KeyedLine(key: LineId, line: Line)

  function Keyed(m: Id, lines: seq<Line>): seq<KeyedLine> {
    seq(|lines|, i requires 0 <= i < |lines| => KeyedLine(LineId(m, i), lines[i]))
  }

  function KeyText(l: LineId): string {
    Decimal(l.move) + ['.'] + Decimal(l.pos)
  }

  /** A field that is left out where it is empty. */
  function Optional(key: string, o: Option<Id>): seq<Field> {
    if o.None? then [] else [Field(key, Decimal(o.value))]
  }

  function LineFields(r: KeyedLine): seq<Field> {
    [Field("move_id", Decimal(r.key.move)), Field("account_id", Decimal(r.line.account)), Field("debit", Signed(r.line.debit)),
     Field("credit", Signed(r.line.credit)), Field("amount_currency", Signed(r.line.amountCurrency)),
     Field("currency_id", r.line.currency), Field("matching_number", r.line.matching), Field("date", Signed(r.line.date))]
    + (Optional("partner_id", r.line.partner) + Optional("cost_center_id", r.line.costCenter))
  }

  function LineText(r: KeyedLine): string {
    ObjectText(Field("id", KeyText(r.key)), LineFields(r))
  }

  function Mapped<T>(s: seq<T>, f: T -> string): seq<string> {
    if s == [] then [] else Mapped(s[..|s| - 1], f) + [f(s[|s| - 1])]
  }

  /** The JSON text under the hash of a move, from its lines in whatever order they were read. */
  function MoveText(r: MoveRecord, rows: seq<KeyedLine>): string {
    ObjectHead(r) + LinesText(rows) + Rest([Field("previous_hash", r.previous)])
  }

  function ObjectHead(r: MoveRecord): string {
    ['{'] + Member(Field("id", Decimal(r.id))) + ([','] + Member(Field("name", r.name)) + HeadEnd(r))
  }

  function HeadEnd(r: MoveRecord): string {
    [','] + Member(Field("date", Signed(r.date)))
      + ([','] + Member(Field("journal_id", Decimal(r.journal))) + ([','] + StringText("lines") + [':']))
  }

  function LinesText(rows: seq<KeyedLine>): string {
    ArrayText(Sort(Mapped(rows, LineText)))
  }

  function MoveHasher(sha: Sha): MoveRecord -> string {
    (r: MoveRecord) => sha(MoveText(r, Keyed(r.id, r.lines)))
  }

  /** A hash that fixes the header, the predecessor and every line of an entry. */
  ghost predicate Faithful(seal: MoveRecord -> string) {
    forall a, b :: seal(a) == seal(b) ==> a == b
  }

  // One line.

  lemma OptionalInjective(key: string, a: Option<Id>, b: Option<Id>)
    requires Optional(key, a) == Optional(key, b)
    ensures a == b
  {
    assert a.Some? ==> Optional(key, a)[0].value == Decimal(a.value);
    assert b.Some? ==> Optional(key, b)[0].value == Decimal(b.value);
    assert |Optional(key, a)| == |Optional(key, b)|;
    if a.Some? && b.Some? {
      PaddedInjective(a.value, b.value, 1);
    }
  }

  /** The keys tell a lone partner from a lone cost centre. */
  lemma OptionalsInjective(a: Line, b: Line)
    requires Optional("partner_id", a.partner) + Optional("cost_center_id", a.costCenter)
             == Optional("partner_id", b.partner) + Optional("cost_center_id", b.costCenter)
    ensures a.partner == b.partner && a.costCenter == b.costCenter
  {
    var p, q := Optional("partner_id", a.partner), Optional("partner_id", b.partner);
    var c, d := Optional("cost_center_id", a.costCenter), Optional("cost_center_id", b.costCenter);
    assert |p| > 0 ==> (p + c)[0] == p[0];
    assert |q| > 0 ==> (q + d)[0] == q[0];
    assert |p| == 0 && |c| > 0 ==> (p + c)[0] == c[0];
    assert |q| == 0 && |d| > 0 ==> (q + d)[0] == d[0];
    assert "partner_id"[0] != "cost_center_id"[0];
    assert |p| == |q|;
    PartsAgree(p, c, q, d);
    OptionalInjective("partner_id", a.partner, b.partner);
    OptionalInjective("cost_center_id", a.costCenter, b.costCenter);
  }

  lemma KeyTextInjective(a: LineId, b: LineId)
    requires KeyText(a) == KeyText(b)
    ensures a == b
  {
    SplitAtFirst(Decimal(a.move), Decimal(a.pos), Decimal(b.move), Decimal(b.pos), '.');
    PaddedInjective(a.move, b.move, 1);
    PaddedInjective(a.pos, b.pos, 1);
  }

  lemma LineFieldsInjective(a: KeyedLine, b: KeyedLine)
    requires LineFields(a) == LineFields(b)
    ensures a.line == b.line
  {
    var x, y := LineFields(a), LineFields(b);
    assert x[1] == y[1] && x[2] == y[2] && x[3] == y[3] && x[4] == y[4] && x[5] == y[5] && x[6] == y[6] && x[7] == y[7];
    assert x[8..] == Optional("partner_id", a.line.partner) + Optional("cost_center_id", a.line.costCenter);
    assert y[8..] == Optional("partner_id", b.line.partner) + Optional("cost_center_id", b.line.costCenter);
    PaddedInjective(a.line.account, b.line.account, 1);
    hide Decimal, Signed, Optional;
    OptionalsInjective(a.line, b.line);
    SignedInjective(a.line.debit, b.line.debit);
    SignedInjective(a.line.credit, b.line.credit);
    SignedInjective(a.line.amountCurrency, b.line.amountCurrency);
    SignedInjective(a.line.date, b.line.date);
  }

  /** Different lines have different texts. */
  lemma LineTextInjective(a: KeyedLine, b: KeyedLine)
    requires LineText(a) == LineText(b)
    ensures a == b
  {
    hide ObjectText, LineFields, KeyText;
    assert LineText(a) + [] == LineText(a) && LineText(b) + [] == LineText(b);
    ObjectEnds(Field("id", KeyText(a.key)), LineFields(a), Field("id", KeyText(b.key)), LineFields(b), [], []);
    KeyTextInjective(a.key, b.key);
    LineFieldsInjective(a, b);
  }

  // The lines of a move.

  lemma {:induction false} MappedConcat<T>(a: seq<T>, b: seq<T>, f: T -> string)
    ensures Mapped(a + b, f) == Mapped(a, f) + Mapped(b, f)
  {
    if b == [] {
      assert a + b == a;
    } else {
      var n := |b| - 1;
      assert (a + b)[..|a + b| - 1] == a + b[..n];
      MappedConcat(a, b[..n], f);
    }
  }

  function Without<T>(s: seq<T>, k: nat): seq<T>
    requires k < |s|
  {
    s[..k] + s[k + 1..]
  }

  lemma WithoutOne<T>(s: seq<T>, k: nat)
    requires k < |s|
    ensures s == s[..k] + ([s[k]] + s[k + 1..])
    ensures multiset(s) == multiset(Without(s, k)) + multiset{s[k]}
    ensures |Without(s, k)| == |s| - 1
  {
    assert s == s[..k] + ([s[k]] + s[k + 1..]);
  }

  lemma MappedWithout<T>(s: seq<T>, k: nat, f: T -> string)
    requires k < |s|
    ensures multiset(Mapped(s, f)) == multiset(Mapped(Without(s, k), f)) + multiset{f(s[k])}
  {
    WithoutOne(s, k);
    hide Mapped;
    MappedConcat(s[..k], [s[k]] + s[k + 1..], f);
    MappedConcat([s[k]], s[k + 1..], f);
    MappedConcat(s[..k], s[k + 1..], f);
    MappedOne(s[k], f);
    TakeOut(Mapped(s[..k], f), f(s[k]), Mapped(s[k + 1..], f));
  }

  lemma TakeOut<T>(a: seq<T>, x: T, b: seq<T>)
    ensures multiset(a + ([x] + b)) == multiset(a + b) + multiset{x}
  {
  }

  lemma MappedOne<T>(x: T, f: T -> string)
    ensures Mapped([x], f) == [f(x)]
  {
    assert [x][..0] == [];
  }

  lemma CancelOne<T>(a: multiset<T>, b: multiset<T>, x: T)
    requires a + multiset{x} == b + multiset{x}
    ensures a == b
  {
    assert (a + multiset{x}) - multiset{x} == a && (b + multiset{x}) - multiset{x} == b;
  }

  lemma PlaceOf<T>(x: T, b: seq<T>) returns (k: nat)
    requires x in multiset(b)
    ensures k < |b| && b[k] == x
  {
    k :| 0 <= k < |b| && b[k] == x;
  }

  /** Lists that agree up to order still do without the last element of one and an equal one of the other. */
  lemma WithoutLast<T>(a: seq<T>, b: seq<T>) returns (k: nat)
    requires a != [] && multiset(a) == multiset(b)
    ensures k < |b| && b[k] == a[|a| - 1] && multiset(Without(a, |a| - 1)) == multiset(Without(b, k))
    ensures |Without(a, |a| - 1)| == |a| - 1
  {
    hide Without;
    var n := |a| - 1;
    WithoutOne(a, n);
    k := PlaceOf(a[n], b);
    WithoutOne(b, k);
    CancelOne(multiset(Without(a, n)), multiset(Without(b, k)), a[n]);
  }

  lemma {:induction false} MappedSame<T>(a: seq<T>, b: seq<T>, f: T -> string)
    requires multiset(a) == multiset(b)
    ensures multiset(Mapped(a, f)) == multiset(Mapped(b, f))
    decreases |a|
  {
    hide Mapped, Without;
    if a == [] {
      assert |multiset(a)| == |b|;
      assert b == [];
    } else {
      var n := |a| - 1;
      var k := WithoutLast(a, b);
      MappedSame(Without(a, n), Without(b, k), f);
      MappedWithout(a, n, f);
      MappedWithout(b, k, f);
    }
  }

  /** The text does not depend on the order in which the lines were read. */
  lemma RowOrderForgotten(r: MoveRecord, rows: seq<KeyedLine>, others: seq<KeyedLine>)
    requires multiset(rows) == multiset(others)
    ensures MoveText(r, rows) == MoveText(r, others)
  {
    MappedSame(rows, others, LineText);
    SortCanonical(Mapped(rows, LineText), Mapped(others, LineText));
  }

  lemma {:induction false} MappedAt<T>(s: seq<T>, f: T -> string)
    ensures |Mapped(s, f)| == |s|
    ensures forall i :: 0 <= i < |s| ==> Mapped(s, f)[i] == f(s[i])
  {
    if s != [] {
      MappedAt(s[..|s| - 1], f);
    }
  }

  lemma SortedObjects(rows: seq<KeyedLine>)
    ensures AllObjects(Sort(Mapped(rows, LineText)))
    ensures forall t :: t in Sort(Mapped(rows, LineText)) <==> exists i :: 0 <= i < |rows| && t == LineText(rows[i])
    ensures |Sort(Mapped(rows, LineText))| == |rows|
  {
    hide LineText, Sort, Mapped;
    var texts := Mapped(rows, LineText);
    SortSorts(texts);
    MappedAt(rows, LineText);
    assert |Sort(texts)| == |multiset(Sort(texts))| == |multiset(texts)| == |texts|;
    forall t
      ensures t in Sort(texts) <==> exists i :: 0 <= i < |rows| && t == LineText(rows[i])
    {
      assert t in Sort(texts) <==> t in multiset(Sort(texts));
      assert t in texts <==> t in multiset(texts);
      assert t in texts <==> exists i :: 0 <= i < |texts| && t == texts[i];
    }
    forall i | 0 <= i < |Sort(texts)|
      ensures IsObject(Sort(texts)[i])
    {
      assert Sort(texts)[i] in Sort(texts);
      var k :| 0 <= k < |rows| && Sort(texts)[i] == LineText(rows[k]);
      LineTextIsObject(rows[k]);
    }
  }

  lemma LineTextIsObject(r: KeyedLine)
    ensures IsObject(LineText(r))
  {
    hide ObjectText, LineFields, KeyText;
  }

  /** Each line is found under its key, so lists with the same texts are the same list. */
  lemma SameTextsSameLines(m: Id, a: seq<Line>, b: seq<Line>)
    requires Sort(Mapped(Keyed(m, a), LineText)) == Sort(Mapped(Keyed(m, b), LineText))
    ensures a == b
  {
    hide LineText, Sort, Mapped;
    SortedObjects(Keyed(m, a));
    SortedObjects(Keyed(m, b));
    forall i | 0 <= i < |a|
      ensures a[i] == b[i]
    {
      var row := Keyed(m, a)[i];
      assert LineText(row) in Sort(Mapped(Keyed(m, b), LineText));
      var k :| 0 <= k < |Keyed(m, b)| && LineText(row) == LineText(Keyed(m, b)[k]);
      LineTextInjective(row, Keyed(m, b)[k]);
    }
  }

  // The move.

  lemma HeadEndEnds(a: MoveRecord, b: MoveRecord, x: string, y: string)
    requires HeadEnd(a) + x == HeadEnd(b) + y
    ensures a.date == b.date && a.journal == b.journal && x == y
  {
    hide Member, StringText;
    var last := [','] + StringText("lines") + [':'];
    var u := [','] + (Member(Field("journal_id", Decimal(a.journal))) + (last + x));
    var v := [','] + (Member(Field("journal_id", Decimal(b.journal))) + (last + y));
    assert HeadEnd(a) + x == [','] + (Member(Field("date", Signed(a.date))) + u);
    assert HeadEnd(b) + y == [','] + (Member(Field("date", Signed(b.date))) + v);
    NextMember(',', Field("date", Signed(a.date)), Field("date", Signed(b.date)), u, v);
    NextMember(',', Field("journal_id", Decimal(a.journal)), Field("journal_id", Decimal(b.journal)), last + x, last + y);
    PartsAgree(last, x, last, y);
    SignedInjective(a.date, b.date);
    PaddedInjective(a.journal, b.journal, 1);
  }

  lemma HeadEnds(a: MoveRecord, b: MoveRecord, x: string, y: string)
    requires ObjectHead(a) + x == ObjectHead(b) + y
    ensures a.id == b.id && a.name == b.name && a.date == b.date && a.journal == b.journal && x == y
  {
    hide Member, HeadEnd;
    var u, v := [','] + (Member(Field("name", a.name)) + (HeadEnd(a) + x)), [','] + (Member(Field("name", b.name)) + (HeadEnd(b) + y));
    assert ObjectHead(a) + x == ['{'] + (Member(Field("id", Decimal(a.id))) + u);
    assert ObjectHead(b) + y == ['{'] + (Member(Field("id", Decimal(b.id))) + v);
    NextMember('{', Field("id", Decimal(a.id)), Field("id", Decimal(b.id)), u, v);
    NextMember(',', Field("name", a.name), Field("name", b.name), HeadEnd(a) + x, HeadEnd(b) + y);
    HeadEndEnds(a, b, x, y);
    PaddedInjective(a.id, b.id, 1);
  }

  lemma NextMember(c: char, f: Field, g: Field, x: string, y: string)
    requires [c] + (Member(f) + x) == [c] + (Member(g) + y)
    ensures f == g && x == y
  {
    hide Member;
    PartsAgree([c], Member(f) + x, [c], Member(g) + y);
    MemberEnds(f, g, x, y);
  }

  lemma MoveTextDetermines(a: MoveRecord, b: MoveRecord)
    requires MoveText(a, Keyed(a.id, a.lines)) == MoveText(b, Keyed(b.id, b.lines))
    ensures a == b
  {
    hide ObjectHead, ArrayText, Rest, Sort, Mapped, Keyed;
    var p, q := Sort(Mapped(Keyed(a.id, a.lines), LineText)), Sort(Mapped(Keyed(b.id, b.lines), LineText));
    var u, v := Rest([Field("previous_hash", a.previous)]), Rest([Field("previous_hash", b.previous)]);
    assert MoveText(a, Keyed(a.id, a.lines)) == ObjectHead(a) + (ArrayText(p) + u);
    assert MoveText(b, Keyed(b.id, b.lines)) == ObjectHead(b) + (ArrayText(q) + v);
    HeadEnds(a, b, ArrayText(p) + u, ArrayText(q) + v);
    SortedObjects(Keyed(a.id, a.lines));
    SortedObjects(Keyed(b.id, b.lines));
    ArrayEnds(p, q, u, v);
    SameTextsSameLines(a.id, a.lines, b.lines);
    assert u + [] == u && v + [] == v;
    RestEnds([Field("previous_hash", a.previous)], [Field("previous_hash", b.previous)], [], []);
    assert [Field("previous_hash", a.previous)][0] == [Field("previous_hash", b.previous)][0];
  }

  /** hashMove fixes the header, the predecessor and every line. */
  lemma HashMoveFaithful(sha: Sha)
    requires CollisionFree(sha)
    ensures Faithful(MoveHasher(sha))
  {
    forall a, b | MoveHasher(sha)(a) == MoveHasher(sha)(b)
      ensures a == b
    {
      MoveTextDetermines(a, b);
    }
  }
}
