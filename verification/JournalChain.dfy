/** The hash chain of a journal: what the hash of an entry fixes, and where the query by name loses entries. */
module JournalChain {
  import opened Ledger
  import opened Text
  import opened MoveNames
  import opened Hashing
  import opened AuditChain
  import opened Tables
  import opened Steps
  import opened Invariants
  import opened Allocations
  import opened PostingKeeps
  import opened OperationsKeep
  import opened Runs
  import opened StepEffects

  /** The posted names of a journal all carry one prefix. */
  ghost predicate OnePrefix(db: Db, j: Id, prefix: string) {
    forall m :: IsPosted(db, m) && db.moves[m].journal == j ==> db.moves[m].name == SequenceName(prefix, db.moves[m].number)
  }

  // Which numbers the query by name finds.

  lemma NumberOf(db: Db, j: Id, n: nat, m: Id)
    requires GapFree(db) && j in db.journals && IsBelow(db, j, n, m)
    ensures Numbered(db, j, db.moves[m].number, m) && 1 <= db.moves[m].number < n
  {
    assert WithinNumbers(db, m);
  }

  /** Under one prefix, entry k is found among the numbers up to its own exactly when k sorts last. If it is not found there, it
      is not found among any more numbers either. */
  lemma LinkCovers(db: Db, j: Id, prefix: string, k: nat, p: Id)
    requires GapFree(db) && OnePrefix(db, j, prefix) && Numbered(db, j, k, p)
    ensures IsNewestBelow(db, j, k + 1, p) <==> SortsLast(k)
    ensures !SortsLast(k) ==> forall n: nat :: !IsNewestBelow(db, j, n, p)
  {
    hide SequenceName, Before, GapFree, SortsLast;
    NewestByName(prefix, k);
    NumbersDistinct(db, j, k, k, p, p);
    if SortsLast(k) {
      forall q | IsBelow(db, j, k + 1, q) && q != p
        ensures Before(db.moves[q].name, db.moves[p].name)
      {
        NumberOf(db, j, k + 1, q);
        NumbersDistinct(db, j, db.moves[q].number, k, q, p);
      }
    } else {
      var i: nat :| 1 <= i < k && !Before(SequenceName(prefix, i), SequenceName(prefix, k));
      SmallerNumber(db, j, i, k, p);
      var q :| Numbered(db, j, i, q);
      NumbersDistinct(db, j, i, k, q, p);
    }
  }

  lemma SmallerNumber(db: Db, j: Id, i: nat, k: nat, p: Id)
    requires GapFree(db) && Numbered(db, j, k, p) && 1 <= i < k
    ensures HasNumber(db, j, i)
  {
    NumbersDistinct(db, j, k, k, p, p);
  }

  /** The query for the newest move of a journal finds the last number exactly when that number sorts last. */
  lemma NewestIsLastNumber(db: Db, j: Id, prefix: string, m: Id)
    requires GapFree(db) && SoundMoves(db) && OnePrefix(db, j, prefix) && j in db.journals && db.journals[j].next > 1
    requires Numbered(db, j, db.journals[j].next - 1, m)
    ensures IsNewest(db, j, m) <==> SortsLast(db.journals[j].next - 1)
  {
    hide GapFree, SoundMoves, OnePrefix, IsNewest, IsNewestBelow, SortsLast;
    LinkCovers(db, j, prefix, db.journals[j].next - 1, m);
    NewestIsBelowNext(db, j, m);
  }

  // What a hash fixes.

  ghost predicate SameEntry(db: Db, db': Db, m: Id, m': Id)
    requires m in db.moves && m' in db'.moves
  {
    var a, b := db.moves[m], db'.moves[m'];
    m == m' && a.name == b.name && a.date == b.date && a.journal == b.journal && a.lines == b.lines && a.hash == b.hash
  }

  ghost predicate NumberedAlike(db: Db, db': Db, j: Id, n: nat) {
    forall m, m' :: Numbered(db, j, n, m) && Numbered(db', j, n, m') ==> SameEntry(db, db', m, m')
  }

  /** The hash below a number that sorts last is the hash of the number before. */
  lemma LinkedToPredecessor(db: Db, j: Id, prefix: string, n: nat, p: Id)
    requires GapFree(db) && OnePrefix(db, j, prefix) && Numbered(db, j, n, p) && SortsLast(n)
    ensures HashBelow(db, j, n + 1) == db.moves[p].hash
  {
    hide GapFree, OnePrefix, IsNewestBelow, HashBelow, SortsLast;
    LinkCovers(db, j, prefix, n, p);
    HashBelowIs(db, j, n + 1, p);
  }

  lemma SealedAlike(h: Hashers, db: Db, db': Db, m: Id, m': Id)
    requires Faithful(h.seal) && Chained(h, db) && Chained(h, db') && IsPosted(db, m) && IsPosted(db', m')
    requires db.moves[m].hash == db'.moves[m'].hash
    ensures SameEntry(db, db', m, m')
    ensures HashBelow(db, db.moves[m].journal, db.moves[m].number) == HashBelow(db', db'.moves[m'].journal, db'.moves[m'].number)
  {
    hide HashBelow;
    assert ChainedAt(h, db, m) && ChainedAt(h, db', m');
    var a := RecordOf(m, db.moves[m], HashBelow(db, db.moves[m].journal, db.moves[m].number));
    var b := RecordOf(m', db'.moves[m'], HashBelow(db', db'.moves[m'].journal, db'.moves[m'].number));
    assert h.seal(a) == h.seal(b);
    assert a == b;
  }

  /** With a hash that has no collisions, the hash of number n fixes the entries 1 .. n of the journal, for the first hundred
      thousand numbers under one prefix. */
  lemma {:induction false} HashFixesJournal(h: Hashers, db: Db, db': Db, j: Id, prefix: string, prefix': string, n: nat, m: Id, m': Id)
    requires Faithful(h.seal) && Inv(h, db) && Inv(h, db') && OnePrefix(db, j, prefix) && OnePrefix(db', j, prefix')
    requires 1 <= n <= 100000 && Numbered(db, j, n, m) && Numbered(db', j, n, m') && db.moves[m].hash == db'.moves[m'].hash
    ensures forall k :: 1 <= k <= n ==> NumberedAlike(db, db', j, k)
    decreases n
  {
    hide Faithful, GapFree, Chained, SoundMoves, SoundReversals, SoundEvents, SoundAudit, SoundYears, SoundAllocations, SameEntry,
      OnePrefix, HashBelow;
    SealedAlike(h, db, db', m, m');
    forall a, a' | Numbered(db, j, n, a) && Numbered(db', j, n, a')
      ensures SameEntry(db, db', a, a')
    {
      NumbersDistinct(db, j, n, n, m, a);
      NumbersDistinct(db', j, n, n, m', a');
    }
    if n > 1 {
      SmallerNumber(db, j, n - 1, n, m);
      SmallerNumber(db', j, n - 1, n, m');
      var p :| Numbered(db, j, n - 1, p);
      var p' :| Numbered(db', j, n - 1, p');
      LinkedToPredecessor(db, j, prefix, n - 1, p);
      LinkedToPredecessor(db', j, prefix', n - 1, p');
      HashFixesJournal(h, db, db', j, prefix, prefix', n - 1, p, p');
    }
  }

  // What a hash does not fix.

  /** The entry with other lines on another date, sealed anew over the same predecessor. */
  ghost function Rewritten(h: Hashers, db: Db, p: Id, date: Date, lines: seq<Line>): Move
    requires p in db.moves
  {
    var row := db.moves[p].(date := date, lines := lines);
    row.(hash := h.seal(RecordOf(p, row, HashBelow(db, row.journal, row.number))))
  }

  ghost function WithRewritten(h: Hashers, db: Db, p: Id, date: Date, lines: seq<Line>): Db
    requires p in db.moves
  {
    db.(moves := db.moves[p := Rewritten(h, db, p, date, lines)])
  }

  /** Rewriting changes no name, so the query by name finds the same rows. */
  lemma SameNewestBelow(h: Hashers, db: Db, p: Id, date: Date, lines: seq<Line>, j: Id, n: nat, q: Id)
    requires IsPosted(db, p)
    ensures IsNewestBelow(db, j, n, q) <==> IsNewestBelow(WithRewritten(h, db, p, date, lines), j, n, q)
  {
    hide Before, Rewritten;
    RewrittenHeader(h, db, p, date, lines);
    var after := WithRewritten(h, db, p, date, lines);
    assert forall k :: IsBelow(db, j, n, k) <==> IsBelow(after, j, n, k);
    assert forall k :: IsBelow(db, j, n, k) ==> k in after.moves && after.moves[k].name == db.moves[k].name;
  }

  lemma SameHashBelow(h: Hashers, db: Db, p: Id, date: Date, lines: seq<Line>, j: Id, n: nat)
    requires IsPosted(db, p) && !IsNewestBelow(db, j, n, p)
    ensures HashBelow(WithRewritten(h, db, p, date, lines), j, n) == HashBelow(db, j, n)
  {
    hide IsNewestBelow, Rewritten;
    var after := WithRewritten(h, db, p, date, lines);
    forall q
      ensures IsNewestBelow(db, j, n, q) <==> IsNewestBelow(after, j, n, q)
    {
      SameNewestBelow(h, db, p, date, lines, j, n, q);
    }
    if q :| IsNewestBelow(db, j, n, q) {
      HashBelowIs(db, j, n, q);
      HashBelowIs(after, j, n, q);
      assert IsBelow(db, j, n, q) by { NewestIsBelow(db, j, n, q); }
    }
  }

  lemma NewestIsBelow(db: Db, j: Id, n: nat, q: Id)
    requires IsNewestBelow(db, j, n, q)
    ensures IsBelow(db, j, n, q)
  {
  }

  lemma RewrittenHeader(h: Hashers, db: Db, p: Id, date: Date, lines: seq<Line>)
    requires p in db.moves
    ensures var row := Rewritten(h, db, p, date, lines);
            row.name == db.moves[p].name && row.number == db.moves[p].number && row.journal == db.moves[p].journal
            && row.state == db.moves[p].state && row.date == date && row.lines == lines
  {
  }

  /** No other entry is sealed over the hash of p. */
  ghost predicate Uncovered(db: Db, p: Id) {
    forall m :: m in db.moves && IsPosted(db, m) ==> !IsNewestBelow(db, db.moves[m].journal, db.moves[m].number, p)
  }

  lemma UncoveredRewrite(h: Hashers, db: Db, p: Id, date: Date, lines: seq<Line>)
    requires Chained(h, db) && IsPosted(db, p) && Uncovered(db, p)
    ensures Chained(h, WithRewritten(h, db, p, date, lines))
  {
    hide IsNewestBelow, HashBelow, Rewritten;
    RewrittenHeader(h, db, p, date, lines);
    var after := WithRewritten(h, db, p, date, lines);
    forall m | m in after.moves && IsPosted(after, m)
      ensures ChainedAt(h, after, m)
    {
      assert IsPosted(db, m) && ChainedAt(h, db, m);
      SameHashBelow(h, db, p, date, lines, db.moves[m].journal, db.moves[m].number);
      if m == p {
        RewrittenSeal(h, db, p, date, lines);
      }
    }
  }

  lemma UncoveredIf(db: Db, j: Id, prefix: string, k: nat, p: Id)
    requires GapFree(db) && OnePrefix(db, j, prefix) && Numbered(db, j, k, p)
    requires !SortsLast(k) || k + 1 == db.journals[j].next
    ensures Uncovered(db, p)
  {
    hide OnePrefix, SortsLast, GapFree;
    LinkCovers(db, j, prefix, k, p);
    forall m | m in db.moves && IsPosted(db, m)
      ensures !IsNewestBelow(db, db.moves[m].journal, db.moves[m].number, p)
    {
      if IsBelow(db, db.moves[m].journal, db.moves[m].number, p) {
        PostedWithinNumbers(db, m);
      }
    }
  }

  lemma PostedWithinNumbers(db: Db, m: Id)
    requires GapFree(db) && IsPosted(db, m)
    ensures WithinNumbers(db, m)
  {
  }

  lemma CoveredRewrite(h: Hashers, db: Db, p: Id, date: Date, lines: seq<Line>, s: Id)
    requires Faithful(h.seal) && Chained(h, db) && IsPosted(db, p) && IsPosted(db, s) && s != p
    requires IsNewestBelow(db, db.moves[s].journal, db.moves[s].number, p)
    requires date != db.moves[p].date || lines != db.moves[p].lines
    ensures !Chained(h, WithRewritten(h, db, p, date, lines))
  {
    hide IsNewestBelow, HashBelow, Rewritten;
    var after := WithRewritten(h, db, p, date, lines);
    var j, n := db.moves[s].journal, db.moves[s].number;
    SameNewestBelow(h, db, p, date, lines, j, n, p);
    HashBelowIs(db, j, n, p);
    HashBelowIs(after, j, n, p);
    assert ChainedAt(h, db, s) && ChainedAt(h, db, p);
    RewrittenHeader(h, db, p, date, lines);
    RewrittenSeal(h, db, p, date, lines);
    assert db.moves[p].hash != after.moves[p].hash;
    assert RecordOf(s, db.moves[s], db.moves[p].hash) != RecordOf(s, db.moves[s], after.moves[p].hash);
    assert !ChainedAt(h, after, s);
  }

  /** An entry that is rewritten and sealed anew breaks a link of the ledger exactly when its number sorts last and is not the last
      number of its journal: from 100000 on nearly every entry can be rewritten unnoticed. */
  lemma RewriteDetected(h: Hashers, db: Db, j: Id, prefix: string, k: nat, p: Id, date: Date, lines: seq<Line>)
    requires Faithful(h.seal) && Inv(h, db) && OnePrefix(db, j, prefix) && Numbered(db, j, k, p)
    requires date != db.moves[p].date || lines != db.moves[p].lines
    ensures Chained(h, WithRewritten(h, db, p, date, lines)) <==> !SortsLast(k) || k + 1 == db.journals[j].next
  {
    hide GapFree, Chained, SoundMoves, SoundReversals, SoundEvents, SoundAudit, SoundYears, SoundAllocations, OnePrefix, IsNewestBelow,
      Uncovered, WithRewritten, SortsLast;
    if !SortsLast(k) || k + 1 == db.journals[j].next {
      UncoveredIf(db, j, prefix, k, p);
      UncoveredRewrite(h, db, p, date, lines);
    } else {
      LinkCovers(db, j, prefix, k, p);
      NumbersDistinct(db, j, k, k, p, p);
      HasNext(db, j, k);
      var s :| Numbered(db, j, k + 1, s);
      CoveredRewrite(h, db, p, date, lines, s);
    }
  }

  lemma HasNext(db: Db, j: Id, k: nat)
    requires GapFree(db) && j in db.journals && k + 1 < db.journals[j].next
    ensures HasNumber(db, j, k + 1)
  {
  }

  lemma RewrittenSeal(h: Hashers, db: Db, p: Id, date: Date, lines: seq<Line>)
    requires p in db.moves
    ensures var row := Rewritten(h, db, p, date, lines); row.hash == h.seal(RecordOf(p, row, HashBelow(db, row.journal, row.number)))
  {
  }

  // Where the chain breaks.

  /** Of the numbers up to 999989 the name of 99999 sorts last. */
  lemma SmallerName(prefix: string, n: nat)
    requires n < 999990 && n != 99999
    ensures Before(SequenceName(prefix, n), SequenceName(prefix, 99999))
  {
    hide PadTo, Before;
    BeforeSamePrefix(prefix, PadTo(n, 5), PadTo(99999, 5));
    FiveDigits(n);
    FiveDigits(99999);
    if n < 99999 {
      PaddedSameLength(n, 99999, 5);
    } else {
      FiveDigits(n / 10);
      ShorterName(99999, n);
      PaddedSameLength(99999, n / 10, 5);
      BeforeIsTotal(PadTo(n, 5), PadTo(99999, 5));
    }
  }

  lemma HashAfter99999(db: Db, j: Id, prefix: string, p: Id, n: nat)
    requires GapFree(db) && OnePrefix(db, j, prefix) && Numbered(db, j, 99999, p) && 100000 <= n <= 999990
    ensures HashBelow(db, j, n) == db.moves[p].hash
  {
    hide SequenceName, Before, GapFree, HashBelow;
    forall k | IsBelow(db, j, n, k) && k != p
      ensures Before(db.moves[k].name, db.moves[p].name)
    {
      NumberOf(db, j, n, k);
      NumbersDistinct(db, j, db.moves[k].number, 99999, k, p);
      SmallerName(prefix, db.moves[k].number);
    }
    HashBelowIs(db, j, n, p);
  }

  /** All numbers from 100000 to 999990 are sealed over the hash of number 99999. */
  lemma ChainBreaksAfter99999(h: Hashers, db: Db, j: Id, prefix: string, p: Id, n: nat, m: Id)
    requires Inv(h, db) && OnePrefix(db, j, prefix) && Numbered(db, j, 99999, p)
    requires 100000 <= n <= 999990 && Numbered(db, j, n, m)
    ensures db.moves[m].hash == h.seal(RecordOf(m, db.moves[m], db.moves[p].hash))
  {
    hide GapFree, SoundMoves, SoundReversals, SoundEvents, SoundAudit, SoundYears, SoundAllocations, HashBelow, OnePrefix;
    HashAfter99999(db, j, prefix, p, n);
    assert ChainedAt(h, db, m);
  }

  /** What an ingestion brings. */
  datatype Ingested = Ingested(key: string, id: Id, period: Id, date: Date, now: nat, lines: seq<Line>)

  ghost function IngestInto(h: Hashers, db: Db, j: Id, x: Ingested): Result<Db> {
    PostEvent(h, db, x.key, x.id, j, x.period, x.date, x.now, x.lines)
  }

  /** The one row that an ingestion posts. */
  ghost predicate Ingests(h: Hashers, db: Db, j: Id, x: Ingested, after: Db) {
    && j in db.journals && j in after.journals && after.journals[j] == db.journals[j].(next := db.journals[j].next + 1)
    && x.id !in db.moves && x.id in after.moves && after.moves == db.moves[x.id := after.moves[x.id]]
    && var row := after.moves[x.id];
    && row.state == Posted && row.journal == j && row.number == db.journals[j].next && row.lines == Redated(x.lines, x.date)
    && row.name == SequenceName(db.journals[j].prefix, row.number)
    && row.hash == h.seal(MoveRecord(x.id, row.name, x.date, j, row.lines, PreviousHash(db, j)))
  }

  lemma IngestPosts(h: Hashers, db: Db, j: Id, x: Ingested, after: Db)
    requires IngestInto(h, db, j, x) == Ok(after)
    ensures Ingests(h, db, j, x, after)
  {
    hide PreviousHash, NameTaken, ReferencesHold, SequenceName, Redated, Balanced, Appended;
  }

  lemma IngestKeepsPrefix(h: Hashers, db: Db, j: Id, x: Ingested, after: Db)
    requires Ingests(h, db, j, x, after) && OnePrefix(db, j, db.journals[j].prefix)
    ensures OnePrefix(after, j, db.journals[j].prefix)
  {
    hide PreviousHash, SequenceName, Redated;
  }

  lemma IngestsKeep(h: Hashers, db: Db, j: Id, x: Ingested, after: Db)
    requires Inv(h, db) && IngestInto(h, db, j, x) == Ok(after)
    ensures Inv(h, after)
  {
    PostEventKeeps(h, db, x.key, x.id, j, x.period, x.date, x.now, x.lines);
  }

  lemma PreviousAfter99999(h: Hashers, db: Db, j: Id, prefix: string, p: Id)
    requires Inv(h, db) && OnePrefix(db, j, prefix) && Numbered(db, j, 99999, p)
    requires j in db.journals && 100000 <= db.journals[j].next <= 999990
    ensures PreviousHash(db, j) == db.moves[p].hash
  {
    hide GapFree, SoundMoves, SoundReversals, SoundEvents, SoundAudit, SoundYears, SoundAllocations, Chained, OnePrefix, PreviousHash,
      HashBelow;
    PreviousIsHashBelow(db, j);
    HashAfter99999(db, j, prefix, p, db.journals[j].next);
  }

  /** From number 100000 on, a second ingestion is sealed over number 99999 whatever the first one posted. */
  lemma SecondOverSame(h: Hashers, db: Db, j: Id, p: Id, x: Ingested, a: Db, z: Ingested, after: Db)
    requires Inv(h, db) && j in db.journals && 100000 <= db.journals[j].next < 999990
    requires OnePrefix(db, j, db.journals[j].prefix) && Numbered(db, j, 99999, p)
    requires IngestInto(h, db, j, x) == Ok(a) && IngestInto(h, a, j, z) == Ok(after)
    ensures Inv(h, after)
    ensures Numbered(after, j, db.journals[j].next, x.id) && after.moves[x.id].lines == Redated(x.lines, x.date)
    ensures Numbered(after, j, db.journals[j].next + 1, z.id)
    ensures after.moves[z.id].hash == h.seal(MoveRecord(z.id, SequenceName(db.journals[j].prefix, db.journals[j].next + 1), z.date, j,
                                                        Redated(z.lines, z.date), db.moves[p].hash))
  {
    hide Inv, IngestInto, SequenceName, Redated, OnePrefix, PreviousHash;
    IngestsKeep(h, db, j, x, a);
    IngestsKeep(h, a, j, z, after);
    IngestPosts(h, db, j, x, a);
    IngestPosts(h, a, j, z, after);
    IngestKeepsPrefix(h, db, j, x, a);
    PreviousAfter99999(h, a, j, db.journals[j].prefix, p);
  }

  /** Beyond the first hundred thousand numbers a hash no longer fixes the journal: post two different events as number n, and the same
      event as number n + 1 after either. The hashes of number n + 1 are equal, the entries numbered n are not. */
  lemma SameHashOverDifferentEntries(h: Hashers, db: Db, j: Id, x: Ingested, a: Db, y: Ingested, b: Db, z: Ingested, afterA: Db, afterB: Db)
    requires Inv(h, db) && j in db.journals && 100000 <= db.journals[j].next < 999990 && OnePrefix(db, j, db.journals[j].prefix)
    requires IngestInto(h, db, j, x) == Ok(a) && IngestInto(h, a, j, z) == Ok(afterA)
    requires IngestInto(h, db, j, y) == Ok(b) && IngestInto(h, b, j, z) == Ok(afterB)
    requires x.id != y.id || Redated(x.lines, x.date) != Redated(y.lines, y.date)
    ensures Inv(h, afterA) && Inv(h, afterB)
    ensures Numbered(afterA, j, db.journals[j].next + 1, z.id) && Numbered(afterB, j, db.journals[j].next + 1, z.id)
    ensures afterA.moves[z.id].hash == afterB.moves[z.id].hash
    ensures !NumberedAlike(afterA, afterB, j, db.journals[j].next)
  {
    hide Inv, IngestInto, OnePrefix, Redated, SequenceName;
    var p := Number99999(h, db, j);
    SecondOverSame(h, db, j, p, x, a, z, afterA);
    SecondOverSame(h, db, j, p, y, b, z, afterB);
    assert !SameEntry(afterA, afterB, x.id, y.id);
  }

  lemma Number99999(h: Hashers, db: Db, j: Id) returns (p: Id)
    requires Inv(h, db) && j in db.journals && db.journals[j].next >= 100000
    ensures Numbered(db, j, 99999, p)
  {
    assert HasNumber(db, j, 99999);
    p :| Numbered(db, j, 99999, p);
  }

  // A change of prefix.

  /** Whatever names a journal holds, a new entry is found as its newest exactly when its name sorts after the newest name. */
  lemma NewestAfterPosting(h: Hashers, db: Db, id: Id, e: Entry, after: Db, m: Id)
    requires PostRow(h, db, id, e) == Ok(after) && (id in db.moves ==> db.moves[id].state == Draft)
    requires IsNewest(db, e.journal, m)
    ensures m in after.moves && after.moves[m] == db.moves[m] && id in after.moves
    ensures IsNewest(after, e.journal, id) <==> Before(db.moves[m].name, after.moves[id].name)
  {
    hide Before, PreviousHash, NameTaken, ReferencesHold, SequenceName;
    if Before(db.moves[m].name, after.moves[id].name) {
      forall k | k in after.moves && InJournal(after, e.journal, k) && k != id
        ensures Before(after.moves[k].name, after.moves[id].name)
      {
        if k != m {
          BeforeIsTransitive(db.moves[k].name, db.moves[m].name, after.moves[id].name);
        }
      }
    }
  }

  /** Every name under the prefix sorts before this name. */
  predicate SortsBefore(prefix: string, name: string) {
    prefix != [] && name != [] && prefix[0] < name[0]
  }

  lemma NameSortsBefore(prefix: string, n: nat, name: string)
    requires SortsBefore(prefix, name)
    ensures Before(SequenceName(prefix, n), name)
  {
    assert SequenceName(prefix, n)[0] == prefix[0];
  }

  /** An entry stays the newest if all that is posted beside it has names that sort before it. */
  lemma NewestStays(db: Db, after: Db, j: Id, m: Id)
    requires IsNewest(db, j, m) && SoundMoves(after)
    requires forall k :: IsPosted(db, k) ==> IsPosted(after, k) && after.moves[k] == db.moves[k]
    requires IsPosted(db, m) && PostsNamed(db, after) && j in db.journals && SortsBefore(db.journals[j].prefix, db.moves[m].name)
    ensures IsNewest(after, j, m)
  {
    hide Before, SequenceName, SortsBefore;
    forall k | k in after.moves && InJournal(after, j, k) && k != m
      ensures Before(after.moves[k].name, after.moves[m].name)
    {
      assert SoundMove(after, k);
      if !IsPosted(db, k) {
        assert NewlyPosted(db, after, k) && NamedFrom(db, after.moves[k]);
        NameSortsBefore(db.journals[j].prefix, after.moves[k].number, db.moves[m].name);
      }
    }
  }

  lemma NewestIsPosted(db: Db, j: Id, m: Id)
    requires IsNewest(db, j, m) && SoundMoves(db)
    ensures IsPosted(db, m)
  {
    assert SoundMove(db, m);
  }

  lemma UpdateKeepsNewest(db: Db, j: Id, prefix: string, active: bool, changed: Db, m: Id)
    requires UpdateJournal(db, j, prefix, active) == Ok(changed) && IsNewest(db, j, m)
    ensures IsNewest(changed, j, m) && changed.moves == db.moves && j in changed.journals && changed.journals[j].prefix == prefix
  {
  }

  lemma IngestUnderNewest(h: Hashers, db: Db, j: Id, m: Id, x: Ingested, after: Db)
    requires SoundMoves(db) && SoundMoves(after) && IsNewest(db, j, m) && Ingests(h, db, j, x, after)
    requires SortsBefore(db.journals[j].prefix, db.moves[m].name)
    ensures m != x.id && m in after.moves && after.moves[m] == db.moves[m]
    ensures PreviousHash(db, j) == db.moves[m].hash
    ensures !IsNewest(after, j, x.id) && IsNewest(after, j, m) && PreviousHash(after, j) == db.moves[m].hash
  {
    NewestIsPosted(db, j, m);
    IngestNamed(h, db, j, x, after);
    hide IsNewest, PreviousHash, SortsBefore, SequenceName, Redated, SoundMoves, PostsNamed;
    PreviousHashIs(db, j, m);
    NewestStays(db, after, j, m);
    PreviousHashIs(after, j, m);
    if IsNewest(after, j, x.id) {
      NewestUnique(after, j, m, x.id);
      assert false;
    }
  }

  /** A journal that has posted may get another prefix. If names under it sort before the newest name, the next entry is sealed over
      that newest entry and is then not found itself: the entry after it is sealed over the same old entry. */
  lemma PrefixChangeHidesNewest(h: Hashers, db: Db, j: Id, prefix: string, active: bool, changed: Db, m: Id, x: Ingested, after: Db)
    requires Inv(h, db) && IsNewest(db, j, m) && UpdateJournal(db, j, prefix, active) == Ok(changed)
    requires SortsBefore(prefix, db.moves[m].name) && IngestInto(h, changed, j, x) == Ok(after)
    ensures Inv(h, changed) && Inv(h, after) && x.id in after.moves && m != x.id && m in after.moves
    ensures after.moves[x.id].hash == h.seal(RecordOf(x.id, after.moves[x.id], db.moves[m].hash))
    ensures !IsNewest(after, j, x.id) && PreviousHash(after, j) == after.moves[m].hash == db.moves[m].hash
  {
    UpdateKeepsNewest(db, j, prefix, active, changed, m);
    UpdateJournalKeeps(h, db, j, prefix, active, changed);
    hide UpdateJournal, IngestInto, IsNewest, PreviousHash, SortsBefore, SequenceName, Redated, Inv, SoundMoves;
    IngestsKeep(h, changed, j, x, after);
    MovesSound(h, changed);
    MovesSound(h, after);
    IngestPosts(h, changed, j, x, after);
    IngestUnderNewest(h, changed, j, m, x, after);
    RedatedSame(h, changed, j, x, after);
  }

  lemma MovesSound(h: Hashers, db: Db)
    requires Inv(h, db)
    ensures SoundMoves(db)
  {
  }

  lemma IngestNamed(h: Hashers, db: Db, j: Id, x: Ingested, after: Db)
    requires Ingests(h, db, j, x, after)
    ensures PostsNamed(db, after)
  {
    hide SequenceName, PreviousHash, Redated;
  }

  lemma RedatedSame(h: Hashers, db: Db, j: Id, x: Ingested, after: Db)
    requires Ingests(h, db, j, x, after) && IngestInto(h, db, j, x) == Ok(after)
    ensures after.moves[x.id].hash == h.seal(RecordOf(x.id, after.moves[x.id], PreviousHash(db, j)))
  {
    hide SequenceName, PreviousHash, Redated, NameTaken, ReferencesHold, Balanced, Appended;
  }

  // Over runs.

  lemma StepPosts(h: Hashers, states: seq<Db>, ops: seq<Op>, i: nat)
    requires Run(h, states, ops) && i < |ops|
    ensures PostsNamed(states[i], states[i + 1]) && Inv(h, states[i]) && Inv(h, states[i + 1]) && Extends(states[i], states[i + 1])
  {
    hide Inv, Extends, Apply, Legal, PostsNamed;
    RunKeeps(h, states, ops, i, i + 1);
    assert Legal(states[i], ops[i]) && states[i + 1] == Step(h, states[i], ops[i]);
    var r := Apply(h, states[i], ops[i]);
    if r.Ok? {
      StepHasEffects(h, states[i], ops[i], r.value);
    } else {
      SameMovesEffects(states[i], states[i]);
    }
  }

  /** As long as a journal keeps its prefix, all its names carry it. */
  lemma {:induction false} OnePrefixOverRun(h: Hashers, states: seq<Db>, ops: seq<Op>, i: nat, j: Id, prefix: string)
    requires Run(h, states, ops) && i < |states|
    requires forall n :: 0 <= n <= i && j in states[n].journals ==> states[n].journals[j].prefix == prefix
    ensures OnePrefix(states[i], j, prefix)
  {
    hide Inv, Run, SequenceName;
    if i == 0 {
      assert states[0] == EMPTY by { RunStarts(h, states, ops); }
    } else {
      OnePrefixOverRun(h, states, ops, i - 1, j, prefix);
      StepPosts(h, states, ops, i - 1) by { RunLength(h, states, ops); }
      var db, after := states[i - 1], states[i];
      forall m | IsPosted(after, m) && after.moves[m].journal == j
        ensures after.moves[m].name == SequenceName(prefix, after.moves[m].number)
      {
        if IsPosted(db, m) {
          assert after.moves[m] == db.moves[m];
        } else {
          assert NewlyPosted(db, after, m) && NamedFrom(db, after.moves[m]);
        }
      }
    }
  }

  lemma RunStarts(h: Hashers, states: seq<Db>, ops: seq<Op>)
    requires Run(h, states, ops)
    ensures states[0] == EMPTY
  {
  }

  lemma RunLength(h: Hashers, states: seq<Db>, ops: seq<Op>)
    requires Run(h, states, ops)
    ensures |states| == |ops| + 1
  {
  }

  /** As long as names under the prefix of a journal sort before the name of its newest entry, that entry stays the newest: everything
      posted in the journal from then on is sealed over the same hash, and over nothing posted in between. */
  lemma {:induction false} PrefixFreezesLink(h: Hashers, states: seq<Db>, ops: seq<Op>, i: nat, k: nat, j: Id, m: Id)
    requires Run(h, states, ops) && i <= k < |states| && IsNewest(states[i], j, m)
    requires forall n :: i <= n <= k ==> j in states[n].journals && SortsBefore(states[n].journals[j].prefix, states[i].moves[m].name)
    ensures m in states[k].moves && states[k].moves[m] == states[i].moves[m]
    ensures IsNewest(states[k], j, m) && PreviousHash(states[k], j) == states[i].moves[m].hash
    decreases k
  {
    hide Inv, Run, IsNewest, PreviousHash, SortsBefore, PostsNamed;
    if i < k {
      PrefixFreezesLink(h, states, ops, i, k - 1, j, m);
      StepPosts(h, states, ops, k - 1) by { RunLength(h, states, ops); }
      NewestIsPosted(states[k - 1], j, m) by { MovesSound(h, states[k - 1]); }
      NewestStays(states[k - 1], states[k], j, m) by { MovesSound(h, states[k]); }
    } else {
      NewestInMoves(states[i], j, m);
    }
    PreviousHashIs(states[k], j, m);
  }

  lemma NewestInMoves(db: Db, j: Id, m: Id)
    requires IsNewest(db, j, m)
    ensures m in db.moves
  {
  }
}
