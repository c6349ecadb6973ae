/** What every transaction keeps. */
module Invariants {
  import opened Ledger
  import opened Text
  import opened MoveNames
  import opened Hashing
  import opened AuditChain
  import opened Tables
  import opened Steps

  // The invariant, table by table.

  /** Every stored move is balanced and its lines are dated like it; nothing is ever marked reversed. */
  ghost predicate SoundMove(db: Db, m: Id)
    requires m in db.moves
  {
    var row := db.moves[m];
    && Balanced(row.lines)
    && (forall i :: 0 <= i < |row.lines| ==> row.lines[i].date == row.date)
    && ReferencesHold(db, row.journal, row.period, row.lines)
    && row.state != Reversed
    && (row.state == Draft ==> row.reverses.None?)
  }

  ghost predicate SoundMoves(db: Db) {
    forall m :: m in db.moves ==> SoundMove(db, m)
  }

  /** Move m is number n of journal j. */
  ghost predicate Numbered(db: Db, j: Id, n: nat, m: Id) {
    IsPosted(db, m) && j in db.journals && db.moves[m].journal == j && db.moves[m].number == n
  }

  ghost predicate HasNumber(db: Db, j: Id, n: nat) {
    exists m :: Numbered(db, j, n, m)
  }

  /** The name is some prefix with the number printed behind it. */
  ghost predicate PrintsNumber(row: Move) {
    exists prefix: string :: row.name == SequenceName(prefix, row.number)
  }

  ghost predicate WithinNumbers(db: Db, m: Id)
    requires m in db.moves
  {
    var row := db.moves[m];
    row.journal in db.journals && 1 <= row.number < db.journals[row.journal].next && PrintsNumber(row)
  }

  predicate SamePlace(a: Move, b: Move) {
    a.name == b.name || (a.journal == b.journal && a.number == b.number)
  }

  /** The posted numbers of a journal are 1 .. next - 1, each used once, and no two posted moves share a name. */
  ghost predicate GapFree(db: Db) {
    && (forall j :: j in db.journals ==> db.journals[j].next >= 1)
    && (forall m :: m in db.moves && IsPosted(db, m) ==> WithinNumbers(db, m))
    && (forall j, n: nat :: j in db.journals && 1 <= n < db.journals[j].next ==> HasNumber(db, j, n))
    && (forall m, k :: IsPosted(db, m) && IsPosted(db, k) && SamePlace(db.moves[m], db.moves[k]) ==> m == k)
  }

  ghost function RecordOf(m: Id, row: Move, previous: string): MoveRecord {
    MoveRecord(m, row.name, row.date, row.journal, row.lines, previous)
  }

  /** Move m has a number of journal j below n. */
  predicate IsBelow(db: Db, j: Id, n: nat, m: Id) {
    IsPosted(db, m) && db.moves[m].journal == j && db.moves[m].number < n
  }

  /** Of the numbers of journal j below n, move p has the name that sorts last. */
  ghost predicate IsNewestBelow(db: Db, j: Id, n: nat, p: Id) {
    && IsBelow(db, j, n, p)
    && forall k :: IsBelow(db, j, n, k) && k != p ==> Before(db.moves[k].name, db.moves[p].name)
  }

  ghost function HashBelow(db: Db, j: Id, n: nat): string {
    if exists p :: IsNewestBelow(db, j, n, p) then
      var p :| IsNewestBelow(db, j, n, p);
      db.moves[p].hash
    else ""
  }

  /** An entry is sealed over the hash that the query by name found among the smaller numbers. */
  ghost predicate ChainedAt(h: Hashers, db: Db, m: Id)
    requires m in db.moves
  {
    var row := db.moves[m];
    row.hash == h.seal(RecordOf(m, row, HashBelow(db, row.journal, row.number)))
  }

  ghost predicate Chained(h: Hashers, db: Db) {
    forall m :: m in db.moves && IsPosted(db, m) ==> ChainedAt(h, db, m)
  }

  /** A reversal mirrors its posted original, and no original has two. */
  ghost predicate Reverses(db: Db, m: Id, original: Id) {
    m in db.moves && db.moves[m].reverses == Some(original)
  }

  ghost predicate MirrorsPosted(db: Db, m: Id, original: Id) {
    IsPosted(db, m) && IsPosted(db, original) && m != original
    && MirrorImage(db.moves[original].lines, db.moves[m].lines)
  }

  ghost predicate SoundReversals(db: Db) {
    && (forall m, o :: Reverses(db, m, o) ==> MirrorsPosted(db, m, o))
    && (forall m, k, o :: Reverses(db, m, o) && Reverses(db, k, o) ==> m == k)
  }

  ghost predicate SoundEvents(db: Db) {
    forall k :: k in db.events ==> IsPosted(db, db.events[k])
  }

  ghost predicate SoundAudit(h: Hashers, db: Db) {
    Verified(h.audit, db.audit) && CleanActions(db.audit)
  }

  ghost predicate AllHardClosed(db: Db, y: Id) {
    && |PeriodSet(db, y)| == 12
    && forall p :: InYear(db, y, p) ==> db.periods[p].state == HardClosed
  }

  lemma YearUntouched(db: Db, after: Db, y: Id)
    requires AllHardClosed(db, y)
    requires forall p :: InYear(db, y, p) <==> InYear(after, y, p)
    requires forall p :: InYear(db, y, p) && InYear(after, y, p) ==> after.periods[p] == db.periods[p]
    ensures AllHardClosed(after, y)
  {
    assert PeriodSet(db, y) == PeriodSet(after, y);
  }

  predicate SameNumber(a: Year, b: Year) {
    a.number == b.number
  }

  ghost predicate ClosedIsHardClosed(db: Db) {
    forall y :: y in db.years && db.years[y].closed ==> AllHardClosed(db, y)
  }

  ghost predicate YearKeys(db: Db) {
    && (forall p :: p in db.periods ==> db.periods[p].year in db.years)
    && (forall y, z :: y in db.years && z in db.years && SameNumber(db.years[y], db.years[z]) ==> y == z)
    && (forall p, q :: p in db.periods && q in db.periods && SamePeriodKey(db.periods[p], db.periods[q]) ==> p == q)
  }

  /** A closed year has twelve periods, all hard closed; year numbers and period numbers are keys. */
  ghost predicate SoundYears(db: Db) {
    ClosedIsHardClosed(db) && YearKeys(db)
  }

  // Posting one row.

  ghost predicate MayReverse(db: Db, original: Id, lines: seq<Line>) {
    IsPosted(db, original) && !HasReversal(db, original) && MirrorImage(db.moves[original].lines, lines)
  }

  ghost predicate EntryFits(db: Db, id: Id, e: Entry) {
    && Balanced(e.lines)
    && (forall i :: 0 <= i < |e.lines| ==> e.lines[i].date == e.date)
    && (id in db.moves ==> db.moves[id].state == Draft)
    && (e.reverses.Some? ==> MayReverse(db, e.reverses.value, e.lines))
  }

  predicate JournalExtends(a: Journal, b: Journal) {
    a.next <= b.next
  }

  /** Posted moves, log rows, keys and the configuration stay for good; hard-closed periods and closed years stay closed. */
  ghost predicate Extends(db: Db, after: Db) {
    && (forall m :: IsPosted(db, m) ==> IsPosted(after, m) && after.moves[m] == db.moves[m])
    && (forall j :: j in db.journals ==> j in after.journals && JournalExtends(db.journals[j], after.journals[j]))
    && db.audit <= after.audit
    && (forall k :: k in db.events ==> k in after.events && after.events[k] == db.events[k])
    && (forall p :: p in db.periods ==> p in after.periods && (db.periods[p].state == HardClosed ==> after.periods[p] == db.periods[p]))
    && (forall y :: y in db.years ==> y in after.years && (db.years[y].closed ==> after.years[y] == db.years[y]))
    && db.accounts.Keys <= after.accounts.Keys
    && (db.config.Some? ==> after.config == db.config)
  }

  lemma ExtendsTransitive(a: Db, b: Db, c: Db)
    requires Extends(a, b) && Extends(b, c)
    ensures Extends(a, c)
  {
  }

  lemma PostRowKeepsMoves(h: Hashers, db: Db, id: Id, e: Entry)
    requires SoundMoves(db) && EntryFits(db, id, e) && PostRow(h, db, id, e).Ok?
    ensures SoundMoves(PostRow(h, db, id, e).value)
  {
    var after := PostRow(h, db, id, e).value;
    forall m | m in after.moves
      ensures SoundMove(after, m)
    {
      if m != id {
        assert SoundMove(db, m);
      }
    }
  }

  lemma PostRowExtends(h: Hashers, db: Db, id: Id, e: Entry)
    requires EntryFits(db, id, e) && PostRow(h, db, id, e).Ok?
    ensures Extends(db, PostRow(h, db, id, e).value)
    ensures IsPosted(PostRow(h, db, id, e).value, id)
    ensures var after := PostRow(h, db, id, e).value; after == db.(journals := after.journals, moves := after.moves)
  {
  }

  /** after is db with one more posted move, the next number of journal j. */
  ghost predicate NextPosted(db: Db, after: Db, j: Id, id: Id) {
    && j in db.journals && db.journals[j].next >= 1
    && after.journals == db.journals[j := db.journals[j].(next := db.journals[j].next + 1)]
    && Numbered(after, j, db.journals[j].next, id)
    && !IsPosted(db, id)
    && (forall m :: m != id ==> (IsPosted(db, m) <==> IsPosted(after, m)) && (IsPosted(db, m) ==> after.moves[m] == db.moves[m]))
    && PrintsNumber(after.moves[id])
    && (forall m :: IsPosted(db, m) ==> db.moves[m].name != after.moves[id].name)
  }

  lemma PostRowIsNext(h: Hashers, db: Db, id: Id, e: Entry)
    requires EntryFits(db, id, e) && PostRow(h, db, id, e).Ok?
    ensures NextPosted(db, PostRow(h, db, id, e).value, e.journal, id)
  {
  }

  lemma NumbersKept(db: Db, after: Db, j: Id, id: Id, i: Id, n: nat, m: Id)
    requires NextPosted(db, after, j, id) && Numbered(db, i, n, m)
    ensures Numbered(after, i, n, m)
  {
  }

  lemma NextKeepsNumbers(db: Db, after: Db, j: Id, id: Id)
    requires GapFree(db) && NextPosted(db, after, j, id)
    ensures GapFree(after)
  {
    hide PrintsNumber;
    forall m | m in after.moves && IsPosted(after, m)
      ensures WithinNumbers(after, m)
    {
      assert m != id ==> IsPosted(db, m) && WithinNumbers(db, m);
    }
    forall i, n: nat | i in after.journals && 1 <= n < after.journals[i].next
      ensures HasNumber(after, i, n)
    {
      if i == j && n == db.journals[j].next {
        assert Numbered(after, i, n, id);
      } else {
        assert HasNumber(db, i, n);
        var m :| Numbered(db, i, n, m);
        NumbersKept(db, after, j, id, i, n, m);
      }
    }
    forall m, k | IsPosted(after, m) && IsPosted(after, k) && SamePlace(after.moves[m], after.moves[k])
      ensures m == k
    {
      assert m != id ==> WithinNumbers(db, m);
      assert k != id ==> WithinNumbers(db, k);
    }
  }

  lemma PostRowKeepsNumbers(h: Hashers, db: Db, id: Id, e: Entry)
    requires GapFree(db) && EntryFits(db, id, e) && PostRow(h, db, id, e).Ok?
    ensures GapFree(PostRow(h, db, id, e).value)
    ensures Numbered(PostRow(h, db, id, e).value, e.journal, db.journals[e.journal].next, id)
  {
    PostRowIsNext(h, db, id, e);
    NextKeepsNumbers(db, PostRow(h, db, id, e).value, e.journal, id);
  }

  lemma NumbersDistinct(db: Db, j: Id, n: nat, k: nat, m: Id, p: Id)
    requires GapFree(db) && Numbered(db, j, n, m) && Numbered(db, j, k, p)
    ensures n == k <==> m == p
    ensures 1 <= n < db.journals[j].next
  {
    assert WithinNumbers(db, m);
    assert n == k ==> SamePlace(db.moves[m], db.moves[p]);
  }

  // The chain of hashes.

  lemma NewestUnique(db: Db, j: Id, m: Id, k: Id)
    requires IsNewest(db, j, m) && IsNewest(db, j, k)
    ensures m == k
  {
    if m != k {
      BeforeIsTotal(db.moves[m].name, db.moves[k].name);
    }
  }

  lemma NewestBelowUnique(db: Db, j: Id, n: nat, p: Id, q: Id)
    requires IsNewestBelow(db, j, n, p) && IsNewestBelow(db, j, n, q)
    ensures p == q
  {
    if p != q {
      BeforeIsTotal(db.moves[p].name, db.moves[q].name);
    }
  }

  lemma HashBelowIs(db: Db, j: Id, n: nat, p: Id)
    requires IsNewestBelow(db, j, n, p)
    ensures HashBelow(db, j, n) == db.moves[p].hash
  {
    forall q | IsNewestBelow(db, j, n, q)
      ensures q == p
    {
      NewestBelowUnique(db, j, n, p, q);
    }
  }

  lemma PreviousHashIs(db: Db, j: Id, m: Id)
    requires IsNewest(db, j, m)
    ensures PreviousHash(db, j) == db.moves[m].hash
  {
    forall k | IsNewest(db, j, k)
      ensures k == m
    {
      NewestUnique(db, j, m, k);
    }
  }

  /** The posted moves of the journal are its numbers below next, so that is what the query for the newest move looks through. */
  lemma NewestIsBelowNext(db: Db, j: Id, p: Id)
    requires GapFree(db) && SoundMoves(db) && j in db.journals && db.journals[j].next >= 1
    ensures IsNewest(db, j, p) <==> IsNewestBelow(db, j, db.journals[j].next, p)
  {
    hide Before, GapFree, SoundMoves;
    forall k | k in db.moves
      ensures InJournal(db, j, k) <==> IsBelow(db, j, db.journals[j].next, k)
    {
      InJournalIsBelow(db, j, k);
    }
  }

  lemma InJournalIsBelow(db: Db, j: Id, k: Id)
    requires GapFree(db) && SoundMoves(db) && k in db.moves && j in db.journals && db.journals[j].next >= 1
    ensures InJournal(db, j, k) <==> IsBelow(db, j, db.journals[j].next, k)
  {
    assert SoundMove(db, k);
    assert IsPosted(db, k) ==> WithinNumbers(db, k);
  }

  lemma PreviousIsHashBelow(db: Db, j: Id)
    requires GapFree(db) && SoundMoves(db) && j in db.journals && db.journals[j].next >= 1
    ensures PreviousHash(db, j) == HashBelow(db, j, db.journals[j].next)
  {
    hide IsNewest, IsNewestBelow, GapFree, SoundMoves;
    forall p
      ensures IsNewest(db, j, p) <==> IsNewestBelow(db, j, db.journals[j].next, p)
    {
      NewestIsBelowNext(db, j, p);
    }
    if p :| IsNewest(db, j, p) {
      PreviousHashIs(db, j, p);
      HashBelowIs(db, j, db.journals[j].next, p);
    }
  }

  /** Both states have the same rows below number n. */
  ghost predicate SameBelow(db: Db, after: Db, j: Id, n: nat) {
    && (forall k :: IsBelow(db, j, n, k) <==> IsBelow(after, j, n, k))
    && (forall k :: IsBelow(db, j, n, k) && IsBelow(after, j, n, k) ==> after.moves[k] == db.moves[k])
  }

  lemma HashBelowSame(db: Db, after: Db, j: Id, n: nat)
    requires SameBelow(db, after, j, n)
    ensures HashBelow(after, j, n) == HashBelow(db, j, n)
  {
    hide Before;
    forall p
      ensures IsNewestBelow(db, j, n, p) <==> IsNewestBelow(after, j, n, p)
    {
    }
    if p :| IsNewestBelow(db, j, n, p) {
      HashBelowIs(db, j, n, p);
      HashBelowIs(after, j, n, p);
    }
  }

  lemma NothingBelowChanges(db: Db, after: Db, j: Id, id: Id, i: Id, n: nat)
    requires NextPosted(db, after, j, id) && (i == j ==> n <= db.journals[j].next)
    ensures SameBelow(db, after, i, n)
  {
    hide PrintsNumber;
  }

  lemma NewLinkHolds(h: Hashers, db: Db, after: Db, j: Id, id: Id)
    requires GapFree(db) && SoundMoves(db) && NextPosted(db, after, j, id)
    requires after.moves[id].hash == h.seal(RecordOf(id, after.moves[id], PreviousHash(db, j)))
    ensures ChainedAt(h, after, id)
  {
    hide PreviousHash, HashBelow, GapFree, SoundMoves, SameBelow;
    PreviousIsHashBelow(db, j);
    NothingBelowChanges(db, after, j, id, j, db.journals[j].next);
    HashBelowSame(db, after, j, db.journals[j].next);
  }

  lemma OldLinkHolds(h: Hashers, db: Db, after: Db, j: Id, id: Id, m: Id)
    requires Chained(h, db) && GapFree(db) && NextPosted(db, after, j, id) && IsPosted(after, m) && m != id
    ensures ChainedAt(h, after, m)
  {
    hide HashBelow, SameBelow, PrintsNumber;
    assert IsPosted(db, m) && ChainedAt(h, db, m) && WithinNumbers(db, m);
    NothingBelowChanges(db, after, j, id, db.moves[m].journal, db.moves[m].number);
    HashBelowSame(db, after, db.moves[m].journal, db.moves[m].number);
  }

  lemma PostRowKeepsChain(h: Hashers, db: Db, id: Id, e: Entry)
    requires Chained(h, db) && GapFree(db) && SoundMoves(db) && EntryFits(db, id, e) && PostRow(h, db, id, e).Ok?
    ensures Chained(h, PostRow(h, db, id, e).value)
  {
    hide GapFree, SoundMoves, PreviousHash, ChainedAt, HashBelow;
    var after := PostRow(h, db, id, e).value;
    assert after.moves[id].hash == h.seal(RecordOf(id, after.moves[id], PreviousHash(db, e.journal)));
    PostRowIsNext(h, db, id, e);
    NewLinkHolds(h, db, after, e.journal, id);
    forall m | m in after.moves && IsPosted(after, m) && m != id
      ensures ChainedAt(h, after, m)
    {
      OldLinkHolds(h, db, after, e.journal, id, m);
    }
  }

  lemma PostRowKeepsReversals(h: Hashers, db: Db, id: Id, e: Entry)
    requires SoundReversals(db) && EntryFits(db, id, e) && PostRow(h, db, id, e).Ok?
    requires e.reverses != Some(id)
    ensures SoundReversals(PostRow(h, db, id, e).value)
  {
    var after := PostRow(h, db, id, e).value;
    forall m, o | Reverses(after, m, o)
      ensures MirrorsPosted(after, m, o)
    {
      if m != id {
        assert Reverses(db, m, o);
      }
    }
    forall m, k, o | Reverses(after, m, o) && Reverses(after, k, o)
      ensures m == k
    {
      assert m != id ==> Reverses(db, m, o);
      assert k != id ==> Reverses(db, k, o);
    }
  }
}
