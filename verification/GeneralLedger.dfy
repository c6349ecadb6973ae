/** The general ledger of an account: running balances that start and end where the trial balance does. */
module GeneralLedger {
  import opened Sums
  import opened Ledger
  import opened Text
  import opened Tables
  import opened Invariants
  import opened ReportQueries

  /** The lines of an account on some moves dated up to a day. */
  ghost function LinesIn(db: Db, ids: set<Id>, a: Id, day: Date): set<LineId> {
    set m, i | m in ids && m in db.moves && 0 <= i < |db.moves[m].lines| && db.moves[m].lines[i].account == a && db.moves[m].date <= day ::
      LineId(m, i)
  }

  function NetAt(db: Db): LineId -> int {
    (l: LineId) => if HasLine(db, l) then Net(LineAt(db, l)) else 0
  }

  predicate InOrder(db: Db, k: LineId, l: LineId) {
    && k.move in db.moves && l.move in db.moves
    && (db.moves[k.move].date < db.moves[l.move].date
        || (db.moves[k.move].date == db.moves[l.move].date
            && (db.moves[k.move].name == db.moves[l.move].name || Before(db.moves[k.move].name, db.moves[l.move].name))))
  }

  /** The lines of the ledger query, by date and move name and then in an order that is left open here. */
  ghost predicate LedgerLines(db: Db, a: Id, to: Date, keys: seq<LineId>) {
    && Lists(keys, LinesIn(db, PostedIds(db), a, to))
    && forall i, j :: 0 <= i < j < |keys| ==> InOrder(db, keys[i], keys[j])
  }

  datatype LedgerRow = LedgerRow(line: LineId, debit: Amount, credit: Amount, running: Amount)

  // The lines of an account add up to its balance.

  ghost function Prefix(db: Db, m: Id, n: nat, a: Id): set<LineId>
    requires m in db.moves && n <= |db.moves[m].lines|
  {
    set i | 0 <= i < n && db.moves[m].lines[i].account == a :: LineId(m, i)
  }

  lemma {:induction false} PrefixSum(db: Db, m: Id, n: nat, a: Id, day: Date)
    requires m in db.moves && n <= |db.moves[m].lines| && db.moves[m].date <= day
    requires forall i :: 0 <= i < n ==> db.moves[m].lines[i].date == db.moves[m].date
    ensures SumSet(Prefix(db, m, n, a), NetAt(db)) == SumSeq(db.moves[m].lines[..n], On(a, UpTo(day, Net)))
  {
    if n > 0 {
      var lines := db.moves[m].lines;
      PrefixSum(db, m, n - 1, a, day);
      assert lines[..n][..n - 1] == lines[..n - 1];
      var l := LineId(m, n - 1);
      if lines[n - 1].account == a {
        assert Prefix(db, m, n, a) == Prefix(db, m, n - 1, a) + {l};
        SumSetAdd(Prefix(db, m, n - 1, a), l, NetAt(db));
      } else {
        assert Prefix(db, m, n, a) == Prefix(db, m, n - 1, a);
      }
    }
  }

  lemma OneMove(db: Db, m: Id, a: Id, day: Date)
    requires SoundMoves(db) && m in db.moves
    ensures SumSet(LinesIn(db, {m}, a, day), NetAt(db)) == MoveSum(db.moves, On(a, UpTo(day, Net)))(m)
  {
    var lines := db.moves[m].lines;
    assert SoundMove(db, m);
    if db.moves[m].date <= day {
      PrefixSum(db, m, |lines|, a, day);
      assert lines[..|lines|] == lines;
      assert LinesIn(db, {m}, a, day) == Prefix(db, m, |lines|, a);
    } else {
      assert LinesIn(db, {m}, a, day) == {};
      SumSeqZero(lines, On(a, UpTo(day, Net)));
    }
  }

  lemma {:induction false} LinesSum(db: Db, ids: set<Id>, a: Id, day: Date)
    requires SoundMoves(db) && ids <= db.moves.Keys
    ensures SumSet(LinesIn(db, ids, a, day), NetAt(db)) == LedgerSum(db.moves, ids, On(a, UpTo(day, Net)))
    decreases ids
  {
    hide SoundMoves, NetAt, MoveSum;
    if ids == {} {
      assert LinesIn(db, ids, a, day) == {};
    } else {
      var m :| m in ids;
      LinesSum(db, ids - {m}, a, day);
      OneMove(db, m, a, day);
      SumSetPick(ids, m, MoveSum(db.moves, On(a, UpTo(day, Net))));
      SumSetUnion(LinesIn(db, ids - {m}, a, day), LinesIn(db, {m}, a, day), NetAt(db));
      assert LinesIn(db, ids, a, day) == LinesIn(db, ids - {m}, a, day) + LinesIn(db, {m}, a, day);
    }
  }

  lemma KeysSum(db: Db, a: Id, day: Date, keys: seq<LineId>)
    requires SoundMoves(db) && Lists(keys, LinesIn(db, PostedIds(db), a, day))
    ensures SumSeq(keys, NetAt(db)) == PostedSum(db, On(a, UpTo(day, Net)))
  {
    hide SoundMoves, LinesIn, NetAt;
    SumListed(keys, LinesIn(db, PostedIds(db), a, day), NetAt(db));
    LinesSum(db, PostedIds(db), a, day);
  }

  // The report.

  ghost function RowAt(db: Db, keys: seq<LineId>, i: nat): LedgerRow
    requires i < |keys| && HasLine(db, keys[i])
  {
    LedgerRow(keys[i], LineAt(db, keys[i]).debit, LineAt(db, keys[i]).credit, SumSeq(keys[..i + 1], NetAt(db)))
  }

  /** Each running balance is the one before plus debit minus credit; the first starts from the given balance. */
  ghost predicate RunsFrom(rows: seq<LedgerRow>, start: Amount) {
    forall i :: 0 <= i < |rows| ==> StepsFrom(rows, start, i)
  }

  ghost predicate StepsFrom(rows: seq<LedgerRow>, start: Amount, i: nat)
    requires i < |rows|
  {
    rows[i].running == (if i == 0 then start else rows[i - 1].running) + rows[i].debit - rows[i].credit
  }

  lemma KeysKnown(db: Db, a: Id, to: Date, keys: seq<LineId>, i: nat)
    requires LedgerLines(db, a, to, keys) && i < |keys|
    ensures HasLine(db, keys[i]) && IsPosted(db, keys[i].move) && db.moves[keys[i].move].date <= to && LineAt(db, keys[i]).account == a
  {
    assert keys[i] in LinesIn(db, PostedIds(db), a, to);
  }

  /** The first keys, up to the first dated on or after a day, are the lines of the account before that day. */
  lemma EarlierKeys(db: Db, a: Id, from: Date, to: Date, keys: seq<LineId>, start: nat)
    requires LedgerLines(db, a, to, keys) && start <= |keys| && from <= to
    requires forall i :: 0 <= i < |keys| ==> (HasLine(db, keys[i]) && (db.moves[keys[i].move].date < from <==> i < start))
    ensures Lists(keys[..start], LinesIn(db, PostedIds(db), a, from - 1))
  {
    var earlier := LinesIn(db, PostedIds(db), a, from - 1);
    forall l | l in earlier
      ensures l in keys[..start]
    {
      assert l in LinesIn(db, PostedIds(db), a, to);
      var i :| 0 <= i < |keys| && keys[i] == l;
    }
    forall l | l in keys[..start]
      ensures l in earlier
    {
      var i :| 0 <= i < start && keys[i] == l;
      KeysKnown(db, a, to, keys, i);
    }
  }

  lemma SumGrows(db: Db, keys: seq<LineId>, i: nat)
    requires i < |keys| && HasLine(db, keys[i])
    ensures SumSeq(keys[..i + 1], NetAt(db)) == SumSeq(keys[..i], NetAt(db)) + LineAt(db, keys[i]).debit - LineAt(db, keys[i]).credit
  {
    assert keys[..i + 1][..i] == keys[..i];
  }

  lemma DatesInOrder(db: Db, a: Id, to: Date, keys: seq<LineId>, i: nat, j: nat)
    requires LedgerLines(db, a, to, keys) && i < j < |keys|
    ensures HasLine(db, keys[i]) && HasLine(db, keys[j]) && db.moves[keys[i].move].date <= db.moves[keys[j].move].date
  {
    KeysKnown(db, a, to, keys, i);
    KeysKnown(db, a, to, keys, j);
    assert InOrder(db, keys[i], keys[j]);
  }

  /** The keys before number start are dated before the day, the later ones on or after it. */
  ghost predicate SplitByDay(db: Db, from: Date, keys: seq<LineId>, start: nat) {
    start <= |keys| && forall k :: 0 <= k < |keys| ==> HasLine(db, keys[k]) && (db.moves[keys[k].move].date < from <==> k < start)
  }

  ghost predicate RowsAre(db: Db, keys: seq<LineId>, start: nat, rows: seq<LedgerRow>) {
    start + |rows| == |keys| && forall k :: start <= k < |keys| ==> HasLine(db, keys[k]) && rows[k - start] == RowAt(db, keys, k)
  }

  lemma RowAdded(db: Db, from: Date, keys: seq<LineId>, key: LineId, start: nat, rows: seq<LedgerRow>, running: Amount)
    requires SplitByDay(db, from, keys, start) && RowsAre(db, keys, start, rows)
    requires HasLine(db, key) && db.moves[key.move].date >= from && running == SumSeq(keys + [key], NetAt(db))
    ensures SplitByDay(db, from, keys + [key], start)
    ensures RowsAre(db, keys + [key], start, rows + [LedgerRow(key, LineAt(db, key).debit, LineAt(db, key).credit, running)])
  {
    hide NetAt, SumSeq;
    var more := keys + [key];
    assert more[..|keys| + 1] == more;
    forall k | start <= k < |keys|
      ensures RowAt(db, more, k) == RowAt(db, keys, k)
    {
      assert more[..k + 1] == keys[..k + 1];
    }
  }

  lemma EarlierKeyAdded(db: Db, from: Date, keys: seq<LineId>, key: LineId)
    requires SplitByDay(db, from, keys, |keys|) && HasLine(db, key) && db.moves[key.move].date < from
    ensures SplitByDay(db, from, keys + [key], |keys| + 1) && RowsAre(db, keys + [key], |keys| + 1, [])
  {
  }

  lemma RowsBeginLate(db: Db, a: Id, from: Date, to: Date, keys: seq<LineId>, i: nat, start: nat)
    requires LedgerLines(db, a, to, keys) && i < |keys| && SplitByDay(db, from, keys[..i], start) && start < i
    ensures HasLine(db, keys[i]) && db.moves[keys[i].move].date >= from
  {
    DatesInOrder(db, a, to, keys, start, i);
    assert keys[..i][start] == keys[start];
  }

  /** GetGeneralLedgerLines: the rows dated from a day on run from the initial balance of the account to its ending balance. */
  method GeneralLedgerRows(db: Db, a: Id, from: Date, to: Date, keys: seq<LineId>) returns (r: Result<seq<LedgerRow>>)
    requires SoundMoves(db) && LedgerLines(db, a, to, keys)
    ensures r.Err? <==> a == 0 || from > to
    ensures r.Ok? ==> exists start :: SplitByDay(db, from, keys, start) && RowsAre(db, keys, start, r.value)
    ensures r.Ok? ==> RunsFrom(r.value, InitialNet(TrialRow(db, from, to, a)))
    ensures r.Ok? ==> EndsAt(r.value, InitialNet(TrialRow(db, from, to, a)), EndingNet(TrialRow(db, from, to, a)))
  {
    hide *;
    if a == 0 || from > to {
      return Err(InvalidRequest);
    }
    var rows, running := [], 0;
    ghost var start := 0;
    assert keys[..0] == [];
    NothingYet(db, from);
    for i := 0 to |keys|
      invariant 0 <= start <= i && (rows == [] <==> start == i)
      invariant running == SumSeq(keys[..i], NetAt(db))
      invariant SplitByDay(db, from, keys[..i], start) && RowsAre(db, keys[..i], start, rows)
    {
      KeysKnown(db, a, to, keys, i);
      SumGrows(db, keys, i);
      assert keys[..i + 1] == keys[..i] + [keys[i]];
      var line := LineAt(db, keys[i]);
      running := running + line.debit - line.credit;
      if db.moves[keys[i].move].date >= from {
        RowAdded(db, from, keys[..i], keys[i], start, rows, running);
        rows := rows + [LedgerRow(keys[i], line.debit, line.credit, running)];
      } else {
        if start < i {
          RowsBeginLate(db, a, from, to, keys, i, start);
        }
        EarlierKeyAdded(db, from, keys[..i], keys[i]);
        start := i + 1;
      }
    }
    assert keys[..|keys|] == keys;
    RowsRun(db, a, from, to, keys, start, rows);
    return Ok(rows);
  }

  lemma NothingYet(db: Db, from: Date)
    ensures SumSeq([], NetAt(db)) == 0 && SplitByDay(db, from, [], 0) && RowsAre(db, [], 0, [])
  {
  }

  /** The last running balance, or the balance from the start if there is none. */
  ghost predicate EndsAt(rows: seq<LedgerRow>, start: Amount, end: Amount) {
    end == if rows == [] then start else rows[|rows| - 1].running
  }

  /** The balance before the first row and after the last one, as sums over the keys. */
  lemma KeysBalance(db: Db, a: Id, from: Date, to: Date, keys: seq<LineId>, start: nat)
    requires SoundMoves(db) && LedgerLines(db, a, to, keys) && from <= to && SplitByDay(db, from, keys, start)
    ensures SumSeq(keys[..start], NetAt(db)) == InitialNet(TrialRow(db, from, to, a))
    ensures SumSeq(keys, NetAt(db)) == EndingNet(TrialRow(db, from, to, a))
  {
    hide SoundMoves, LinesIn, TrialRow, PostedSum, NetAt, SumSeq, InOrder;
    EarlierKeys(db, a, from, to, keys, start);
    KeysSum(db, a, from - 1, keys[..start]);
    KeysSum(db, a, to, keys);
    TrialRowNets(db, from, to, a);
  }

  lemma RowSteps(db: Db, keys: seq<LineId>, start: nat, rows: seq<LedgerRow>, i: nat)
    requires RowsAre(db, keys, start, rows) && i < |rows|
    ensures StepsFrom(rows, SumSeq(keys[..start], NetAt(db)), i)
  {
    hide SumSeq, NetAt;
    var k := start + i;
    SumGrows(db, keys, k);
    assert rows[k - start] == RowAt(db, keys, k);
    if i > 0 {
      var j := k - 1;
      assert rows[j - start] == RowAt(db, keys, j);
    }
  }

  lemma RowsRun(db: Db, a: Id, from: Date, to: Date, keys: seq<LineId>, start: nat, rows: seq<LedgerRow>)
    requires SoundMoves(db) && LedgerLines(db, a, to, keys) && from <= to
    requires SplitByDay(db, from, keys, start) && RowsAre(db, keys, start, rows)
    ensures RunsFrom(rows, InitialNet(TrialRow(db, from, to, a)))
    ensures EndsAt(rows, InitialNet(TrialRow(db, from, to, a)), EndingNet(TrialRow(db, from, to, a)))
  {
    hide SoundMoves, LedgerLines, TrialRow, NetAt, SumSeq, StepsFrom, SplitByDay;
    KeysBalance(db, a, from, to, keys, start);
    forall i | 0 <= i < |rows|
      ensures StepsFrom(rows, InitialNet(TrialRow(db, from, to, a)), i)
    {
      RowSteps(db, keys, start, rows, i);
    }
    assert keys[..|keys|] == keys;
    if rows != [] {
      var k := |keys| - 1;
      assert rows[k - start] == RowAt(db, keys, k);
    }
  }
}
