/** The year close, written out on its arguments and the tables: exactly when it may begin, where its result goes, and every field it writes. */
module CloseOutcomes {
  import opened Sums
  import opened Ledger
  import opened MoveNames
  import opened Tables
  import opened Steps
  import opened Invariants
  import opened PostingKeeps
  import opened OperationsKeep
  import opened PostingOutcomes
  import opened ReconcileOutcomes
  import opened YearClose

  // When a close may begin.

  /** n is the open year with the next number; it starts on the day after this one ends, in its open first period p. */
  ghost predicate IsNext(db: Db, y: Id, n: Id, p: Id) {
    && y in db.years && n in db.years && db.years[n].number == db.years[y].number + 1 && !db.years[n].closed
    && db.years[n].start == db.years[y].end + 1
    && p in db.periods && db.periods[p].year == n && db.periods[p].number == 1 && db.periods[p].state == Open
    && db.periods[p].start <= db.years[n].start <= db.periods[p].end
  }

  /** c is the last of exactly twelve periods, all hard closed and numbered up to twelve, and ends with the year. */
  ghost predicate IsLast(db: Db, y: Id, c: Id) {
    && y in db.years && c in db.periods && db.periods[c].year == y && db.periods[c].number == 12 && db.periods[c].end == db.years[y].end
    && |PeriodSet(db, y)| == 12
    && forall p :: p in db.periods && db.periods[p].year == y ==> db.periods[p].state == HardClosed && 1 <= db.periods[p].number <= 12
  }

  /** The account that takes the result: the one asked for, or the configured one. */
  ghost predicate Takes(db: Db, retained: Id, r: Id) {
    if retained != 0 then r == retained else db.config.Some? && r == db.config.value.retained
  }

  ghost predicate MayClose(db: Db, y: Id, journal: Id, retained: Id, actor: Id, c: Id, n: Id, p: Id, r: Id) {
    && y != 0 && journal != 0 && actor != 0
    && IsLast(db, y, c) && !db.years[y].closed && IsNext(db, y, n, p)
    && (forall m :: m in db.moves && db.moves[m].state == Draft ==> db.moves[m].date < db.years[y].start || db.years[y].end < db.moves[m].date)
    && journal in db.journals && db.journals[journal].active && db.config.Some?
    && Takes(db, retained, r) && r in db.accounts && db.accounts[r].active && db.accounts[r].kind == Equity
  }

  lemma {:induction false} NumberAtLeast(db: Db, y: Id, rows: seq<Id>, i: nat)
    requires YearKeys(db) && PeriodsOf(db, y, rows) && i < |rows|
    requires forall p :: p in db.periods && db.periods[p].year == y ==> 1 <= db.periods[p].number
    ensures rows[i] in db.periods && db.periods[rows[i]].number >= i + 1
  {
    assert InYear(db, y, rows[i]);
    if i > 0 {
      NumberAtLeast(db, y, rows, i - 1);
      NumbersDiffer(db, y, rows, i - 1, i);
    }
  }

  lemma NumbersDiffer(db: Db, y: Id, rows: seq<Id>, i: nat, j: nat)
    requires YearKeys(db) && PeriodsOf(db, y, rows) && i < j < |rows|
    ensures rows[i] in db.periods && rows[j] in db.periods && db.periods[rows[i]].number < db.periods[rows[j]].number
  {
    assert InYear(db, y, rows[i]) && InYear(db, y, rows[j]) && NumberedBefore(db, rows[i], rows[j]);
    assert !SamePeriodKey(db.periods[rows[i]], db.periods[rows[j]]);
  }

  lemma {:induction false} NumberAtMost(db: Db, y: Id, rows: seq<Id>, i: nat)
    requires YearKeys(db) && PeriodsOf(db, y, rows) && |rows| == 12 && i < 12
    requires forall p :: p in db.periods && db.periods[p].year == y ==> db.periods[p].number <= 12
    ensures rows[i] in db.periods && db.periods[rows[i]].number <= i + 1
    decreases 12 - i
  {
    assert InYear(db, y, rows[i]);
    if i < 11 {
      NumberAtMost(db, y, rows, i + 1);
      NumbersDiffer(db, y, rows, i, i + 1);
    }
  }

  /** The rows of the locking query are twelve hard-closed periods in sequence exactly when the year has such periods, and then the last
      row is the last period. */
  lemma RowsInSequence(db: Db, y: Id, rows: seq<Id>, c: Id)
    requires YearKeys(db) && PeriodsOf(db, y, rows) && y in db.years
    ensures IsLast(db, y, c) <==>
            && |rows| == 12 && (forall i :: 0 <= i < 12 ==> HardClosedAt(db, rows, i))
            && c == rows[11] && db.periods[c].end == db.years[y].end
  {
    ListedCount(rows, PeriodSet(db, y));
    if IsLast(db, y, c) {
      forall i | 0 <= i < 12
        ensures HardClosedAt(db, rows, i)
      {
        assert InYear(db, y, rows[i]);
        NumberAtLeast(db, y, rows, i);
        NumberAtMost(db, y, rows, i);
      }
      assert HardClosedAt(db, rows, 11);
      assert SamePeriodKey(db.periods[c], db.periods[rows[11]]);
    } else if |rows| == 12 && (forall i :: 0 <= i < 12 ==> HardClosedAt(db, rows, i)) && c == rows[11] && db.periods[c].end == db.years[y].end {
      assert HardClosedAt(db, rows, 11);
      forall p | p in db.periods && db.periods[p].year == y
        ensures db.periods[p].state == HardClosed && 1 <= db.periods[p].number <= 12
      {
        assert p in PeriodSet(db, y) && p in rows;
        var i :| 0 <= i < |rows| && rows[i] == p;
        assert HardClosedAt(db, rows, i);
      }
    }
  }

  lemma NextUnique(db: Db, y: Id, n: Id, k: Id)
    requires YearKeys(db) && IsSuccessor(db, y, n) && IsSuccessor(db, y, k)
    ensures n == k
  {
    assert SameNumber(db.years[n], db.years[k]);
  }

  lemma FirstPeriodUnique(db: Db, n: Id, p: Id, q: Id)
    requires YearKeys(db) && IsOpeningPeriod(db, n, p) && IsOpeningPeriod(db, n, q)
    ensures p == q
  {
    assert SamePeriodKey(db.periods[p], db.periods[q]);
  }

  lemma NextIs(db: Db, y: Id, n: Id, p: Id)
    ensures IsNext(db, y, n, p) <==>
            IsSuccessor(db, y, n) && db.years[n].start == db.years[y].end + 1 && IsOpeningPeriod(db, n, p)
  {
  }

  /** What a close reads before it writes is fixed by its arguments and the tables, and it gets that far exactly if such a setup is there. */
  lemma PreparedIs(db: Db, y: Id, journal: Id, retained: Id, actor: Id, rows: seq<Id>, s: CloseSetup)
    requires YearKeys(db) && PeriodsOf(db, y, rows)
    ensures PrepareClose(db, y, journal, retained, actor, rows) == Ok(s) <==>
            && MayClose(db, y, journal, retained, actor, s.closingPeriod, s.successor, s.openingPeriod, s.retained)
            && s.currency == db.config.value.currency
  {
    hide YearKeys, PeriodsOf, IsLast, IsNext, IsSuccessor, IsOpeningPeriod, HardClosedAt, PeriodSet, InYear;
    NextIs(db, y, s.successor, s.openingPeriod);
    if y in db.years {
      RowsInSequence(db, y, rows, s.closingPeriod);
      OneSuccessor(db, y, s.successor);
      OneFirstPeriod(db, s.successor, s.openingPeriod);
    } else {
      NoYearNoLast(db, y, s.closingPeriod);
    }
  }

  lemma OneSuccessor(db: Db, y: Id, n: Id)
    requires YearKeys(db)
    ensures IsSuccessor(db, y, n) ==> forall k :: IsSuccessor(db, y, k) ==> k == n
  {
    if IsSuccessor(db, y, n) {
      forall k | IsSuccessor(db, y, k)
        ensures k == n
      {
        NextUnique(db, y, k, n);
      }
    }
  }

  lemma OneFirstPeriod(db: Db, n: Id, p: Id)
    requires YearKeys(db)
    ensures IsOpeningPeriod(db, n, p) ==> forall q :: IsOpeningPeriod(db, n, q) ==> q == p
  {
    if IsOpeningPeriod(db, n, p) {
      forall q | IsOpeningPeriod(db, n, q)
        ensures q == p
      {
        FirstPeriodUnique(db, n, q, p);
      }
    }
  }

  lemma NoYearNoLast(db: Db, y: Id, c: Id)
    requires y !in db.years
    ensures !IsLast(db, y, c)
  {
  }

  // Where the result goes.

  /** A close that commits puts the total of all income and expense accounts, as of the year end, on the retained earnings account it was
      asked to use, or on the configured one where it was asked for none, and leaves every income and expense account at zero. */
  lemma CloseTakesResult(h: Hashers, db: Db, y: Id, journal: Id, retained: Id, actor: Id, closingId: Id, openingId: Id, now: nat,
                         periodRows: seq<Id>, resultRows: seq<Id>, openingRows: seq<Group>, after: Db)
    requires YearKeys(db) && PeriodsOf(db, y, periodRows)
    requires CloseYear(h, db, y, journal, retained, actor, closingId, openingId, now, periodRows, resultRows, openingRows) == Ok(after)
    requires y in db.years ==> Lists(resultRows, ResultGroups(db, db.years[y].end))
    ensures y in db.years && db.config.Some?
    ensures forall a :: a in ResultAccounts(db) ==> NetUpTo(after, db.years[y].end, a) == 0
    ensures var r := if retained != 0 then retained else db.config.value.retained;
            NetUpTo(after, db.years[y].end, r) ==
            NetUpTo(db, db.years[y].end, r) + SumSet(ResultAccounts(db), NetsUpTo(db, db.years[y].end))
  {
    hide PrepareClose, WriteClose, YearKeys, PeriodsOf, NetUpTo, Lists, ResultAccounts, IsLast, IsNext;
    var s := PrepareClose(db, y, journal, retained, actor, periodRows).value;
    PreparedIs(db, y, journal, retained, actor, periodRows, s);
    hide CloseYear;
    LastOfYear(db, y, s.closingPeriod);
    YearCloseSweeps(h, db, y, journal, retained, actor, closingId, openingId, now, periodRows, resultRows, openingRows, after, s);
  }

  lemma LastOfYear(db: Db, y: Id, c: Id)
    requires IsLast(db, y, c)
    ensures y in db.years
  {
  }

  // What it writes.

  /** Some income or expense account has a net to sweep. */
  ghost predicate HasResult(db: Db, asOf: Date) {
    exists a :: a in db.accounts && IsResult(db.accounts[a].kind) && NetUpTo(db, asOf, a) != 0
  }

  /** A move of the close: posted in the journal of the close by the actor, every line on its date, without partner or cost centre. */
  ghost predicate IsSystemRow(db: Db, m: Id, journal: Id, period: Id, date: Date, actor: Id, now: nat) {
    && m in db.moves
    && var row := db.moves[m];
       && row.state == Posted && row.journal == journal && row.period == period && row.date == date && row.reverses == None
       && row.postedBy == Some(actor) && row.createdBy == Some(actor) && row.updatedAt == now
       && forall k :: 0 <= k < |row.lines| ==> IsSystemLine(row.lines[k], date)
  }

  predicate IsSystemLine(l: Line, date: Date) {
    l.date == date && l.partner == None && l.costCenter == None && l.matching == "" && (l.debit == 0 || l.credit == 0)
  }

  /** All lines are in functional currency. */
  predicate AllIn(lines: seq<Line>, currency: string) {
    forall k :: 0 <= k < |lines| ==> lines[k].currency == currency && lines[k].amountCurrency == 0
  }

  lemma {:induction false} SweepFields(db: Db, asOf: Date, currency: string, rows: seq<Id>)
    ensures AllIn(SweepLines(db, asOf, currency, rows), currency)
    ensures forall k :: 0 <= k < |SweepLines(db, asOf, currency, rows)| ==> IsSystemLine(SweepLines(db, asOf, currency, rows)[k], asOf)
    ensures SweepLines(db, asOf, currency, rows) == [] <==> forall a :: a in rows ==> NetUpTo(db, asOf, a) == 0
  {
    hide NetUpTo;
    if rows != [] {
      SweepFields(db, asOf, currency, rows[..|rows| - 1]);
      assert rows == rows[..|rows| - 1] + [rows[|rows| - 1]];
    }
  }

  lemma {:induction false} NothingToSweep(db: Db, asOf: Date, rows: seq<Id>)
    requires forall a :: a in rows ==> NetUpTo(db, asOf, a) == 0
    ensures Swept(db, asOf, rows) == 0
  {
    SumSeqZero(rows, NetsUpTo(db, asOf));
  }

  lemma ResultIsListed(db: Db, asOf: Date, rows: seq<Id>)
    requires Lists(rows, ResultGroups(db, asOf))
    ensures HasResult(db, asOf) <==> exists a :: a in rows && NetUpTo(db, asOf, a) != 0
  {
    forall a | a in db.accounts && IsResult(db.accounts[a].kind) && a !in rows
      ensures NetUpTo(db, asOf, a) == 0
    {
      NoLinesNoNet(db, asOf, a);
    }
    hide NetUpTo, HasLineUpTo;
  }

  lemma ClosingFields(db: Db, asOf: Date, retained: Id, currency: string, rows: seq<Id>)
    requires Lists(rows, ResultGroups(db, asOf))
    ensures var lines := ClosingLines(db, asOf, retained, currency, rows);
      && (lines != [] <==> HasResult(db, asOf)) && AllIn(lines, currency)
      && forall k :: 0 <= k < |lines| ==> IsSystemLine(lines[k], asOf)
  {
    hide Lists, ResultGroups, HasResult, NetUpTo, SweepLines, Swept;
    ResultIsListed(db, asOf, rows);
    SweepFields(db, asOf, currency, rows);
    if forall a :: a in rows ==> NetUpTo(db, asOf, a) == 0 {
      NothingToSweep(db, asOf, rows);
    }
  }

  lemma OpeningFields(db: Db, asOf: Date, currency: string, rows: seq<Group>, lines: seq<Line>)
    requires OpeningLines(db, asOf, currency, rows) == Ok(lines)
    ensures |lines| == |rows| && forall k :: 0 <= k < |lines| ==> IsSystemLine(lines[k], asOf + 1) && GroupOf(lines[k]) == rows[k]
  {
    hide GroupNet, GroupForeign;
  }

  /** A system move that is skipped leaves the tables alone; otherwise its row and one row of the log are added. */
  lemma SystemMoveWrites(h: Hashers, db: Db, id: Id, journal: Id, period: Id, date: Date, actor: Id, now: nat, lines: seq<Line>, after: Db)
    requires SystemMove(h, db, id, journal, period, date, actor, now, lines) == Ok(after)
    requires forall k :: 0 <= k < |lines| ==> IsSystemLine(lines[k], date)
    ensures lines == [] ==> after == db
    ensures lines != [] ==> id !in db.moves && id in after.moves && IsSystemRow(after, id, journal, period, date, actor, now) && after.moves[id].lines == lines
                            && AddsRow(db, after, "account_move", id, "POST", actor, now)
    ensures OnlyPosts(db, after) && forall m :: m != id ==> (m in after.moves <==> m in db.moves) && (m in db.moves ==> after.moves[m] == db.moves[m])
  {
    if lines != [] {
      var e := Entry(journal, period, date, None, Some(actor), Some(actor), now, lines);
      InsertFits(h, db, id, e);
      PostingLogged(h, db, id, e, PostRow(h, db, id, e).value, id, "POST", actor, now);
      hide InsertPosted, PostRow, Balanced, NumberFree, AccountsKnown, AddsRow, OnlyPosts, IsSystemLine, SequenceName;
    }
  }

  ghost predicate IsClosing(db: Db, m: Id, journal: Id, period: Id, date: Date, actor: Id, now: nat, currency: string) {
    IsSystemRow(db, m, journal, period, date, actor, now) && AllIn(db.moves[m].lines, currency)
  }

  ghost predicate IsOpening(db: Db, m: Id, journal: Id, period: Id, date: Date, actor: Id, now: nat, rows: seq<Group>) {
    && IsSystemRow(db, m, journal, period, date, actor, now) && |db.moves[m].lines| == |rows|
    && forall k :: 0 <= k < |rows| ==> GroupOf(db.moves[m].lines[k]) == rows[k]
  }

  /** No move but these two, where they are posted, comes, goes or changes. */
  ghost predicate OthersStay(db: Db, after: Db, swept: bool, closingId: Id, carried: bool, openingId: Id) {
    forall m :: !(swept && m == closingId) && !(carried && m == openingId) ==>
      (m in after.moves <==> m in db.moves) && (m in db.moves ==> after.moves[m] == db.moves[m])
  }

  /** A close that commits posts the closing move in the last period, on the last day and in functional currency, exactly if there is a result
      to sweep; the opening move in the first period of the next year, on its first day, exactly if there are groups to carry, with one
      line for each; marks the year as closed and logs that last. No other row of any table changes. */
  lemma CloseWrites(h: Hashers, db: Db, y: Id, journal: Id, retained: Id, actor: Id, closingId: Id, openingId: Id, now: nat,
                    periodRows: seq<Id>, resultRows: seq<Id>, openingRows: seq<Group>, after: Db) returns (c: Id, n: Id, p: Id, r: Id)
    requires YearKeys(db) && PeriodsOf(db, y, periodRows)
    requires CloseYear(h, db, y, journal, retained, actor, closingId, openingId, now, periodRows, resultRows, openingRows) == Ok(after)
    requires y in db.years && Lists(resultRows, ResultGroups(db, db.years[y].end))
    ensures db.config.Some? && n in db.years && MayClose(db, y, journal, retained, actor, c, n, p, r)
    ensures after.years == db.years[y := Year(db.years[y].number, db.years[y].start, db.years[y].end, true)]
    ensures OnlyPosts(db, after.(years := db.years)) && LogsLast(after, "fiscal_year", y, "CLOSE", actor, now)
    ensures var swept, carried := HasResult(db, db.years[y].end), openingRows != [];
      && (swept ==> closingId !in db.moves && IsClosing(after, closingId, journal, c, db.years[y].end, actor, now, db.config.value.currency))
      && (carried ==> openingId !in db.moves && IsOpening(after, openingId, journal, p, db.years[n].start, actor, now, openingRows))
      && OthersStay(db, after, swept, closingId, carried, openingId)
  {
    hide *;
    var s := CloseHas(h, db, y, journal, retained, actor, closingId, openingId, now, periodRows, resultRows, openingRows, after);
    c, n, p, r := s.closingPeriod, s.successor, s.openingPeriod, s.retained;
    PreparedIs(db, y, journal, retained, actor, periodRows, s);
    CloseParts(db, y, journal, retained, actor, s);
    var closed, lines, finished := WriteCloseIs(h, db, y, journal, s, actor, closingId, openingId, now, resultRows, openingRows, after);
    ClosesIs(h, db, y, journal, s, actor, closingId, openingId, now, resultRows, openingRows, closed, lines, finished);
    var asOf := db.years[y].end;
    ClosingFields(db, asOf, r, s.currency, resultRows);
    SystemMoveWrites(h, db, closingId, journal, c, asOf, actor, now, ClosingLines(db, asOf, r, s.currency, resultRows), closed);
    OpeningFields(closed, asOf, s.currency, openingRows, lines);
    SystemMoveWrites(h, closed, openingId, journal, p, asOf + 1, actor, now, lines, finished);
    SameYears(db, closed);
    SameYears(closed, finished);
    MarkedClosed(h, finished, y, actor, now, after);
    OnlyPostsTwice(db, closed, finished, after);
    if HasResult(db, asOf) {
      ClosingStays(closed, finished, closingId, journal, c, asOf, actor, now, s.currency);
      ClosingStays(finished, after, closingId, journal, c, asOf, actor, now, s.currency);
    }
    if openingRows != [] {
      OpeningStays(finished, after, openingId, journal, p, asOf + 1, actor, now, openingRows);
    }
    TwoMoves(db, closed, finished, after, HasResult(db, asOf), closingId, openingRows != [], openingId);
  }

  lemma ClosingStays(db: Db, after: Db, m: Id, journal: Id, period: Id, date: Date, actor: Id, now: nat, currency: string)
    requires m in db.moves && m in after.moves && after.moves[m] == db.moves[m]
    requires IsSystemRow(db, m, journal, period, date, actor, now) && AllIn(db.moves[m].lines, currency)
    ensures IsSystemRow(after, m, journal, period, date, actor, now) && AllIn(after.moves[m].lines, currency)
    ensures IsClosing(after, m, journal, period, date, actor, now, currency)
  {
    hide IsSystemLine, AllIn;
  }

  lemma OpeningStays(db: Db, after: Db, m: Id, journal: Id, period: Id, date: Date, actor: Id, now: nat, rows: seq<Group>)
    requires m in db.moves && m in after.moves && after.moves[m] == db.moves[m] && IsSystemRow(db, m, journal, period, date, actor, now)
    requires |db.moves[m].lines| == |rows| && forall k :: 0 <= k < |rows| ==> GroupOf(db.moves[m].lines[k]) == rows[k]
    ensures IsOpening(after, m, journal, period, date, actor, now, rows)
  {
    hide IsSystemLine;
  }

  lemma TwoMoves(db: Db, closed: Db, finished: Db, after: Db, swept: bool, closingId: Id, carried: bool, openingId: Id)
    requires after.moves == finished.moves && (!swept ==> closed.moves == db.moves) && (!carried ==> finished.moves == closed.moves)
    requires forall m :: m != closingId ==> (m in closed.moves <==> m in db.moves) && (m in db.moves ==> closed.moves[m] == db.moves[m])
    requires forall m :: m != openingId ==> (m in finished.moves <==> m in closed.moves) && (m in closed.moves ==> finished.moves[m] == closed.moves[m])
    ensures OthersStay(db, after, swept, closingId, carried, openingId)
  {
  }

  lemma CloseHas(h: Hashers, db: Db, y: Id, journal: Id, retained: Id, actor: Id, closingId: Id, openingId: Id, now: nat,
                 periodRows: seq<Id>, resultRows: seq<Id>, openingRows: seq<Group>, after: Db) returns (s: CloseSetup)
    requires PeriodsOf(db, y, periodRows)
    requires CloseYear(h, db, y, journal, retained, actor, closingId, openingId, now, periodRows, resultRows, openingRows) == Ok(after)
    ensures PrepareClose(db, y, journal, retained, actor, periodRows) == Ok(s)
    ensures y in db.years && s.successor in db.years
    ensures WriteClose(h, db, y, journal, s, actor, closingId, openingId, now, resultRows, openingRows) == Ok(after)
  {
    PreparedIsHardClosed(db, y, journal, retained, actor, periodRows);
    hide PrepareClose, WriteClose, PeriodsOf;
    s := PrepareClose(db, y, journal, retained, actor, periodRows).value;
  }

  lemma CloseParts(db: Db, y: Id, journal: Id, retained: Id, actor: Id, s: CloseSetup)
    requires MayClose(db, y, journal, retained, actor, s.closingPeriod, s.successor, s.openingPeriod, s.retained)
    ensures y in db.years && db.config.Some? && s.successor in db.years && db.years[s.successor].start == db.years[y].end + 1
  {
  }

  lemma ClosesIs(h: Hashers, db: Db, y: Id, journal: Id, s: CloseSetup, actor: Id, closingId: Id, openingId: Id, now: nat,
                 resultRows: seq<Id>, openingRows: seq<Group>, closed: Db, lines: seq<Line>, finished: Db)
    requires Closes(h, db, y, journal, s, actor, closingId, openingId, now, resultRows, openingRows, closed, lines, finished)
    ensures y in db.years && s.successor in db.years
    ensures SystemMove(h, db, closingId, journal, s.closingPeriod, db.years[y].end, actor, now,
                       ClosingLines(db, db.years[y].end, s.retained, s.currency, resultRows)) == Ok(closed)
    ensures OpeningLines(closed, db.years[y].end, s.currency, openingRows) == Ok(lines)
    ensures SystemMove(h, closed, openingId, journal, s.openingPeriod, db.years[s.successor].start, actor, now, lines) == Ok(finished)
  {
    hide SystemMove, OpeningLines, ClosingLines;
  }

  lemma SameYears(db: Db, after: Db)
    requires OnlyPosts(db, after)
    ensures after.years == db.years
  {
  }

  lemma MarkedClosed(h: Hashers, finished: Db, y: Id, actor: Id, now: nat, after: Db)
    requires y in finished.years && after == YearClosed(Logged(h, finished, "fiscal_year", y, "CLOSE", actor, "", now), y)
    ensures after == finished.(years := after.years, audit := after.audit) && LogsLast(after, "fiscal_year", y, "CLOSE", actor, now)
    ensures after.years == finished.years[y := Year(finished.years[y].number, finished.years[y].start, finished.years[y].end, true)]
  {
  }

  lemma OnlyPostsTwice(db: Db, closed: Db, finished: Db, after: Db)
    requires OnlyPosts(db, closed) && OnlyPosts(closed, finished) && after == finished.(years := after.years, audit := after.audit)
    ensures OnlyPosts(db, after.(years := db.years))
  {
  }

  // When it commits as a whole.

  /** Some balance sheet group is left to carry once the result is swept. */
  ghost predicate HasSheet(db: Db, asOf: Date, r: Id, currency: string) {
    exists g :: OnSheet(db, g) && (NetAfterClose(db, asOf, r, currency, g) != 0 || GroupForeign(db, asOf, g) != 0)
  }

  /** No posted move carries the name printed from number k under the prefix of the journal. */
  ghost predicate NameFree(db: Db, j: Id, k: int) {
    && j in db.journals && db.journals[j].next >= 1 && k >= 1
    && forall m :: m in db.moves && db.moves[m].state == Posted ==> db.moves[m].name != SequenceName(db.journals[j].prefix, k)
  }

  lemma SystemMoveFits(h: Hashers, db: Db, id: Id, journal: Id, period: Id, date: Date, actor: Id, now: nat, lines: seq<Line>)
    ensures SystemMove(h, db, id, journal, period, date, actor, now, lines).Ok? <==>
            lines == [] || (Balanced(lines) && id !in db.moves && NumberFree(db, journal) && period in db.periods && AccountsKnown(db, lines))
  {
    InsertFits(h, db, id, Entry(journal, period, date, None, Some(actor), Some(actor), now, lines));
    hide InsertPosted, Balanced, NumberFree, AccountsKnown;
  }

  lemma {:induction false} SweepKnown(db: Db, asOf: Date, currency: string, rows: seq<Id>)
    requires forall a :: a in rows ==> a in db.accounts
    ensures AccountsKnown(db, SweepLines(db, asOf, currency, rows))
  {
    hide NetUpTo;
    if rows != [] {
      SweepKnown(db, asOf, currency, rows[..|rows| - 1]);
    }
  }

  lemma ClosingKnown(db: Db, asOf: Date, r: Id, currency: string, rows: seq<Id>)
    requires Lists(rows, ResultGroups(db, asOf)) && r in db.accounts
    ensures AccountsKnown(db, ClosingLines(db, asOf, r, currency, rows))
  {
    SweepKnown(db, asOf, currency, rows);
    hide SweepLines, Swept, NetUpTo;
  }

  /** The closing move can be posted exactly if there is nothing to sweep or its id and its name are free. */
  lemma ClosingCommits(h: Hashers, db: Db, id: Id, journal: Id, c: Id, asOf: Date, actor: Id, now: nat, r: Id, currency: string, rows: seq<Id>)
    requires Lists(rows, ResultGroups(db, asOf)) && r in db.accounts && c in db.periods && journal in db.journals
    ensures SystemMove(h, db, id, journal, c, asOf, actor, now, ClosingLines(db, asOf, r, currency, rows)).Ok? <==>
            (HasResult(db, asOf) ==> id !in db.moves && NumberFree(db, journal))
  {
    hide *;
    SystemMoveFits(h, db, id, journal, c, asOf, actor, now, ClosingLines(db, asOf, r, currency, rows));
    ClosingLinesBalanced(db, asOf, r, currency, rows);
    ClosingFields(db, asOf, r, currency, rows);
    ClosingKnown(db, asOf, r, currency, rows);
  }

  /** After the closing move the next name is one number on, if there was a closing move. */
  lemma NumberAfterClosing(h: Hashers, db: Db, closed: Db, id: Id, journal: Id, c: Id, asOf: Date, actor: Id, now: nat, lines: seq<Line>)
    requires SystemMove(h, db, id, journal, c, asOf, actor, now, lines) == Ok(closed) && journal in db.journals
    ensures closed.accounts == db.accounts && closed.periods == db.periods && forall m :: m != id ==> (m in closed.moves <==> m in db.moves)
    ensures lines != [] ==> id !in db.moves && id in closed.moves
    ensures lines == [] ==> closed == db
    ensures NumberFree(closed, journal) <==> NameFree(db, journal, db.journals[journal].next + if lines == [] then 0 else 1)
  {
    if lines != [] {
      var e := Entry(journal, c, asOf, None, Some(actor), Some(actor), now, lines);
      InsertFits(h, db, id, e);
      RowPosts(h, db, id, e, PostRow(h, db, id, e).value);
      hide InsertPosted, PostRow, Balanced, AccountsKnown, SequenceName;
      NamesAfter(db, closed, id, journal, e);
    }
  }

  lemma NamesAfter(db: Db, closed: Db, id: Id, journal: Id, e: Entry)
    requires e.journal == journal && PostsOne(db, closed, id, e)
    requires id !in db.moves
    ensures NumberFree(closed, journal) <==> NameFree(db, journal, db.journals[journal].next + 1)
  {
    hide SequenceName;
    var prefix, n := db.journals[journal].prefix, db.journals[journal].next;
    if SequenceName(prefix, n) == SequenceName(prefix, n + 1) {
      NameInjective(prefix, n, n + 1);
      assert false;
    }
    if NumberFree(closed, journal) {
      forall m | m in db.moves && db.moves[m].state == Posted
        ensures db.moves[m].name != SequenceName(prefix, n + 1)
      {
        assert closed.moves[m] == db.moves[m];
      }
    }
  }

  lemma CarriedIfLeft(db: Db, closed: Db, asOf: Date, r: Id, currency: string, rows: seq<Id>, openingRows: seq<Group>)
    requires Lists(rows, ResultGroups(db, asOf)) && closed.accounts == db.accounts
    requires ClosingPosted(db, closed, asOf, ClosingLines(db, asOf, r, currency, rows)) && OpeningRows(closed, asOf, openingRows)
    ensures openingRows != [] <==> HasSheet(db, asOf, r, currency)
  {
    hide GroupNet, GroupForeign, ClosingPosted, ClosingLines, Lists, OpeningRows, NetAfterClose;
    forall g
      ensures g in openingRows <==> OnSheet(db, g) && (NetAfterClose(db, asOf, r, currency, g) != 0 || GroupForeign(db, asOf, g) != 0)
    {
      OpensIffLeft(closed, asOf, openingRows, g);
      if OnSheet(db, g) {
        GroupAfterClose(db, closed, asOf, r, currency, rows, g);
      }
    }
    if openingRows != [] {
      assert openingRows[0] in openingRows;
    }
  }

  lemma GroupsKnown(db: Db, asOf: Date, rows: seq<Group>)
    requires OpeningRows(db, asOf, rows)
    ensures AccountsKnown(db, GroupLines(db, asOf, rows)) && |GroupLines(db, asOf, rows)| == |rows|
  {
    hide GroupNet, GroupForeign;
    forall i | 0 <= i < |rows|
      ensures GroupLines(db, asOf, rows)[i].account in db.accounts
    {
      assert OpeningGroup(db, asOf, rows[i]);
    }
  }

  lemma WriteCommits(h: Hashers, db: Db, y: Id, journal: Id, s: CloseSetup, actor: Id, closingId: Id, openingId: Id, now: nat,
                     resultRows: seq<Id>, openingRows: seq<Group>)
    requires y in db.years && s.successor in db.years
    ensures WriteClose(h, db, y, journal, s, actor, closingId, openingId, now, resultRows, openingRows).Ok? <==>
            var asOf := db.years[y].end;
            var closing := SystemMove(h, db, closingId, journal, s.closingPeriod, asOf, actor, now,
                                      ClosingLines(db, asOf, s.retained, s.currency, resultRows));
            closing.Ok? &&
            var lines := OpeningLines(closing.value, asOf, s.currency, openingRows);
            lines.Ok? && SystemMove(h, closing.value, openingId, journal, s.openingPeriod, db.years[s.successor].start, actor, now, lines.value).Ok?
  {
    hide SystemMove, OpeningLines, ClosingLines;
  }

  /** A close that may begin commits exactly if every group that is carried has what it needs, and the ids and names of the moves it
      posts are free: the closing move if there is a result, the opening move if there are groups to carry. */
  lemma CloseCommits(h: Hashers, db: Db, y: Id, journal: Id, retained: Id, actor: Id, closingId: Id, openingId: Id, now: nat,
                     periodRows: seq<Id>, resultRows: seq<Id>, openingRows: seq<Group>, c: Id, n: Id, p: Id, r: Id)
    requires Inv(h, db) && PeriodsOf(db, y, periodRows) && MayClose(db, y, journal, retained, actor, c, n, p, r)
    requires Lists(resultRows, ResultGroups(db, db.years[y].end))
    requires forall closed ::
               SystemMove(h, db, closingId, journal, c, db.years[y].end, actor, now,
                          ClosingLines(db, db.years[y].end, r, db.config.value.currency, resultRows)) == Ok(closed)
               ==> OpeningRows(closed, db.years[y].end, openingRows)
    ensures var asOf, currency, next := db.years[y].end, db.config.value.currency, db.journals[journal].next;
      CloseYear(h, db, y, journal, retained, actor, closingId, openingId, now, periodRows, resultRows, openingRows).Ok? <==>
        && (forall g :: !LacksForeign(db, asOf, currency, g)) && (forall g :: !LacksNet(db, asOf, r, currency, g))
        && (HasResult(db, asOf) ==> closingId !in db.moves && NameFree(db, journal, next))
        && (HasSheet(db, asOf, r, currency) ==>
              && openingId !in db.moves && !(HasResult(db, asOf) && openingId == closingId)
              && NameFree(db, journal, if HasResult(db, asOf) then next + 1 else next))
  {
    hide *;
    KeysOfSound(h, db);
    MayCloseParts(db, y, journal, retained, actor, c, n, p, r);
    var asOf, currency := db.years[y].end, db.config.value.currency;
    var s := CloseSetup(c, n, p, r, currency);
    PreparedIs(db, y, journal, retained, actor, periodRows, s);
    CloseIsWrite(h, db, y, journal, retained, actor, closingId, openingId, now, periodRows, resultRows, openingRows, s);
    WriteCommits(h, db, y, journal, s, actor, closingId, openingId, now, resultRows, openingRows);
    ClosingCommits(h, db, closingId, journal, c, asOf, actor, now, r, currency, resultRows);
    FreeNow(db, journal);
    var lines := ClosingLines(db, asOf, r, currency, resultRows);
    var closing := SystemMove(h, db, closingId, journal, c, asOf, actor, now, lines);
    if closing.Ok? {
      var closed := closing.value;
      ClosingFields(db, asOf, r, currency, resultRows);
      NumberAfterClosing(h, db, closed, closingId, journal, c, asOf, actor, now, lines);
      SystemMovePosted(h, db, closingId, journal, c, asOf, actor, now, lines, closed);
      CarriedIfLeft(db, closed, asOf, r, currency, resultRows, openingRows);
      OpeningFigures(h, db, y, journal, s, actor, closingId, now, resultRows, openingRows, closed);
      AllLacking(h, db, y, journal, s, actor, closingId, now, resultRows, openingRows, closed);
      OpeningAccepted(closed, asOf, openingRows);
      GroupsKnown(closed, asOf, openingRows);
      SystemMoveFits(h, closed, openingId, journal, p, db.years[n].start, actor, now, GroupLines(closed, asOf, openingRows));
    }
  }

  lemma KeysOfSound(h: Hashers, db: Db)
    requires Inv(h, db)
    ensures YearKeys(db)
  {
  }

  lemma MayCloseParts(db: Db, y: Id, journal: Id, retained: Id, actor: Id, c: Id, n: Id, p: Id, r: Id)
    requires MayClose(db, y, journal, retained, actor, c, n, p, r)
    ensures y in db.years && n in db.years && c in db.periods && p in db.periods && journal in db.journals && db.config.Some?
    ensures r in db.accounts && ActiveOfKind(db, r, Equity)
  {
  }

  lemma FreeNow(db: Db, j: Id)
    requires j in db.journals
    ensures NumberFree(db, j) <==> NameFree(db, j, db.journals[j].next)
  {
    hide SequenceName;
  }

  lemma CloseIsWrite(h: Hashers, db: Db, y: Id, journal: Id, retained: Id, actor: Id, closingId: Id, openingId: Id, now: nat,
                     periodRows: seq<Id>, resultRows: seq<Id>, openingRows: seq<Group>, s: CloseSetup)
    requires PeriodsOf(db, y, periodRows) && PrepareClose(db, y, journal, retained, actor, periodRows) == Ok(s)
    requires y in db.years && s.successor in db.years
    ensures CloseYear(h, db, y, journal, retained, actor, closingId, openingId, now, periodRows, resultRows, openingRows)
            == WriteClose(h, db, y, journal, s, actor, closingId, openingId, now, resultRows, openingRows)
  {
    hide PrepareClose, WriteClose, PeriodsOf;
  }
}
