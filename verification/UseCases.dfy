/** Use cases that read, decide and then call one transaction, here without anyone in between. */
module UseCases {
  import opened Sums
  import opened Ledger
  import opened MoveNames
  import opened Rounding
  import opened Tables
  import opened Steps
  import opened PostingOutcomes
  import opened PostingKeeps
  import opened OperationsKeep
  import opened PostRace
  import opened Ingest
  import opened Transactions
  import opened Repository

  /** The period found for a date, if it takes postings: CanPost. */
  function PostingPeriod(db: Db, found: Option<Id>): Result<Id> {
    var _ :- Need(found.Some? && found.value in db.periods, PeriodNotFound);
    var _ :- Need(db.periods[found.value].state == Open, PeriodClosed);
    Ok(found.value)
  }

  // Posting a draft.

  function StoredMove(db: Db, id: Id): Loaded
    requires id in db.moves
  {
    Header(db, id).(lines := LinesOf(db, id))
  }

  ghost function PostStored(h: Hashers, db: Db, id: Id, actor: Id, threshold: Amount, found: Option<Id>, now: nat): Result<Db> {
    var _ :- Need(id in db.moves, MoveNotFound);
    var move := StoredMove(db, id);
    var _ :- Need(move.state == Draft, MoveAlreadyPosted);
    var _ :- Need(Balanced(move.lines), InvalidMove);
    var _ :- Need(actor != 0, ActorMissing);
    var _ :- Need(AboveThreshold(move.lines, threshold) ==> Known(move.createdBy), CreatorMissing);
    var _ :- Need(AboveThreshold(move.lines, threshold) ==> move.createdBy != Some(actor), MakerChecksOwn);
    var period :- PostingPeriod(db, found);
    PostDraft(h, db, move.(period := period), actor, now)
  }

  /** PostMoveUseCase.Execute. Where it does not get as far as the lookup, any answer to it will do. */
  method PostMove(repo: PostgresRepository, id: Id, actor: Id, threshold: Amount, now: nat) returns (r: Result<()>, ghost found: Option<Id>)
    modifies repo
    ensures id in old(repo.Tables()).moves ==> LooksUp(old(repo.Tables()), old(repo.Tables()).moves[id].date, found)
    ensures Did(old(repo.Tables()), PostStored(repo.hashers, old(repo.Tables()), id, actor, threshold, found, now), r, repo.Tables())
    ensures r.Ok? ==>
              id in old(repo.Tables()).moves &&
              var row := old(repo.Tables()).moves[id];
              threshold > 0 && SumSeq(row.lines, Debit) > threshold ==>
                row.createdBy.Some? && row.createdBy.value != 0 && row.createdBy.value != actor
  {
    hide PostDraft, Balanced, LooksUp, AboveThreshold;
    found := None;
    var tables := repo.Begin();
    if id !in tables.moves {
      return Err(MoveNotFound), found;
    }
    found := SomeAnswer(tables, tables.moves[id].date);
    var move := StoredMove(tables, id);
    var refused := CheckPost(move, actor, threshold);
    if refused.Some? {
      match refused.value
      case AlreadyPosted => return Err(MoveAlreadyPosted), found;
      case NotBalanced(_) => return Err(InvalidMove), found;
      case ActorRequired => return Err(ActorMissing), found;
      case CreatorRequired => return Err(CreatorMissing), found;
      case MakerIsChecker => return Err(MakerChecksOwn), found;
    }
    var answer := PeriodByDate(tables, move.date);
    found := answer;
    var period := PostingPeriod(tables, answer);
    if period.Err? {
      return Err(period.error), found;
    }
    r := repo.PostMoveAtomic(move.(period := period.value), actor, now);
  }

  /** A stored draft is posted exactly if it is balanced, there is an actor, the lookup answers with the period it was saved into, that period is
      open on its date, its accounts are there and the next number of its journal is free; if a threshold is set and its debits
      add up to more, also if its creator is known and not the actor. */
  lemma StoredPostCommits(h: Hashers, db: Db, id: Id, actor: Id, threshold: Amount, found: Option<Id>, now: nat)
    ensures PostStored(h, db, id, actor, threshold, found, now).Ok? <==>
            id in db.moves &&
            var row := db.moves[id];
            && row.state == Draft && Balanced(row.lines) && actor != 0
            && (threshold > 0 && SumSeq(row.lines, Debit) > threshold ==>
                  row.createdBy.Some? && row.createdBy.value != 0 && row.createdBy.value != actor)
            && found == Some(row.period) && PeriodTakes(db, row.period, row.date)
            && AccountsKnown(db, row.lines) && NumberFree(db, row.journal)
  {
    hide PostDraft, Balanced, NumberFree, AccountsKnown;
    if id in db.moves && found.Some? {
      PostCommits(h, db, StoredMove(db, id).(period := found.value), actor, now);
    }
  }

  /** Without a threshold, or with debits up to it, the creator of a draft plays no part in whether it is posted. */
  lemma CreatorPlaysNoPart(h: Hashers, db: Db, id: Id, actor: Id, threshold: Amount, found: Option<Id>, now: nat, creator: Option<Id>)
    requires id in db.moves && (threshold <= 0 || SumSeq(db.moves[id].lines, Debit) <= threshold)
    ensures var other := db.(moves := db.moves[id := db.moves[id].(createdBy := creator)]);
            PostStored(h, other, id, actor, threshold, found, now).Ok? <==> PostStored(h, db, id, actor, threshold, found, now).Ok?
  {
    var other := db.(moves := db.moves[id := db.moves[id].(createdBy := creator)]);
    StoredPostCommits(h, db, id, actor, threshold, found, now);
    StoredPostCommits(h, other, id, actor, threshold, found, now);
    NumberFreeFor(db, other, db.moves[id].journal);
    hide PostStored, Balanced, NumberFree;
  }

  lemma NumberFreeFor(db: Db, other: Db, j: Id)
    requires other.journals == db.journals && other.moves.Keys == db.moves.Keys
    requires forall m :: m in db.moves ==> other.moves[m].state == db.moves[m].state && other.moves[m].name == db.moves[m].name
    ensures NumberFree(other, j) <==> NumberFree(db, j)
  {
    hide SequenceName;
  }

  /** An accepted draft whose number and accounts are in order is posted exactly if the lookup answers with the period it was saved
      into; otherwise, if the answer is open, the transaction reports that the move has changed. */
  lemma PostsInPeriodOfDate(h: Hashers, db: Db, id: Id, actor: Id, threshold: Amount, found: Option<Id>, now: nat)
    requires id in db.moves && MayPost(StoredMove(db, id), actor, threshold)
    requires LooksUp(db, db.moves[id].date, found) && PostingPeriod(db, found).Ok?
    requires LinesHold(db, db.moves[id].lines) && NextSequence(db, db.moves[id].journal).Ok?
    requires ReferencesHold(db, db.moves[id].journal, db.moves[id].period, db.moves[id].lines)
    requires !NameTaken(db, NextSequence(db, db.moves[id].journal).value)
    ensures var r := PostStored(h, db, id, actor, threshold, found, now);
            if found == Some(db.moves[id].period) then r.Ok? else r == Err(MoveChanged)
  {
    hide Balanced, NameTaken, LinesHold, AboveThreshold;
    assert IsPeriodOf(db, db.moves[id].date, found.value);
  }

  // A second year over the same days.

  /** Periods are whole months: every day of a period belongs to the month that starts with the period. */
  ghost predicate Monthly(periods: map<Id, Period>, monthStart: Date -> Date) {
    forall p, day {:trigger InPeriod(periods, p, day)} :: InPeriod(periods, p, day) ==> monthStart(day) == periods[p].start
  }

  predicate InPeriod(periods: map<Id, Period>, p: Id, day: Date) {
    p in periods && Covers(periods[p], day)
  }

  /** Of whole months all that cover a date start together, so that the lookup may answer with any of them. */
  lemma MonthsTie(db: Db, monthStart: Date -> Date, date: Date, p: Id)
    requires Monthly(db.periods, monthStart)
    ensures LooksUp(db, date, Some(p)) <==> InPeriod(db.periods, p, date)
  {
    if InPeriod(db.periods, p, date) {
      forall q | q in db.periods && Covers(db.periods[q], date)
        ensures db.periods[q].start == db.periods[p].start
      {
        assert InPeriod(db.periods, q, date);
      }
    }
  }

  /** Years may overlap. If a year of whole months is created one of whose periods covers the date of a saved draft, the lookup may
      answer with the period of the draft, as before, or with the new one; then posting the draft is refused as changed. */
  lemma OverlapMayBlockDraft(h: Hashers, db: Db, y: Id, year: Year, periods: map<Id, Period>, after: Db, monthStart: Date -> Date, q: Id,
                             id: Id, actor: Id, threshold: Amount, now: nat)
    requires Inv(h, db) && CreateYear(db, y, year, periods) == Ok(after) && Monthly(after.periods, monthStart)
    requires id in db.moves && MayPost(StoredMove(db, id), actor, threshold)
    requires LooksUp(db, db.moves[id].date, Some(db.moves[id].period)) && InPeriod(periods, q, db.moves[id].date)
    ensures Inv(h, after) && id in after.moves && after.moves[id] == db.moves[id]
    ensures LooksUp(after, db.moves[id].date, Some(db.moves[id].period)) && LooksUp(after, db.moves[id].date, Some(q))
    ensures PostStored(h, after, id, actor, threshold, Some(q), now) == Err(MoveChanged)
    ensures PostStored(h, after, id, actor, threshold, Some(db.moves[id].period), now).Ok?
            <==> PostStored(h, db, id, actor, threshold, Some(db.moves[id].period), now).Ok?
  {
    hide *;
    CreateYearKeeps(h, db, y, year, periods, after);
    NewPeriodCovers(db, y, year, periods, after, db.moves[id].date, db.moves[id].period, q);
    MonthsTie(after, monthStart, db.moves[id].date, db.moves[id].period);
    MonthsTie(after, monthStart, db.moves[id].date, q);
    KeptStored(db, after, id);
    StaleDraftRefused(h, after, id, actor, threshold, q, now);
    SamePostOutcome(h, db, after, id, actor, threshold, now);
  }

  lemma NewPeriodCovers(db: Db, y: Id, year: Year, periods: map<Id, Period>, after: Db, date: Date, own: Id, q: Id)
    requires CreateYear(db, y, year, periods) == Ok(after) && LooksUp(db, date, Some(own)) && InPeriod(periods, q, date)
    ensures InPeriod(after.periods, own, date) && InPeriod(after.periods, q, date) && after.periods[q].state == Open && q != own
    ensures OtherPeriods(db, after, own)
  {
    assert after == WithYear(db, y, year, periods) && PeriodsFit(db, y, periods);
  }

  lemma KeptStored(db: Db, after: Db, id: Id)
    requires id in db.moves && OtherPeriods(db, after, db.moves[id].period)
    ensures after.moves == db.moves && StoredMove(after, id) == StoredMove(db, id)
  {
  }

  lemma SameStored(db: Db, after: Db, id: Id)
    requires after.moves == db.moves && id in db.moves
    ensures StoredMove(after, id) == StoredMove(db, id)
  {
  }

  lemma StaleDraftRefused(h: Hashers, db: Db, id: Id, actor: Id, threshold: Amount, p: Id, now: nat)
    requires id in db.moves && MayPost(StoredMove(db, id), actor, threshold)
    requires InPeriod(db.periods, p, db.moves[id].date) && db.periods[p].state == Open && db.moves[id].period != p
    ensures PostStored(h, db, id, actor, threshold, Some(p), now) == Err(MoveChanged)
  {
    hide Balanced, AboveThreshold, NameTaken, PreviousHash, LinesHold;
  }

  /** The tables differ in years and in periods other than these. */
  ghost predicate OtherPeriods(db: Db, after: Db, period: Id) {
    && after == db.(years := after.years, periods := after.periods)
    && period in db.periods && period in after.periods && after.periods[period] == db.periods[period]
  }

  lemma SameRowOutcome(h: Hashers, db: Db, after: Db, id: Id, e: Entry)
    requires OtherPeriods(db, after, e.period)
    ensures PostRow(h, after, id, e).Ok? <==> PostRow(h, db, id, e).Ok?
  {
    assert forall name :: NameTaken(after, name) == NameTaken(db, name);
    assert LinesHold(after, e.lines) == LinesHold(db, e.lines);
    hide PreviousHash, NameTaken, LinesHold;
  }

  lemma SameDraftOutcome(h: Hashers, db: Db, after: Db, move: Loaded, actor: Id, now: nat)
    requires OtherPeriods(db, after, move.period)
    ensures PostDraft(h, after, move, actor, now).Ok? <==> PostDraft(h, db, move, actor, now).Ok?
  {
    assert LinesHold(after, move.lines) == LinesHold(db, move.lines);
    if move.id in db.moves && db.moves[move.id].period == move.period {
      var row := db.moves[move.id];
      SameRowOutcome(h, db, after, move.id,
        Entry(row.journal, row.period, row.date, row.reverses, Some(actor), row.createdBy, now, move.lines));
    }
    hide PostRow, LinesHold, Balanced;
  }

  /** Whether a post goes through does not depend on other years and periods. */
  lemma SamePostOutcome(h: Hashers, db: Db, after: Db, id: Id, actor: Id, threshold: Amount, now: nat)
    requires id in db.moves && OtherPeriods(db, after, db.moves[id].period)
    ensures PostStored(h, after, id, actor, threshold, Some(db.moves[id].period), now).Ok?
            <==> PostStored(h, db, id, actor, threshold, Some(db.moves[id].period), now).Ok?
  {
    SameStored(db, after, id);
    SameDraftOutcome(h, db, after, StoredMove(db, id), actor, now);
    assert StoredMove(db, id).(period := db.moves[id].period) == StoredMove(db, id);
    hide PostDraft, Balanced, AboveThreshold;
  }

  // Reversal.

  ghost function ReverseStored(h: Hashers, db: Db, original: Id, id: Id, date: Date, found: Option<Id>, actor: Id, now: nat): Result<Db> {
    var _ :- Need(original in db.moves, MoveNotFound);
    var _ :- Need(db.moves[original].state == Posted, CannotReverseUnposted);
    var _ :- Need(|db.moves[original].lines| >= 2, InvalidMove);
    var period :- PostingPeriod(db, found);
    ReverseMove(h, db, original, id, period, date, actor, now)
  }

  /** ReverseMoveUseCase.Execute */
  method Reverse(repo: PostgresRepository, original: Id, id: Id, date: Date, actor: Id, now: nat)
    returns (r: Result<()>, ghost found: Option<Id>)
    modifies repo
    ensures LooksUp(old(repo.Tables()), date, found)
    ensures Did(old(repo.Tables()), ReverseStored(repo.hashers, old(repo.Tables()), original, id, date, found, actor, now), r, repo.Tables())
  {
    hide ReverseMove, LooksUp;
    var tables := repo.Begin();
    found := SomeAnswer(tables, date);
    if original !in tables.moves {
      return Err(MoveNotFound), found;
    }
    if tables.moves[original].state != Posted {
      return Err(CannotReverseUnposted), found;
    }
    if |tables.moves[original].lines| < 2 {
      return Err(InvalidMove), found;
    }
    var answer := PeriodByDate(tables, date);
    found := answer;
    var period := PostingPeriod(tables, answer);
    if period.Err? {
      return Err(period.error), found;
    }
    r := repo.ReverseMoveAtomic(original, id, period.value, date, actor, now);
  }

  /** A reversal by date commits exactly if the move is reversible and the lookup answers with a period that is open on that date. */
  lemma StoredReversalCommits(h: Hashers, db: Db, original: Id, id: Id, date: Date, found: Option<Id>, actor: Id, now: nat)
    ensures ReverseStored(h, db, original, id, date, found, actor, now).Ok? <==>
            Reversible(db, original, id) && found.Some? && PeriodTakes(db, found.value, date)
  {
    hide ReverseMove, NumberFree, AccountsKnown;
    if found.Some? {
      ReversalCommits(h, db, original, id, found.value, date, actor, now);
    }
  }

  // Ingestion.

  datatype Mapping = Mapping(debit: Id, credit: Id, journal: Id, active: bool)

  datatype SubledgerEvent = SubledgerEvent(key: string, amount: Amount, currency: string, date: Date, mapping: Option<Mapping>)

  /** A positive exchange rate, rate / scale. */
  datatype Rate = Rate(rate: int, scale: int)

  predicate IsActive(db: Db, a: Id) {
    a in db.accounts && db.accounts[a].active
  }

  /** What the post of an event writes, or why it is refused. */
  ghost function PostNewEvent(h: Hashers, db: Db, e: SubledgerEvent, rate: Rate, found: Option<Id>, id: Id, now: nat): Result<Db>
    requires rate.scale > 0
  {
    var _ :- Need(e.mapping.Some? && e.mapping.value.active, InvalidRequest);
    var m := e.mapping.value;
    var _ :- Need(IsActive(db, m.debit) && IsActive(db, m.credit), InvalidRequest);
    var period :- PostingPeriod(db, found);
    var _ :- Need(m.journal in db.journals && db.journals[m.journal].active, JournalInactive);
    var _ :- Need(rate.rate > 0, InvalidRequest);
    var functional := RoundDiv(e.amount * rate.rate, rate.scale);
    PostEvent(h, db, e.key, id, m.journal, period, e.date, now, EventLines(m.debit, m.credit, functional, e.amount, e.currency, e.date))
  }

  /** The move of an event: on its date in the mapped journal and the period found, with a debit on one mapped account and a credit of the same
      positive amount on the other, and the event's own amount in its own currency on both. The functional amount is amount
      times rate to the nearest unit of 10^-4, halves up. */
  ghost predicate CarriesEvent(row: Move, e: SubledgerEvent, m: Mapping, rate: Rate, found: Option<Id>) {
    && row.state == Posted && row.journal == m.journal && row.date == e.date && found == Some(row.period) && |row.lines| == 2
    && var f := row.lines[0].debit;
       && row.lines[0] == Line(m.debit, None, None, f, 0, e.amount, e.currency, "", e.date)
       && row.lines[1] == Line(m.credit, None, None, 0, f, -e.amount, e.currency, "", e.date)
       && f > 0 && -rate.scale <= 2 * (e.amount * rate.rate - rate.scale * f) < rate.scale
  }

  /** An event is posted exactly for an active mapping to active accounts and an active journal, a positive rate, a new key and id, an open
      period found for its date, a free number, and an amount that comes to at least half a unit of 10^-4. */
  lemma NewEventCommits(h: Hashers, db: Db, e: SubledgerEvent, rate: Rate, found: Option<Id>, id: Id, now: nat)
    requires rate.scale > 0
    ensures PostNewEvent(h, db, e, rate, found, id, now).Ok? <==>
            e.mapping.Some? &&
            var m := e.mapping.value;
            && m.active && rate.rate > 0 && 2 * (e.amount * rate.rate) >= rate.scale
            && m.debit in db.accounts && db.accounts[m.debit].active && m.credit in db.accounts && db.accounts[m.credit].active
            && m.journal in db.journals && db.journals[m.journal].active && NumberFree(db, m.journal)
            && found.Some? && PeriodTakes(db, found.value, e.date)
            && e.key != "" && e.key !in db.events && id !in db.moves
  {
    hide PostEvent, NumberFree, Balanced;
    if e.mapping.Some? && found.Some? {
      var m, functional := e.mapping.value, RoundDiv(e.amount * rate.rate, rate.scale);
      var lines := EventLines(m.debit, m.credit, functional, e.amount, e.currency, e.date);
      EventLinesBalanced(m.debit, m.credit, functional, e.amount, e.currency, e.date);
      PositiveIfHalf(e.amount * rate.rate, rate.scale);
      EventCommits(h, db, e.key, id, m.journal, found.value, e.date, now, lines);
      assert lines[0].account == m.debit && lines[1].account == m.credit;
      hide RoundDiv;
    }
  }

  lemma PositiveIfHalf(n: int, d: int)
    requires d > 0
    ensures RoundDiv(n, d) > 0 <==> 2 * n >= d
  {
    RoundDivNearest(n, d);
    var q := RoundDiv(n, d);
    if q > 0 {
      assert d * q >= d;
    } else {
      assert d * q <= 0;
    }
  }

  lemma NewEventWrites(h: Hashers, db: Db, e: SubledgerEvent, rate: Rate, found: Option<Id>, id: Id, now: nat, after: Db)
    requires rate.scale > 0 && PostNewEvent(h, db, e, rate, found, id, now) == Ok(after)
    ensures e.mapping.Some? && id !in db.moves && id in after.moves && CarriesEvent(after.moves[id], e, e.mapping.value, rate, found)
    ensures after.moves == db.moves[id := after.moves[id]] && after.events == db.events[e.key := id]
  {
    NewEventCommits(h, db, e, rate, found, id, now);
    var m, functional := e.mapping.value, RoundDiv(e.amount * rate.rate, rate.scale);
    var lines := EventLines(m.debit, m.credit, functional, e.amount, e.currency, e.date);
    EventWrites(h, db, e.key, id, m.journal, found.value, e.date, now, lines, after);
    RoundDivNearest(e.amount * rate.rate, rate.scale);
    PositiveIfHalf(e.amount * rate.rate, rate.scale);
    hide PostEvent, NumberFree, RoundDiv, Balanced;
    assert after.moves[id].lines == Redated(lines, e.date);
  }

  /** GetProcessedEventMove */
  method ProcessedMove(repo: PostgresRepository, key: string) returns (move: Option<Id>)
    ensures move == if key in repo.Tables().events then Some(repo.Tables().events[key]) else None
  {
    var tables := repo.Begin();
    if key in tables.events {
      return Some(tables.events[key]);
    }
    return None;
  }

  /** IngestSubledgerEventUseCase.Execute: a known key answers with its move and changes nothing; a new key posts one move. */
  method IngestEvent(repo: PostgresRepository, e: SubledgerEvent, rate: Rate, id: Id, now: nat)
    returns (r: Result<Id>, ghost found: Option<Id>)
    requires rate.scale > 0
    modifies repo
    ensures LooksUp(old(repo.Tables()), e.date, found)
    ensures e.key in old(repo.Tables()).events ==> r == Ok(old(repo.Tables()).events[e.key]) && repo.Tables() == old(repo.Tables())
    ensures e.key !in old(repo.Tables()).events ==>
              Did(old(repo.Tables()), PostNewEvent(repo.hashers, old(repo.Tables()), e, rate, found, id, now),
                  if r.Ok? then Ok(()) else Err(r.error), repo.Tables())
              && (r.Ok? ==> r.value == id && e.key in repo.Tables().events && repo.Tables().events[e.key] == id
                            && e.mapping.Some? && id !in old(repo.Tables()).moves && id in repo.Tables().moves
                            && CarriesEvent(repo.Tables().moves[id], e, e.mapping.value, rate, found))
  {
    hide PostEvent, LooksUp, EventLines, CarriesEvent;
    found := SomeAnswer(repo.Tables(), e.date);
    var known := ProcessedMove(repo, e.key);
    if known.Some? {
      return Ok(known.value), found;
    }
    var tables := repo.Begin();
    if e.mapping.None? || !e.mapping.value.active {
      return Err(InvalidRequest), found;
    }
    var m := e.mapping.value;
    if !IsActive(tables, m.debit) || !IsActive(tables, m.credit) {
      return Err(InvalidRequest), found;
    }
    var answer := PeriodByDate(tables, e.date);
    found := answer;
    var period := PostingPeriod(tables, answer);
    if period.Err? {
      return Err(period.error), found;
    }
    if m.journal !in tables.journals || !tables.journals[m.journal].active {
      return Err(JournalInactive), found;
    }
    if rate.rate <= 0 {
      return Err(InvalidRequest), found;
    }
    var functional := RoundDiv(e.amount * rate.rate, rate.scale);
    var lines := EventLines(m.debit, m.credit, functional, e.amount, e.currency, e.date);
    var posted := repo.PostNewMoveWithEventAtomic(e.key, id, m.journal, period.value, e.date, now, lines);
    if posted.Err? {
      var existing := ProcessedMove(repo, e.key);
      match existing
      case Some(move) => return Ok(move), found;
      case None => return Err(posted.error), found;
    }
    NewEventWrites(repo.hashers, tables, e, rate, found, id, now, repo.Tables());
    return Ok(id), found;
  }
}
