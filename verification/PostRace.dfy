/** Posting a draft while others edit it: the header, the lines and the locked row are read at three different times. */
module PostRace {
  import opened Sums
  import opened Ledger
  import opened Tables
  import opened Steps
  import opened PostingKeeps
  import opened Runs
  import opened StepEffects
  import opened Scenarios

  // The tests of the use case on the move it holds.

  datatype PostError = AlreadyPosted | NotBalanced(cause: BalanceError) | ActorRequired | CreatorRequired | MakerIsChecker

  predicate Known(creator: Option<Id>) {
    creator.Some? && creator.value != 0
  }

  ghost predicate AboveThreshold(lines: seq<Line>, threshold: Amount) {
    threshold > 0 && SumSeq(lines, Debit) > threshold
  }

  /** Above the threshold the creator has to be known and may not be the poster. */
  ghost predicate Segregated(lines: seq<Line>, creator: Option<Id>, actor: Id, threshold: Amount) {
    AboveThreshold(lines, threshold) ==> Known(creator) && creator.value != actor
  }

  ghost predicate MayPost(move: Loaded, actor: Id, threshold: Amount) {
    move.state == Draft && Balanced(move.lines) && actor != 0 && Segregated(move.lines, move.createdBy, actor, threshold)
  }

  /** The tests of PostMoveUseCase.Execute before it looks up the period. */
  method CheckPost(move: Loaded, actor: Id, threshold: Amount) returns (err: Option<PostError>)
    ensures err.None? <==>
            && move.state == Draft && Balanced(move.lines) && actor != 0
            && (threshold > 0 && SumSeq(move.lines, Debit) > threshold ==>
                  move.createdBy.Some? && move.createdBy.value != 0 && move.createdBy.value != actor)
    ensures err.None? <==> MayPost(move, actor, threshold)
    ensures err == Some(AlreadyPosted) <==> move.state != Draft
    ensures err.Some? && err.value.NotBalanced? <==> move.state == Draft && !Balanced(move.lines)
    ensures err == Some(ActorRequired) <==> move.state == Draft && Balanced(move.lines) && actor == 0
    ensures err == Some(CreatorRequired) <==>
            && move.state == Draft && Balanced(move.lines) && actor != 0
            && threshold > 0 && SumSeq(move.lines, Debit) > threshold && (move.createdBy == None || move.createdBy == Some(0))
    ensures err == Some(MakerIsChecker) <==>
            && move.state == Draft && Balanced(move.lines) && actor != 0
            && threshold > 0 && SumSeq(move.lines, Debit) > threshold && move.createdBy == Some(actor)
  {
    if move.state != Draft {
      return Some(AlreadyPosted);
    }
    var cause := ValidateBalance(move.lines);
    if cause.Some? {
      return Some(NotBalanced(cause.value));
    }
    if actor == 0 {
      return Some(ActorRequired);
    }
    if threshold > 0 {
      var totalDebit := 0;
      for i := 0 to |move.lines|
        invariant totalDebit == SumSeq(move.lines[..i], Debit)
      {
        assert move.lines[..i + 1][..i] == move.lines[..i];
        totalDebit := totalDebit + move.lines[i].debit;
      }
      assert move.lines[..|move.lines|] == move.lines;
      if totalDebit > threshold {
        if move.createdBy.None? || move.createdBy.value == 0 {
          return Some(CreatorRequired);
        }
        if actor == move.createdBy.value {
          return Some(MakerIsChecker);
        }
      }
    }
    return None;
  }

  // Interleavings.

  /** A call of the post use case between two of its database accesses. */
  datatype Session =
    | HeaderRead(move: Loaded)
    | MoveRead(move: Loaded)
    | Approved(move: Loaded, actor: Id)

  /** The committed tables, the calls under way and the stamps that saves have used. */
  datatype World = World(db: Db, sessions: map<nat, Session>, stamps: set<nat>)

  datatype Event =
    | ReadHeader(session: nat, id: Id)
    | ReadLines(session: nat)
    | Approve(session: nat, actor: Id, found: Option<Id>)
    | Commit(session: nat, now: nat)
    | Other(op: Op)

  /** The first query of getMoveByID. */
  function Header(db: Db, id: Id): Loaded
    requires id in db.moves
  {
    var r := db.moves[id];
    Loaded(id, r.journal, r.period, r.date, r.state, r.createdBy, r.updatedAt, [])
  }

  /** The second query of getMoveByID, which finds what is there by then. */
  function LinesOf(db: Db, id: Id): seq<Line> {
    if id in db.moves then db.moves[id].lines else []
  }

  predicate AtHeader(w: World, s: nat) { s in w.sessions && w.sessions[s].HeaderRead? }

  predicate AtMove(w: World, s: nat) { s in w.sessions && w.sessions[s].MoveRead? }

  predicate AtApproval(w: World, s: nat) { s in w.sessions && w.sessions[s].Approved? }

  /** An approval looks up the period of the date. Another transaction may be anything but a post by stamp; a save brings a stamp no
      save has used. */
  ghost predicate Allowed(w: World, e: Event) {
    && (e.Approve? && AtMove(w, e.session) ==> LooksUp(w.db, w.sessions[e.session].move.date, e.found))
    && (e.Other? ==> Legal(w.db, e.op) && !e.op.PostDraftOp? && (e.op.SaveDraftOp? ==> e.op.now > 0 && e.op.now !in w.stamps))
  }

  ghost function Ended(w: World, s: nat): World {
    w.(sessions := w.sessions - {s})
  }

  /** The session holds the move with the period found for its date, if that period is open. */
  ghost function Approval(w: World, s: nat, move: Loaded, actor: Id, found: Option<Id>, threshold: Amount): World {
    if MayPost(move, actor, threshold) && found.Some? && found.value in w.db.periods && w.db.periods[found.value].state == Open
    then w.(sessions := w.sessions[s := Approved(move.(period := found.value), actor)])
    else Ended(w, s)
  }

  ghost function Committed(h: Hashers, w: World, s: nat, move: Loaded, actor: Id, now: nat): World {
    var r := PostDraft(h, w.db, move, actor, now);
    Ended(if r.Ok? then w.(db := r.value) else w, s)
  }

  ghost function Next(h: Hashers, threshold: Amount, w: World, e: Event): World
    requires Allowed(w, e)
  {
    match e
    case ReadHeader(s, id) =>
      if id in w.db.moves then w.(sessions := w.sessions[s := HeaderRead(Header(w.db, id))]) else Ended(w, s)
    case ReadLines(s) =>
      if !AtHeader(w, s) then w else
      var move := w.sessions[s].move;
      w.(sessions := w.sessions[s := MoveRead(move.(lines := LinesOf(w.db, move.id)))])
    case Approve(s, actor, found) => if !AtMove(w, s) then w else Approval(w, s, w.sessions[s].move, actor, found, threshold)
    case Commit(s, now) => if !AtApproval(w, s) then w else Committed(h, w, s, w.sessions[s].move, w.sessions[s].actor, now)
    case Other(op) => w.(db := Step(h, w.db, op), stamps := if op.SaveDraftOp? then w.stamps + {op.now} else w.stamps)
  }

  // What every interleaving keeps.

  ghost predicate StampsKnown(w: World) {
    0 !in w.stamps && forall m :: IsDraft(w.db, m) ==> w.db.moves[m].updatedAt in w.stamps
  }

  predicate SameStamp(db: Db, move: Loaded) {
    IsDraft(db, move.id) && db.moves[move.id].updatedAt == move.updatedAt
  }

  /** While the stored draft still carries the stamp that was read, it has the creator and the lines that were read. */
  ghost predicate Follows(w: World, s: Session) {
    s.move.state == Draft ==>
      && s.move.updatedAt in w.stamps
      && (SameStamp(w.db, s.move) ==>
            && s.move.createdBy == w.db.moves[s.move.id].createdBy
            && (s.HeaderRead? || s.move.lines == w.db.moves[s.move.id].lines))
  }

  ghost predicate Sound(threshold: Amount, w: World) {
    && StampsKnown(w)
    && (forall s :: s in w.sessions ==> Follows(w, w.sessions[s]))
    && (forall s :: AtApproval(w, s) ==> MayPost(w.sessions[s].move, w.sessions[s].actor, threshold))
  }

  /** A draft with a stamp already used was there before, unchanged. */
  ghost predicate OldStampsKept(w: World, after: Db) {
    forall m :: IsDraft(after, m) && after.moves[m].updatedAt in w.stamps ==> IsDraft(w.db, m) && after.moves[m] == w.db.moves[m]
  }

  lemma DbMoves(threshold: Amount, w: World, after: Db, stamps: set<nat>)
    requires Sound(threshold, w) && OldStampsKept(w, after) && w.stamps <= stamps && 0 !in stamps
    requires forall m :: IsDraft(after, m) ==> after.moves[m].updatedAt in stamps
    ensures Sound(threshold, w.(db := after, stamps := stamps))
  {
    forall s | s in w.sessions
      ensures Follows(w.(db := after, stamps := stamps), w.sessions[s])
    {
      assert Follows(w, w.sessions[s]);
    }
  }

  lemma SaveKeepsStamps(w: World, op: Op, after: Db)
    requires op.SaveDraftOp? && op.now !in w.stamps && StampsKnown(w)
    requires SaveDraft(w.db, op.id, op.journal, op.period, op.date, op.createdBy, op.now, op.lines) == Ok(after)
    ensures OldStampsKept(w, after)
    ensures forall m :: IsDraft(after, m) ==> after.moves[m].updatedAt in w.stamps + {op.now}
  {
  }

  lemma StepStamps(h: Hashers, w: World, op: Op)
    requires StampsKnown(w) && Allowed(w, Other(op))
    ensures OldStampsKept(w, Step(h, w.db, op))
    ensures forall m :: IsDraft(Step(h, w.db, op), m) ==>
              Step(h, w.db, op).moves[m].updatedAt in if op.SaveDraftOp? then w.stamps + {op.now} else w.stamps
  {
    var r := Apply(h, w.db, op);
    if r.Ok? {
      if op.SaveDraftOp? {
        SaveKeepsStamps(w, op, r.value);
      } else {
        hide Apply, Legal;
        StepHasEffects(h, w.db, op, r.value);
      }
    }
  }

  lemma OtherKeeps(h: Hashers, threshold: Amount, w: World, op: Op)
    requires Sound(threshold, w) && Allowed(w, Other(op))
    ensures Sound(threshold, Next(h, threshold, w, Other(op)))
  {
    hide Legal, Apply, MayPost, Follows, Step;
    StepStamps(h, w, op);
    DbMoves(threshold, w, Step(h, w.db, op), if op.SaveDraftOp? then w.stamps + {op.now} else w.stamps);
  }

  lemma EndedKeeps(threshold: Amount, w: World, s: nat)
    requires Sound(threshold, w)
    ensures Sound(threshold, Ended(w, s))
  {
    forall k | k in Ended(w, s).sessions
      ensures Follows(Ended(w, s), w.sessions[k])
    {
      assert Follows(w, w.sessions[k]);
    }
  }

  lemma CommitKeeps(h: Hashers, threshold: Amount, w: World, s: nat, now: nat)
    requires Sound(threshold, w) && AtApproval(w, s)
    ensures Sound(threshold, Next(h, threshold, w, Commit(s, now)))
  {
    hide MayPost, Follows, PostDraft;
    var r := PostDraft(h, w.db, w.sessions[s].move, w.sessions[s].actor, now);
    if r.Ok? {
      PostDraftEffects(h, w.db, w.sessions[s].move, w.sessions[s].actor, now, r.value);
      DbMoves(threshold, w, r.value, w.stamps);
      EndedKeeps(threshold, w.(db := r.value, stamps := w.stamps), s);
    } else {
      EndedKeeps(threshold, w, s);
    }
  }

  lemma SessionMoves(threshold: Amount, w: World, s: nat, session: Session)
    requires Sound(threshold, w) && Follows(w, session)
    requires session.Approved? ==> MayPost(session.move, session.actor, threshold)
    ensures Sound(threshold, w.(sessions := w.sessions[s := session]))
  {
    var after := w.(sessions := w.sessions[s := session]);
    forall k | k in after.sessions
      ensures Follows(after, after.sessions[k])
    {
      assert k != s ==> Follows(w, w.sessions[k]);
    }
  }

  lemma ReadsFollow(threshold: Amount, w: World, s: nat)
    requires Sound(threshold, w)
    ensures forall id :: id in w.db.moves ==> Follows(w, HeaderRead(Header(w.db, id)))
    ensures AtHeader(w, s) ==>
              var move := w.sessions[s].move; Follows(w, MoveRead(move.(lines := LinesOf(w.db, move.id))))
    ensures AtMove(w, s) ==> forall p, actor :: Follows(w, Approved(w.sessions[s].move.(period := p), actor))
  {
    assert s in w.sessions ==> Follows(w, w.sessions[s]);
  }

  /** Every event keeps the stamps known, the sessions true to the rows they read and the approvals justified. */
  lemma NextKeeps(h: Hashers, threshold: Amount, w: World, e: Event)
    requires Sound(threshold, w) && Allowed(w, e)
    ensures Sound(threshold, Next(h, threshold, w, e))
  {
    match e
    case ReadHeader(s, id) =>
      ReadsFollow(threshold, w, s);
      if id in w.db.moves {
        SessionMoves(threshold, w, s, HeaderRead(Header(w.db, id)));
      }
    case ReadLines(s) =>
      ReadsFollow(threshold, w, s);
      if AtHeader(w, s) {
        var move := w.sessions[s].move;
        SessionMoves(threshold, w, s, MoveRead(move.(lines := LinesOf(w.db, move.id))));
      }
    case Approve(s, actor, found) =>
      ReadsFollow(threshold, w, s);
      if AtMove(w, s) {
        var move := w.sessions[s].move;
        if MayPost(move, actor, threshold) && found.Some? {
          SessionMoves(threshold, w, s, Approved(move.(period := found.value), actor));
        }
      }
    case Commit(s, now) =>
      if AtApproval(w, s) {
        CommitKeeps(h, threshold, w, s, now);
      }
    case Other(op) => OtherKeeps(h, threshold, w, op);
  }

  // Runs of interleaved calls.

  const START := World(EMPTY, map[], {})

  ghost predicate Race(h: Hashers, threshold: Amount, worlds: seq<World>, events: seq<Event>) {
    && |worlds| == |events| + 1
    && worlds[0] == START
    && forall i :: 0 <= i < |events| ==> Allowed(worlds[i], events[i]) && worlds[i + 1] == Next(h, threshold, worlds[i], events[i])
  }

  lemma {:induction false} RaceKeeps(h: Hashers, threshold: Amount, worlds: seq<World>, events: seq<Event>, i: nat)
    requires Race(h, threshold, worlds, events) && i < |worlds|
    ensures Sound(threshold, worlds[i])
  {
    hide Sound, Next, Allowed;
    if i == 0 {
      StartSound(threshold);
    } else {
      RaceKeeps(h, threshold, worlds, events, i - 1);
      assert Allowed(worlds[i - 1], events[i - 1]);
      NextKeeps(h, threshold, worlds[i - 1], events[i - 1]);
    }
  }

  lemma StartSound(threshold: Amount)
    ensures Sound(threshold, START)
  {
  }

  /** What an event does to the tables: nothing, or one transaction that holds what it claims to have read. */
  lemma EventIsStep(h: Hashers, threshold: Amount, w: World, e: Event) returns (op: Option<Op>)
    requires Sound(threshold, w) && Allowed(w, e)
    ensures op.None? ==> Next(h, threshold, w, e).db == w.db
    ensures op.Some? ==> Legal(w.db, op.value) && Next(h, threshold, w, e).db == Step(h, w.db, op.value)
    ensures op.Some? && op.value.SaveDraftOp? ==> e == Other(op.value)
  {
    op := None;
    match e
    case Commit(s, now) =>
      if AtApproval(w, s) {
        var move, actor := w.sessions[s].move, w.sessions[s].actor;
        assert Follows(w, w.sessions[s]) && MayPost(move, actor, threshold);
        assert LoadedFrom(w.db, move);
        op := Some(PostDraftOp(move, actor, now));
      }
    case Other(other) => op := Some(other);
    case _ =>
  }

  /** Interleaved posting refines the runs of whole transactions: each state of the tables is one a run reaches. */
  lemma {:induction false} RaceIsRun(h: Hashers, threshold: Amount, worlds: seq<World>, events: seq<Event>, i: nat)
    returns (states: seq<Db>, ops: seq<Op>)
    requires Race(h, threshold, worlds, events) && i < |worlds|
    ensures Run(h, states, ops) && states[|ops|] == worlds[i].db
  {
    hide Sound, Next, Allowed, Step, Legal;
    if i == 0 {
      states, ops := [EMPTY], [];
    } else {
      states, ops := RaceIsRun(h, threshold, worlds, events, i - 1);
      RaceKeeps(h, threshold, worlds, events, i - 1);
      assert Allowed(worlds[i - 1], events[i - 1]) && worlds[i] == Next(h, threshold, worlds[i - 1], events[i - 1]);
      var op := EventIsStep(h, threshold, worlds[i - 1], events[i - 1]);
      if op.Some? {
        var longer, more := states + [Step(h, states[|ops|], op.value)], ops + [op.value];
        forall k | 0 <= k < |more|
          ensures Legal(longer[k], more[k]) && longer[k + 1] == Step(h, longer[k], more[k])
        {
          assert k < |ops| ==> longer[k] == states[k] && more[k] == ops[k];
        }
        states, ops := longer, more;
      }
    }
  }

  // Main results.

  ghost predicate SaveOf(h: Hashers, w: World, e: Event, m: Id) {
    e.Other? && Legal(w.db, e.op) && e.op.SaveDraftOp? && e.op.id == m && Apply(h, w.db, e.op).Ok?
  }

  ghost predicate SavedAt(h: Hashers, worlds: seq<World>, events: seq<Event>, k: nat, m: Id) {
    k < |events| && k < |worlds| && SaveOf(h, worlds[k], events[k], m)
  }

  ghost predicate LatestSave(h: Hashers, worlds: seq<World>, events: seq<Event>, i: nat, k: nat, m: Id) {
    k < i && SavedAt(h, worlds, events, k, m) && forall n :: k < n < i ==> !SavedAt(h, worlds, events, n, m)
  }

  lemma StepKeepsDraft(h: Hashers, db: Db, op: Op, m: Id)
    requires Legal(db, op) && IsDraft(Step(h, db, op), m)
    requires op.SaveDraftOp? && Apply(h, db, op).Ok? ==> op.id != m
    ensures IsDraft(db, m) && Step(h, db, op).moves[m] == db.moves[m]
  {
    var r := Apply(h, db, op);
    if r.Ok? && !op.SaveDraftOp? {
      hide Apply, Legal;
      StepHasEffects(h, db, op, r.value);
    }
  }

  lemma EventKeepsDraft(h: Hashers, threshold: Amount, w: World, e: Event, m: Id)
    requires Sound(threshold, w) && Allowed(w, e) && IsDraft(Next(h, threshold, w, e).db, m) && !SaveOf(h, w, e, m)
    ensures IsDraft(w.db, m) && Next(h, threshold, w, e).db.moves[m] == w.db.moves[m]
  {
    hide Sound, Allowed, Legal, Next, Step;
    var op := EventIsStep(h, threshold, w, e);
    if op.Some? {
      StepKeepsDraft(h, w.db, op.value, m);
    }
  }

  /** The row that a save leaves behind. */
  ghost predicate CarriesSave(row: Move, e: Event) {
    && e.Other? && e.op.SaveDraftOp?
    && row.journal == e.op.journal && row.period == e.op.period && row.date == e.op.date
    && row.lines == Redated(e.op.lines, e.op.date)
  }

  lemma SaveIsCarried(h: Hashers, threshold: Amount, w: World, e: Event, m: Id)
    requires Allowed(w, e) && SaveOf(h, w, e, m) && IsDraft(Next(h, threshold, w, e).db, m)
    ensures CarriesSave(Next(h, threshold, w, e).db.moves[m], e)
  {
    var op := e.op;
    assert SaveDraft(w.db, op.id, op.journal, op.period, op.date, op.createdBy, op.now, op.lines) == Ok(Next(h, threshold, w, e).db);
  }

  /** A stored draft is what the latest save of it wrote. */
  lemma {:induction false} DraftIsLatestSave(h: Hashers, threshold: Amount, worlds: seq<World>, events: seq<Event>, i: nat, m: Id)
    returns (k: nat)
    requires Race(h, threshold, worlds, events) && i < |worlds| && IsDraft(worlds[i].db, m)
    ensures LatestSave(h, worlds, events, i, k, m) && CarriesSave(worlds[i].db.moves[m], events[k])
  {
    hide Sound, Next, Allowed, SaveOf, CarriesSave;
    assert i > 0;
    var w, e := worlds[i - 1], events[i - 1];
    assert Allowed(w, e) && worlds[i] == Next(h, threshold, w, e);
    RaceKeeps(h, threshold, worlds, events, i - 1);
    if SaveOf(h, w, e, m) {
      SaveIsCarried(h, threshold, w, e, m);
      k := i - 1;
    } else {
      EventKeepsDraft(h, threshold, w, e, m);
      k := DraftIsLatestSave(h, threshold, worlds, events, i - 1, m);
      forall n | k < n < i
        ensures !SavedAt(h, worlds, events, n, m)
      {
      }
    }
  }

  /** The call of session s posts move m between w and after. */
  ghost predicate PostsIn(w: World, e: Event, after: World, m: Id) {
    && e.Commit? && AtApproval(w, e.session) && w.sessions[e.session].move.id == m
    && IsDraft(w.db, m) && IsPosted(after.db, m)
  }

  lemma CommitPosts(h: Hashers, threshold: Amount, w: World, e: Event, m: Id)
    requires Sound(threshold, w) && Allowed(w, e) && PostsIn(w, e, Next(h, threshold, w, e), m)
    ensures var draft, posted := w.db.moves[m], Next(h, threshold, w, e).db.moves[m];
            && posted.lines == draft.lines && posted.createdBy == draft.createdBy
            && posted.journal == draft.journal && posted.period == draft.period && posted.date == draft.date
            && Balanced(posted.lines) && posted.postedBy.Some? && posted.postedBy.value != 0
            && Segregated(posted.lines, posted.createdBy, posted.postedBy.value, threshold)
  {
    var move, actor := w.sessions[e.session].move, w.sessions[e.session].actor;
    assert Follows(w, w.sessions[e.session]) && MayPost(move, actor, threshold);
    var row := w.db.moves[m];
    assert PostDraft(h, w.db, move, actor, e.now).Ok?;
    PostedDraft(h, w.db, move, actor, e.now, PostDraft(h, w.db, move, actor, e.now).value);
  }

  lemma PostedDraft(h: Hashers, db: Db, move: Loaded, actor: Id, now: nat, after: Db)
    requires PostDraft(h, db, move, actor, now) == Ok(after) && move.updatedAt != 0
    ensures SameStamp(db, move) && IsPosted(after, move.id)
    ensures var draft, posted := db.moves[move.id], after.moves[move.id];
            && posted.lines == move.lines && posted.createdBy == draft.createdBy && posted.postedBy == Some(actor)
            && posted.journal == draft.journal && posted.period == draft.period && posted.date == draft.date
  {
  }

  /** A call is approved exactly for a balanced draft, with an actor and an open period; if a threshold is set and the debits add up to
      more, also with a known creator who is not the actor. Otherwise the creator plays no part. */
  lemma ApprovedExactly(threshold: Amount, w: World, s: nat, move: Loaded, actor: Id, found: Option<Id>)
    ensures AtApproval(Approval(w, s, move, actor, found, threshold), s) <==>
            && move.state == Draft && Balanced(move.lines) && actor != 0
            && (threshold > 0 && SumSeq(move.lines, Debit) > threshold ==>
                  move.createdBy.Some? && move.createdBy.value != 0 && move.createdBy.value != actor)
            && found.Some? && found.value in w.db.periods && w.db.periods[found.value].state == Open
  {
    hide Balanced;
  }

  /** Under any interleaving, a call that posts a move posts the lines of the latest save of that move. These are the lines
      its balance and maker-checker tests have seen: if their debits add up to more than a threshold that is set, the creator is known and
      not the poster. */
  lemma PostsLatestSave(h: Hashers, threshold: Amount, worlds: seq<World>, events: seq<Event>, i: nat, m: Id) returns (k: nat)
    requires Race(h, threshold, worlds, events) && i < |events| && PostsIn(worlds[i], events[i], worlds[i + 1], m)
    ensures LatestSave(h, worlds, events, i, k, m)
    ensures CarriesSave(worlds[i + 1].db.moves[m], events[k])
    ensures var posted := worlds[i + 1].db.moves[m];
            && Balanced(posted.lines) && posted.createdBy == worlds[i].db.moves[m].createdBy
            && posted.postedBy.Some? && posted.postedBy.value != 0
            && (threshold > 0 && SumSeq(posted.lines, Debit) > threshold ==>
                  posted.createdBy.Some? && posted.createdBy.value != 0 && posted.createdBy != posted.postedBy)
  {
    hide Sound, Next, Allowed, SaveOf, Balanced;
    RaceKeeps(h, threshold, worlds, events, i);
    assert Allowed(worlds[i], events[i]) && worlds[i + 1] == Next(h, threshold, worlds[i], events[i]);
    CommitPosts(h, threshold, worlds[i], events[i], m);
    k := DraftIsLatestSave(h, threshold, worlds, events, i, m);
  }

  lemma CreatorKeptByStep(h: Hashers, db: Db, op: Op, m: Id)
    requires Legal(db, op) && IsDraft(db, m) && IsDraft(Step(h, db, op), m) && db.moves[m].createdBy.Some?
    ensures Step(h, db, op).moves[m].createdBy == db.moves[m].createdBy
  {
    var r := Apply(h, db, op);
    if r.Ok? && !op.SaveDraftOp? {
      hide Apply, Legal;
      StepHasEffects(h, db, op, r.value);
    }
  }

  ghost predicate DraftFrom(worlds: seq<World>, i: nat, j: nat, m: Id) {
    i <= j < |worlds| && forall n :: i <= n <= j ==> IsDraft(worlds[n].db, m)
  }

  /** As long as the draft is there, whoever is recorded as its creator stays recorded. */
  lemma {:induction false} CreatorStays(h: Hashers, threshold: Amount, worlds: seq<World>, events: seq<Event>, i: nat, j: nat, m: Id)
    requires Race(h, threshold, worlds, events) && DraftFrom(worlds, i, j, m)
    requires IsDraft(worlds[i].db, m) && IsDraft(worlds[j].db, m) && worlds[i].db.moves[m].createdBy.Some?
    ensures worlds[j].db.moves[m].createdBy == worlds[i].db.moves[m].createdBy
  {
    hide Sound, Next, Allowed, Step, Legal, Apply;
    if i < j {
      var w, e := worlds[j - 1], events[j - 1];
      assert IsDraft(w.db, m);
      CreatorStays(h, threshold, worlds, events, i, j - 1, m);
      RaceKeeps(h, threshold, worlds, events, j - 1);
      assert Allowed(w, e) && worlds[j] == Next(h, threshold, w, e);
      var op := EventIsStep(h, threshold, w, e);
      if op.Some? {
        CreatorKeptByStep(h, w.db, op.value, m);
      }
    }
  }

  lemma CreatorAfterSave(h: Hashers, threshold: Amount, w: World, e: Event, m: Id)
    requires Allowed(w, e) && SaveOf(h, w, e, m) && IsDraft(Next(h, threshold, w, e).db, m)
    ensures var row := Next(h, threshold, w, e).db.moves[m];
            if IsDraft(w.db, m) && w.db.moves[m].createdBy.Some? then row.createdBy == w.db.moves[m].createdBy
            else row.createdBy == e.op.createdBy
  {
    var op := e.op;
    assert SaveDraft(w.db, op.id, op.journal, op.period, op.date, op.createdBy, op.now, op.lines) == Ok(Next(h, threshold, w, e).db);
  }

  /** The recorded creator of a draft was given by one of its saves. */
  lemma {:induction false} CreatorSaved(h: Hashers, threshold: Amount, worlds: seq<World>, events: seq<Event>, i: nat,
                                        m: Id) returns (k: nat)
    requires Race(h, threshold, worlds, events) && i < |worlds| && IsDraft(worlds[i].db, m) && worlds[i].db.moves[m].createdBy.Some?
    ensures k < i && SavedAt(h, worlds, events, k, m) && events[k].op.createdBy == worlds[i].db.moves[m].createdBy
  {
    hide Sound, Next, Allowed, SaveOf;
    assert i > 0;
    var w, e := worlds[i - 1], events[i - 1];
    assert Allowed(w, e) && worlds[i] == Next(h, threshold, w, e);
    RaceKeeps(h, threshold, worlds, events, i - 1);
    if SaveOf(h, w, e, m) {
      SaveIsCarried(h, threshold, w, e, m);
      CreatorAfterSave(h, threshold, w, e, m);
      if IsDraft(w.db, m) && w.db.moves[m].createdBy.Some? {
        k := CreatorSaved(h, threshold, worlds, events, i - 1, m);
      } else {
        k := i - 1;
      }
    } else {
      EventKeepsDraft(h, threshold, w, e, m);
      k := CreatorSaved(h, threshold, worlds, events, i - 1, m);
    }
  }

  // Two saves within one microsecond have equal stamps. Then an edit between the read and the commit goes unnoticed.

  function Ten(account: Id, debit: Amount, credit: Amount, matching: string): Line {
    Line(account, None, None, debit, credit, 0, "SAR", matching, 0)
  }

  const READ := [Ten(1, 10, 0, "a"), Ten(2, 0, 10, "a")]
  const EDITED := [Ten(1, 10, 0, "b"), Ten(2, 0, 10, "b")]
  const CASH := Account("1", Asset, DebitNormal, None, false, true, false, false, NoActivity)
  const LOAN := Account("2", Liability, CreditNormal, None, false, true, false, false, NoActivity)
  const EDITING := Ready(CASH, LOAN)

  /** From a state that a run reaches: save, read, save with the same stamp, post. The post carries the lines of the first save. */
  lemma EqualStampsLoseAnEdit(h: Hashers)
    ensures var first := SaveDraft(EDITING, 5, 1, 1, 0, Some(7), 1, READ);
            first.Ok? && 5 in first.value.moves &&
            var loaded := Header(first.value, 5).(lines := LinesOf(first.value, 5));
            var second := SaveDraft(first.value, 5, 1, 1, 0, Some(7), 1, EDITED);
            second.Ok? &&
            var posted := PostDraft(h, second.value, loaded, 8, 2);
            posted.Ok? && posted.value.moves[5].lines == READ && second.value.moves[5].lines == EDITED && READ != EDITED
  {
    TenBalanced("a");
    TenBalanced("b");
    var first := SaveDraft(EDITING, 5, 1, 1, 0, Some(7), 1, READ).value;
    assert Redated(READ, 0) == READ && Redated(EDITED, 0) == EDITED;
    var second := SaveDraft(first, 5, 1, 1, 0, Some(7), 1, EDITED).value;
    assert READ[0].matching[0] != EDITED[0].matching[0];
    assert second.moves[5].lines == EDITED;
    assert forall m :: m in second.moves ==> m == 5;
  }

  lemma EditingIsReached(h: Hashers) returns (states: seq<Db>, ops: seq<Op>)
    ensures Run(h, states, ops) && states[|ops|] == EDITING
  {
    assert CASH.code[0] != LOAN.code[0];
    hide Ready;
    states, ops := ReadyIsReached(h, CASH, LOAN);
  }

  lemma TenBalanced(matching: string)
    ensures Balanced([Ten(1, 10, 0, matching), Ten(2, 0, 10, matching)])
  {
    var lines := [Ten(1, 10, 0, matching), Ten(2, 0, 10, matching)];
    assert lines[..1] == [lines[0]] && lines[..1][..0] == [];
    assert SumSeq(lines[..1], Net) == 10;
  }
}
