/** Ingestion of subledger events: check, post, recover. Concurrent calls with one key share one move. */
module Ingest {
  import opened Sums
  import opened Ledger
  import opened Tables
  import opened Steps
  import opened Invariants
  import opened Allocations
  import opened PostingKeeps
  import opened OperationsKeep
  import opened Runs
  import opened StepEffects

  /** The two lines of an event: the mapped accounts, the functional amount, and the event's own amount and currency. */
  function EventLines(debitAccount: Id, creditAccount: Id, functional: Amount, amount: Amount, currency: string, date: Date): seq<Line> {
    [Line(debitAccount, None, None, functional, 0, amount, currency, "", date),
     Line(creditAccount, None, None, 0, functional, -amount, currency, "", date)]
  }

  /** An event is postable exactly when its amount does not round to nothing in functional currency. */
  lemma EventLinesBalanced(debitAccount: Id, creditAccount: Id, functional: Amount, amount: Amount, currency: string, date: Date)
    ensures Balanced(EventLines(debitAccount, creditAccount, functional, amount, currency, date)) <==> functional > 0
    ensures SumSeq(EventLines(debitAccount, creditAccount, functional, amount, currency, date), Foreign) == 0
  {
    var lines := EventLines(debitAccount, creditAccount, functional, amount, currency, date);
    assert lines[..1][..0] == [] && lines[..1] == [lines[0]] && lines == [lines[0]] + [lines[1]];
    assert SumSeq(lines[..1], Net) == functional && SumSeq(lines[..1], Foreign) == amount;
  }

  /** A call between its database accesses. */
  datatype Call =
    | Absent(key: string)
    | PostFailed(key: string)
    | Answered(key: string, move: Id)
    | Refused(key: string)

  datatype World = World(db: Db, calls: map<nat, Call>)

  datatype Event =
    | Check(call: nat, key: string)
    | GiveUp(call: nat)
    | Post(call: nat, id: Id, journal: Id, period: Id, date: Date, now: nat, lines: seq<Line>)
    | Recover(call: nat)
    | Other(op: Op)

  /** GetProcessedEventMove */
  function LookUp(db: Db, key: string, otherwise: Call): Call {
    if key in db.events then Answered(key, db.events[key]) else otherwise
  }

  ghost predicate Allowed(w: World, e: Event) {
    e.Other? ==> Legal(w.db, e.op)
  }

  predicate Waiting(w: World, c: nat) { c in w.calls && w.calls[c].Absent? }

  predicate Failing(w: World, c: nat) { c in w.calls && w.calls[c].PostFailed? }

  function PostOp(w: World, e: Event): Op
    requires e.Post? && Waiting(w, e.call)
  {
    PostEventOp(w.calls[e.call].key, e.id, e.journal, e.period, e.date, e.now, e.lines)
  }

  ghost function Next(h: Hashers, w: World, e: Event): World
    requires Allowed(w, e)
  {
    match e
    case Check(c, key) => w.(calls := w.calls[c := LookUp(w.db, key, Absent(key))])
    case GiveUp(c) => if Waiting(w, c) then w.(calls := w.calls[c := Refused(w.calls[c].key)]) else w
    case Post(c, id, _, _, _, _, _) =>
      if !Waiting(w, c) then w else
      var key := w.calls[c].key;
      var r := Apply(h, w.db, PostOp(w, e));
      World(if r.Ok? then r.value else w.db, w.calls[c := if r.Ok? then Answered(key, id) else PostFailed(key)])
    case Recover(c) =>
      if Failing(w, c) then w.(calls := w.calls[c := LookUp(w.db, w.calls[c].key, Refused(w.calls[c].key))]) else w
    case Other(op) => w.(db := Step(h, w.db, op))
  }

  /** A call answers with the move of its key. */
  ghost predicate Truthful(db: Db, c: Call) {
    c.Answered? ==> c.key in db.events && db.events[c.key] == c.move
  }

  ghost predicate Sound(h: Hashers, w: World) {
    Inv(h, w.db) && forall c :: c in w.calls ==> Truthful(w.db, w.calls[c])
  }

  /** The transaction an event runs, if any. */
  ghost function OpOf(w: World, e: Event): Option<Op>
  {
    match e
    case Post(c, _, _, _, _, _, _) => if Waiting(w, c) then Some(PostOp(w, e)) else None
    case Other(op) => Some(op)
    case _ => None
  }

  lemma EventIsStep(h: Hashers, w: World, e: Event)
    requires Allowed(w, e)
    ensures OpOf(w, e).None? ==> Next(h, w, e).db == w.db
    ensures OpOf(w, e).Some? ==> Legal(w.db, OpOf(w, e).value) && Next(h, w, e).db == Step(h, w.db, OpOf(w, e).value)
  {
  }

  lemma DbKeeps(h: Hashers, w: World, e: Event)
    requires Inv(h, w.db) && Allowed(w, e)
    ensures Inv(h, Next(h, w, e).db) && Extends(w.db, Next(h, w, e).db)
  {
    EventIsStep(h, w, e);
    hide Inv, Extends, Next, Allowed, Legal, Apply, OpOf;
    ExtendsItself(w.db);
    if OpOf(w, e).Some? {
      var r := Apply(h, w.db, OpOf(w, e).value);
      if r.Ok? {
        StepKeeps(h, w.db, OpOf(w, e).value, r.value);
      }
    }
  }

  /** The event leaves a call alone or answers it from the table as it then is. */
  lemma CallAfter(h: Hashers, w: World, e: Event, c: nat)
    requires Allowed(w, e) && c in Next(h, w, e).calls
    ensures (c in w.calls && Next(h, w, e).calls[c] == w.calls[c]) || Truthful(Next(h, w, e).db, Next(h, w, e).calls[c])
  {
    hide Inv, PostEvent, ReverseMove, Reconcile, Unreconcile, CloseYear, UpdateAccount, PostDraft, SaveDraft, Step;
    if e.Post? && Waiting(w, e.call) {
      var op := PostOp(w, e);
      var r := Apply(h, w.db, op);
      if r.Ok? {
        PostEventEffects(h, w.db, op.key, op.id, op.journal, op.period, op.date, op.now, op.lines, r.value);
      }
    }
  }

  lemma NextKeeps(h: Hashers, w: World, e: Event)
    requires Sound(h, w) && Allowed(w, e)
    ensures Sound(h, Next(h, w, e)) && Extends(w.db, Next(h, w, e).db)
  {
    hide Inv, Next, Allowed;
    DbKeeps(h, w, e);
    var after := Next(h, w, e);
    forall c | c in after.calls
      ensures Truthful(after.db, after.calls[c])
    {
      CallAfter(h, w, e, c);
      assert c in w.calls ==> Truthful(w.db, w.calls[c]);
    }
  }

  ghost predicate Traffic(h: Hashers, worlds: seq<World>, events: seq<Event>) {
    && |worlds| == |events| + 1
    && worlds[0] == World(EMPTY, map[])
    && forall i :: 0 <= i < |events| ==> Allowed(worlds[i], events[i]) && worlds[i + 1] == Next(h, worlds[i], events[i])
  }

  lemma {:induction false} TrafficKeeps(h: Hashers, worlds: seq<World>, events: seq<Event>, i: nat, j: nat)
    requires Traffic(h, worlds, events) && i <= j < |worlds|
    ensures Sound(h, worlds[i]) && Sound(h, worlds[j]) && Extends(worlds[i].db, worlds[j].db)
    decreases j
  {
    hide Next, Allowed, Inv, Extends;
    if j == 0 {
      EmptySound(h);
      ExtendsItself(worlds[0].db);
    } else {
      TrafficKeeps(h, worlds, events, if i < j then i else j - 1, j - 1);
      assert Allowed(worlds[j - 1], events[j - 1]) && worlds[j] == Next(h, worlds[j - 1], events[j - 1]);
      NextKeeps(h, worlds[j - 1], events[j - 1]);
      if i < j {
        ExtendsTransitive(worlds[i].db, worlds[j - 1].db, worlds[j].db);
      } else {
        ExtendsItself(worlds[j].db);
      }
    }
  }

  // Main results.

  /** Event i commits a new move for the key. */
  ghost predicate PostsFor(h: Hashers, w: World, e: Event, key: string) {
    var op := OpOf(w, e);
    op.Some? && op.value.PostEventOp? && op.value.key == key && Apply(h, w.db, op.value).Ok?
  }

  lemma PostingTakesOneNumber(h: Hashers, w: World, e: Event, key: string)
    requires Allowed(w, e) && PostsFor(h, w, e, key)
    ensures var op, after := OpOf(w, e).value, Next(h, w, e).db;
            && key !in w.db.events && after.events == w.db.events[key := op.id]
            && op.id !in w.db.moves && IsPosted(after, op.id)
            && op.journal in w.db.journals
            && after.journals == w.db.journals[op.journal := w.db.journals[op.journal].(next := w.db.journals[op.journal].next + 1)]
  {
    EventIsStep(h, w, e);
    var op := OpOf(w, e).value;
    PostEventTakes(h, w.db, op.key, op.id, op.journal, op.period, op.date, op.now, op.lines, Next(h, w, e).db);
  }

  lemma PostEventTakes(h: Hashers, db: Db, key: string, id: Id, journal: Id, period: Id, date: Date, now: nat, lines: seq<Line>, after: Db)
    requires PostEvent(h, db, key, id, journal, period, date, now, lines) == Ok(after)
    ensures key !in db.events && after.events == db.events[key := id] && id !in db.moves && IsPosted(after, id)
    ensures journal in db.journals && after.journals == db.journals[journal := db.journals[journal].(next := db.journals[journal].next + 1)]
  {
    var e := Entry(journal, period, date, None, Some(0), None, now, Redated(lines, date));
    var posted := PostRow(h, db, id, e).value;
    assert posted.journals == db.journals[journal := db.journals[journal].(next := db.journals[journal].next + 1)];
    assert IsPosted(posted, id);
    assert after == WithEvent(Logged(h, posted, "account_move", id, "INGEST_POST", 0, "", now), key, id);
  }

  /** Under any interleaving a key is posted at most once, so it takes one move and one journal number in all. */
  lemma PostedOncePerKey(h: Hashers, worlds: seq<World>, events: seq<Event>, i: nat, j: nat, key: string)
    requires Traffic(h, worlds, events) && i < |events| && j < |events|
    requires PostsFor(h, worlds[i], events[i], key) && PostsFor(h, worlds[j], events[j], key)
    ensures i == j
  {
    if i < j {
      NotPostedTwice(h, worlds, events, i, j, key);
    } else if j < i {
      NotPostedTwice(h, worlds, events, j, i, key);
    }
  }

  lemma NotPostedTwice(h: Hashers, worlds: seq<World>, events: seq<Event>, i: nat, j: nat, key: string)
    requires Traffic(h, worlds, events) && i < j < |events|
    requires PostsFor(h, worlds[i], events[i], key)
    ensures !PostsFor(h, worlds[j], events[j], key)
  {
    hide Next, Allowed, Inv, PostsFor, OpOf;
    assert Allowed(worlds[i], events[i]) && worlds[i + 1] == Next(h, worlds[i], events[i]);
    assert Allowed(worlds[j], events[j]);
    PostingTakesOneNumber(h, worlds[i], events[i], key);
    TrafficKeeps(h, worlds, events, i + 1, j);
    assert key in worlds[j].db.events;
    if PostsFor(h, worlds[j], events[j], key) {
      PostingTakesOneNumber(h, worlds[j], events[j], key);
    }
  }

  /** All successful calls of a key, at any times of a run, return the same move, which stays posted as it is. */
  lemma CallsAgree(h: Hashers, worlds: seq<World>, events: seq<Event>, i: nat, j: nat, c: nat, d: nat)
    requires Traffic(h, worlds, events) && i <= j < |worlds|
    requires c in worlds[i].calls && d in worlds[j].calls
    requires worlds[i].calls[c].Answered? && worlds[j].calls[d].Answered? && worlds[i].calls[c].key == worlds[j].calls[d].key
    ensures worlds[i].calls[c].move == worlds[j].calls[d].move
    ensures var m := worlds[i].calls[c].move;
            IsPosted(worlds[i].db, m) && IsPosted(worlds[j].db, m) && worlds[i].db.moves[m] == worlds[j].db.moves[m]
  {
    hide Next, Allowed, SoundMoves, GapFree, Chained, SoundReversals, SoundYears, SoundAllocations, SoundAudit;
    TrafficKeeps(h, worlds, events, i, j);
    assert Truthful(worlds[i].db, worlds[i].calls[c]) && Truthful(worlds[j].db, worlds[j].calls[d]);
  }

  /** Once a key is posted, every call that checks it or recovers after a failed post answers with its move, and every
      further post of it fails. */
  lemma PostedKeyAnswers(h: Hashers, w: World, e: Event, key: string)
    requires Sound(h, w) && Allowed(w, e) && key in w.db.events
    ensures e.Check? && e.key == key ==> Next(h, w, e).calls[e.call] == Answered(key, w.db.events[key])
    ensures e.Recover? && Failing(w, e.call) && w.calls[e.call].key == key ==>
              Next(h, w, e).calls[e.call] == Answered(key, w.db.events[key])
    ensures e.Post? && Waiting(w, e.call) && w.calls[e.call].key == key ==>
              Next(h, w, e).calls[e.call] == PostFailed(key) && Next(h, w, e).db == w.db
  {
    if e.Post? && Waiting(w, e.call) && w.calls[e.call].key == key {
      var op := PostOp(w, e);
      var r := Apply(h, w.db, op);
      if r.Ok? {
        PostEventEffects(h, w.db, op.key, op.id, op.journal, op.period, op.date, op.now, op.lines, r.value);
      }
    }
  }
}
