/** What the invariant means for the journals: exact numbering, immutability, reversals. */
module LedgerHistory {
  import opened Sums
  import opened Ledger
  import opened MoveNames
  import opened AuditChain
  import opened Tables
  import opened Steps
  import opened Invariants
  import opened Allocations
  import opened Hierarchy
  import opened PostingKeeps
  import opened Runs

  /** The posted numbers of a journal are exactly 1 .. next - 1, each used once, and each name ends in its number. */
  lemma NumbersExact(h: Hashers, states: seq<Db>, ops: seq<Op>, i: nat, j: Id)
    requires Run(h, states, ops) && i < |states| && j in states[i].journals
    ensures forall n: nat :: HasNumber(states[i], j, n) <==> 1 <= n < states[i].journals[j].next
    ensures forall n: nat, m, k :: Numbered(states[i], j, n, m) && Numbered(states[i], j, n, k) ==> m == k
    ensures forall n: nat, m :: Numbered(states[i], j, n, m) ==> PrintsNumber(states[i].moves[m])
  {
    RunKeeps(h, states, ops, i, i);
    var db := states[i];
    hide PrintsNumber, SoundMoves, Chained, SoundReversals, SoundEvents, SoundAudit, SoundYears, SoundAllocations;
    forall n: nat, m | Numbered(db, j, n, m)
      ensures 1 <= n < db.journals[j].next && PrintsNumber(db.moves[m])
    {
      assert WithinNumbers(db, m);
    }
    forall n: nat, m, k | Numbered(db, j, n, m) && Numbered(db, j, n, k)
      ensures m == k
    {
      NumbersDistinct(db, j, n, n, m, k);
    }
  }

  /** A posted move stays as it is in every later state of the run, and it is balanced. */
  lemma PostedForever(h: Hashers, states: seq<Db>, ops: seq<Op>, i: nat, j: nat, m: Id)
    requires Run(h, states, ops) && i <= j < |states| && IsPosted(states[i], m)
    ensures IsPosted(states[j], m) && states[j].moves[m] == states[i].moves[m] && Balanced(states[j].moves[m].lines)
    ensures forall k :: 0 <= k < |states[j].moves[m].lines| ==> states[j].moves[m].lines[k].date == states[j].moves[m].date
  {
    RunKeeps(h, states, ops, i, j);
    assert SoundMove(states[j], m);
  }

  /** The audit log of every state passes verification, and the log of an earlier state is a prefix of it. */
  lemma AuditGrows(h: Hashers, states: seq<Db>, ops: seq<Op>, i: nat, j: nat)
    requires Run(h, states, ops) && i <= j < |states|
    ensures Verified(h.audit, states[j].audit) && states[i].audit <= states[j].audit
  {
    RunKeeps(h, states, ops, i, j);
  }

  /** In every reachable state the reconciled amount of a line is the sum of its allocations in live reconciliations and lies
      within the capacity of the posted line. */
  lemma ReconciledIsAllocated(h: Hashers, states: seq<Db>, ops: seq<Op>, i: nat, l: LineId)
    requires Run(h, states, ops) && i < |states|
    ensures Reconciled(states[i], l) == AllocatedTo(states[i].reconciliations, l)
    ensures Reconciled(states[i], l) > 0 ==>
              HasLine(states[i], l) && IsPosted(states[i], l.move) && Reconciled(states[i], l) <= Capacity(LineAt(states[i], l))
  {
    RunKeeps(h, states, ops, i, i);
    assert WithinCapacity(states[i], l);
  }

  /** In every reachable state every parent exists and no account is its own ancestor. */
  lemma HierarchyStaysAcyclic(h: Hashers, states: seq<Db>, ops: seq<Op>, i: nat)
    requires Run(h, states, ops) && i < |states|
    ensures ParentsExist(ParentMap(states[i].accounts)) && Acyclic(ParentMap(states[i].accounts))
  {
    RunKeeps(h, states, ops, i, i);
  }

  /** A configuration can be written while there is none and its accounts and journal exist; once there is one it stays over the
      rest of the run, and every later update of it fails. */
  lemma ConfiguredOnce(h: Hashers, states: seq<Db>, ops: seq<Op>, i: nat, j: nat, config: Config)
    requires Run(h, states, ops) && i <= j < |states|
    ensures Configure(states[i], config).Ok? <==> states[i].config.None? && ConfigHolds(states[i], config)
    ensures states[i].config.Some? ==> states[j].config == states[i].config && Configure(states[j], config) == Err(ConstraintViolated)
  {
    hide Inv, Run, Extends;
    RunKeeps(h, states, ops, i, j);
    ConfigStays(states[i], states[j]);
  }

  lemma ConfigStays(db: Db, after: Db)
    requires Extends(db, after)
    ensures db.config.Some? ==> after.config == db.config
  {
  }

  // Reversals.

  /** A move, its reversal, the reversal of that, and so on. */
  ghost predicate ReversalChain(db: Db, chain: seq<Id>) {
    && (forall i :: 0 <= i < |chain| ==> IsPosted(db, chain[i]))
    && (forall i :: 0 < i < |chain| ==> Reverses(db, chain[i], chain[i - 1]))
  }

  function ChainTotal(db: Db, chain: seq<Id>, f: Line -> int): int
    requires forall i :: 0 <= i < |chain| ==> chain[i] in db.moves
  {
    if chain == [] then 0
    else ChainTotal(db, chain[..|chain| - 1], f) + SumSeq(db.moves[chain[|chain| - 1]].lines, f)
  }

  /** A measure that changes sign when a line is mirrored: nets and foreign amounts, by account and currency. */
  ghost predicate Odd(f: Line -> int) {
    forall l, date, matching :: f(Mirror(l, date, matching)) == -f(l)
  }

  lemma GroupMeasuresAreOdd(g: Group)
    ensures Odd(InGroup(g, Net)) && Odd(InGroup(g, Foreign))
  {
    forall l, date, matching
      ensures InGroup(g, Net)(Mirror(l, date, matching)) == -InGroup(g, Net)(l)
      ensures InGroup(g, Foreign)(Mirror(l, date, matching)) == -InGroup(g, Foreign)(l)
    {
      var r := Mirror(l, date, matching);
      assert GroupOf(r) == GroupOf(l);
      assert Net(r) == -Net(l) && Foreign(r) == -Foreign(l);
    }
  }

  lemma LastNegates(db: Db, chain: seq<Id>, f: Line -> int)
    requires SoundReversals(db) && ReversalChain(db, chain) && Odd(f) && |chain| >= 2
    ensures SumSeq(db.moves[chain[|chain| - 1]].lines, f) == -SumSeq(db.moves[chain[|chain| - 2]].lines, f)
  {
    var m, o := chain[|chain| - 1], chain[|chain| - 2];
    assert Reverses(db, m, o) && MirrorsPosted(db, m, o);
    MirrorNegates(db.moves[o].lines, db.moves[m].lines, f);
  }

  /** Per account and currency a chain of reversals nets to its first move when its length is odd, and to zero when even. */
  lemma {:induction false} ReversalChainNets(db: Db, chain: seq<Id>, f: Line -> int)
    requires SoundReversals(db) && ReversalChain(db, chain) && Odd(f) && chain != []
    ensures ChainTotal(db, chain, f) == if |chain| % 2 == 1 then SumSeq(db.moves[chain[0]].lines, f) else 0
    ensures SumSeq(db.moves[chain[|chain| - 1]].lines, f) ==
            if |chain| % 2 == 1 then SumSeq(db.moves[chain[0]].lines, f) else -SumSeq(db.moves[chain[0]].lines, f)
  {
    hide SoundReversals, Odd, Reverses;
    var n := |chain| - 1;
    assert ChainTotal(db, chain, f) == ChainTotal(db, chain[..n], f) + SumSeq(db.moves[chain[n]].lines, f);
    if n == 0 {
      assert chain[..0] == [];
    } else {
      ReversalChainNets(db, chain[..n], f);
      LastNegates(db, chain, f);
    }
  }

  /** A committed reversal is posted as the reversal of its original, and per account and currency it takes exactly the original out
      of the books. The original cannot be reversed again, on any date and by any path. */
  lemma ReversalUndoes(h: Hashers, db: Db, original: Id, id: Id, period: Id, date: Date, actor: Id, now: nat, after: Db, f: Line -> int)
    requires ReverseMove(h, db, original, id, period, date, actor, now) == Ok(after) && Odd(f)
    ensures original in db.moves && IsPosted(after, id) && Reverses(after, id, original) && after.moves[id].date == date
    ensures LedgerSum(after.moves, PostedIds(after), f) == LedgerSum(db.moves, PostedIds(db), f) - SumSeq(db.moves[original].lines, f)
    ensures forall id', period', date', actor', now' :: ReverseMove(h, after, original, id', period', date', actor', now') == Err(MoveAlreadyReversed)
    ensures forall id', date', found', actor', now' :: ReverseFxMove(h, after, original, id', date', found', actor', now') == Err(MoveAlreadyReversed)
  {
    ReversalPosts(h, db, original, id, period, date, actor, now, after);
    hide *;
    var lines := Mirrored(db.moves[original].lines, date, true);
    OddOverMirror(db.moves[original].lines, lines, f);
    PostsAdds(db, after, id, lines, f);
    AlreadyReversed(h, after, original, id);
  }

  lemma ReversalPosts(h: Hashers, db: Db, original: Id, id: Id, period: Id, date: Date, actor: Id, now: nat, after: Db)
    requires ReverseMove(h, db, original, id, period, date, actor, now) == Ok(after)
    ensures original in db.moves && original != id && IsPosted(after, original)
    ensures Posts(db, after, id, Mirrored(db.moves[original].lines, date, true))
    ensures IsPosted(after, id) && Reverses(after, id, original) && after.moves[id].date == date
  {
    hide NameTaken, ReferencesHold, PreviousHash, SequenceName, Mirrored;
  }

  /** after has one more posted move, with these lines. */
  ghost predicate Posts(db: Db, after: Db, id: Id, lines: seq<Line>) {
    && id !in db.moves && id in after.moves && after.moves == db.moves[id := after.moves[id]]
    && after.moves[id].state == Posted && after.moves[id].lines == lines
  }

  lemma PostsAdds(db: Db, after: Db, id: Id, lines: seq<Line>, f: Line -> int)
    requires Posts(db, after, id, lines)
    ensures LedgerSum(after.moves, PostedIds(after), f) == LedgerSum(db.moves, PostedIds(db), f) + SumSeq(lines, f)
  {
    assert PostedIds(after) == PostedIds(db) + {id};
    LedgerSumInsert(db.moves, after.moves, PostedIds(db), id, f);
  }

  lemma OddOverMirror(original: seq<Line>, reversal: seq<Line>, f: Line -> int)
    requires MirrorImage(original, reversal) && Odd(f)
    ensures SumSeq(reversal, f) == -SumSeq(original, f)
  {
    MirrorNegates(original, reversal, f);
  }

  lemma AlreadyReversed(h: Hashers, db: Db, original: Id, id: Id)
    requires IsPosted(db, original) && Reverses(db, id, original)
    ensures forall id', period', date', actor', now' :: ReverseMove(h, db, original, id', period', date', actor', now') == Err(MoveAlreadyReversed)
    ensures forall id', date', found', actor', now' :: ReverseFxMove(h, db, original, id', date', found', actor', now') == Err(MoveAlreadyReversed)
  {
    hide InsertPosted, Mirrored;
    assert HasReversal(db, original);
  }

  /** In every reachable state a posted move has at most one reversal, which mirrors it line by line. */
  lemma ReversedAtMostOnce(h: Hashers, states: seq<Db>, ops: seq<Op>, i: nat, o: Id, m: Id, k: Id)
    requires Run(h, states, ops) && i < |states| && Reverses(states[i], m, o) && Reverses(states[i], k, o)
    ensures m == k && IsPosted(states[i], m) && IsPosted(states[i], o) && MirrorImage(states[i].moves[o].lines, states[i].moves[m].lines)
  {
    RunKeeps(h, states, ops, i, i);
    assert MirrorsPosted(states[i], m, o);
  }
}
