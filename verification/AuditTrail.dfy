/** The audit trail: no move is posted without a row that names who posted it. */
module AuditTrail {
  import opened Ledger
  import opened Tables
  import opened PostingKeeps
  import opened Runs
  import opened StepEffects

  /** In every reachable state every posted move, however it came to be posted, has an audit row that names its poster. */
  lemma {:induction false} EveryPostingAudited(h: Hashers, states: seq<Db>, ops: seq<Op>, i: nat, m: Id)
    requires Run(h, states, ops) && i < |states| && IsPosted(states[i], m)
    ensures IsAudited(states[i], m)
  {
    hide Inv, Apply, Legal, IsAudited;
    assert i > 0;
    var db, after := states[i - 1], states[i];
    RunKeeps(h, states, ops, i - 1, i);
    if IsPosted(db, m) {
      EveryPostingAudited(h, states, ops, i - 1, m);
      AuditedStays(db, after, m);
    } else {
      assert Legal(db, ops[i - 1]) && after == Step(h, db, ops[i - 1]);
      assert NewlyPosted(db, after, m);
      StepHasEffects(h, db, ops[i - 1], after);
    }
  }
}
