/** An account that has postings keeps its code and its type for good. */
module AccountHistory {
  import opened Ledger
  import opened Tables
  import opened Steps
  import opened Invariants
  import opened PostingKeeps
  import opened Runs
  import opened StepEffects

  predicate SameIdentity(a: Account, b: Account) {
    a.code == b.code && a.kind == b.kind
  }

  lemma PostedLinesStay(db: Db, after: Db, a: Id)
    requires SoundMoves(db) && Extends(db, after) && HasPostedLines(db, a)
    ensures HasPostedLines(after, a) && a in db.accounts && a in after.accounts
  {
    var m, i :| m in db.moves && db.moves[m].state != Draft && 0 <= i < |db.moves[m].lines| && db.moves[m].lines[i].account == a;
    assert SoundMove(db, m) && IsPosted(db, m);
    assert IsPosted(after, m) && after.moves[m].lines[i].account == a;
  }

  lemma CreateLeavesOthers(db: Db, id: Id, row: Account, a: Id, after: Db)
    requires CreateAccount(db, id, row) == Ok(after) && a in db.accounts
    ensures a in after.accounts && after.accounts[a] == db.accounts[a]
  {
  }

  lemma UpdateKeepsIdentity(db: Db, id: Id, row: Account, a: Id, after: Db)
    requires UpdateAccount(db, id, row) == Ok(after) && a in db.accounts && HasPostedLines(db, a)
    ensures a in after.accounts && SameIdentity(db.accounts[a], after.accounts[a])
  {
    hide Descendants, HasPostedLines;
  }

  lemma StepKeepsIdentity(h: Hashers, db: Db, op: Op, after: Db, a: Id)
    requires Legal(db, op) && Apply(h, db, op) == Ok(after) && HasPostedLines(db, a) && a in db.accounts
    ensures a in after.accounts && SameIdentity(db.accounts[a], after.accounts[a])
  {
    hide HasPostedLines, SaveDraft, DeleteDraft, PostDraft, PostEvent, ReverseMove, Reconcile, Unreconcile, SetPeriodState,
      CreateYear, CloseYear, CreateJournal, UpdateJournal, Configure, CreateAccount, UpdateAccount, PeriodsOf, LoadedFrom;
    match op
    case CreateAccountOp(id, row) => CreateLeavesOthers(db, id, row, a, after);
    case UpdateAccountOp(id, row) => UpdateKeepsIdentity(db, id, row, a, after);
    case _ => StepHasEffects(h, db, op, after);
  }

  /** Once an account has a posted line its code and its type stay the same over the rest of the run. */
  lemma {:induction false} PostedAccountsKeepIdentity(h: Hashers, states: seq<Db>, ops: seq<Op>, i: nat, j: nat, a: Id)
    requires Run(h, states, ops) && i <= j < |states| && HasPostedLines(states[i], a)
    ensures HasPostedLines(states[j], a) && a in states[i].accounts && a in states[j].accounts
    ensures SameIdentity(states[i].accounts[a], states[j].accounts[a])
    decreases j
  {
    hide Apply, Legal, HasPostedLines, Extends, Inv;
    PostedLinesOverRun(h, states, ops, i, j, a);
    if i < j {
      PostedLinesOverRun(h, states, ops, i, j - 1, a);
      PostedAccountsKeepIdentity(h, states, ops, i, j - 1, a);
      RunStepIdentity(h, states, ops, j - 1, a);
    }
  }

  lemma PostedLinesOverRun(h: Hashers, states: seq<Db>, ops: seq<Op>, i: nat, j: nat, a: Id)
    requires Run(h, states, ops) && i <= j < |states| && HasPostedLines(states[i], a)
    ensures HasPostedLines(states[j], a) && a in states[i].accounts && a in states[j].accounts
  {
    RunKeeps(h, states, ops, i, j);
    hide HasPostedLines, Run, GapFree, Chained, SoundReversals, SoundEvents, SoundAudit, SoundYears;
    PostedLinesStay(states[i], states[j], a);
  }

  lemma RunStepIdentity(h: Hashers, states: seq<Db>, ops: seq<Op>, i: nat, a: Id)
    requires Run(h, states, ops) && i < |ops| && HasPostedLines(states[i], a) && a in states[i].accounts
    ensures a in states[i + 1].accounts && SameIdentity(states[i].accounts[a], states[i + 1].accounts[a])
  {
    hide Apply, Legal, HasPostedLines;
    assert Legal(states[i], ops[i]) && states[i + 1] == Step(h, states[i], ops[i]);
    var r := Apply(h, states[i], ops[i]);
    if r.Ok? {
      StepKeepsIdentity(h, states[i], ops[i], r.value, a);
    }
  }
}
