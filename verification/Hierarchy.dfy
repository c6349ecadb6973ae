/** The account hierarchy: it never gets a cycle, and listing it as a forest loses and repeats nothing. */
module Hierarchy {
  import opened Ledger
  import opened Tables
  import opened Steps

  type Parents = map<Id, Option<Id>>

  /** A measure that grows from every parent to its children, up to a bound. */
  datatype Ranking = Ranking(rank: Id -> int, bound: int)

  ghost predicate ParentsExist(parents: Parents) {
    forall x :: x in parents && parents[x].Some? ==> parents[x].value in parents
  }

  ghost predicate Ranks(parents: Parents, k: Ranking) {
    && (forall x :: x in parents ==> k.rank(x) <= k.bound)
    && (forall x :: x in parents && parents[x].Some? ==> k.rank(parents[x].value) < k.rank(x))
  }

  ghost predicate Acyclic(parents: Parents) {
    exists k :: Ranks(parents, k)
  }

  function ParentMap(accounts: map<Id, Account>): Parents {
    map a | a in accounts :: accounts[a].parent
  }

  ghost predicate SoundHierarchy(accounts: map<Id, Account>) {
    ParentsExist(ParentMap(accounts)) && Acyclic(ParentMap(accounts))
  }

  // Transactions.

  /** The recursive query ends with a set that contains the account and all children of its members. */
  lemma {:induction false} DescendantsClosed(accounts: map<Id, Account>, found: set<Id>)
    ensures found <= Descendants(accounts, found)
    ensures Children(accounts, Descendants(accounts, found)) <= Descendants(accounts, found)
    decreases accounts.Keys - found
  {
    var more := Children(accounts, found) - found;
    if more != {} {
      var x :| x in more;
      assert x in accounts.Keys - found;
      DescendantsClosed(accounts, found + more);
    } else {
      forall c | c in Children(accounts, found)
        ensures c in found
      {
        assert c !in more;
      }
    }
  }

  lemma CreateKeepsHierarchy(db: Db, id: Id, account: Account)
    requires SoundHierarchy(db.accounts) && CreateAccount(db, id, account).Ok?
    ensures SoundHierarchy(CreateAccount(db, id, account).value.accounts)
  {
    var before, after := ParentMap(db.accounts), ParentMap(CreateAccount(db, id, account).value.accounts);
    var k :| Ranks(before, k);
    var own := if account.parent.None? then 0 else k.bound + 1;
    var rank := (x: Id) => if x == id then own else k.rank(x);
    var k' := Ranking(rank, if own > k.bound then own else k.bound);
    forall x | x in after && after[x].Some?
      ensures after[x].value in after && k'.rank(after[x].value) < k'.rank(x)
    {
      assert x != id ==> x in before && before[x] == after[x];
    }
    assert Ranks(after, k');
  }

  /** Below an account that keeps its subtree, nothing ranks lower than the account. */
  lemma {:induction false} DescendantsAbove(accounts: map<Id, Account>, after: Parents, id: Id, k: Ranking, found: set<Id>)
    requires Ranks(after, k) && forall x :: x in accounts && x != id ==> x in after && after[x] == accounts[x].parent
    requires forall x :: x in found ==> k.rank(x) >= k.rank(id)
    ensures forall x :: x in Descendants(accounts, found) ==> k.rank(x) >= k.rank(id)
    decreases accounts.Keys - found
  {
    var more := Children(accounts, found) - found;
    if more != {} {
      var x :| x in more;
      assert x in accounts.Keys - found;
      DescendantsAbove(accounts, after, id, k, found + more);
    }
  }

  lemma MovedOutside(accounts: map<Id, Account>, id: Id, account: Account)
    requires Acyclic(ParentMap(accounts)) && id in accounts
    requires account.parent.None? || account.parent.value !in Descendants(accounts, {id})
    ensures Acyclic(ParentMap(accounts[id := account]))
  {
    var before, after := ParentMap(accounts), ParentMap(accounts[id := account]);
    var k :| Ranks(before, k);
    var below := Descendants(accounts, {id});
    DescendantsClosed(accounts, {id});
    var gap := if account.parent.None? then 0 else k.rank(account.parent.value) - k.rank(id) + 1;
    var lift := if gap > 0 then gap else 0;
    var rank := (x: Id) => if x in below then k.rank(x) + lift else k.rank(x);
    var k' := Ranking(rank, k.bound + lift);
    forall x | x in after && after[x].Some?
      ensures k'.rank(after[x].value) < k'.rank(x)
    {
      if x != id {
        assert x in before && before[x] == after[x];
        assert before[x].value in below ==> x in Children(accounts, below);
      }
    }
    assert Ranks(after, k');
  }

  /** The descendant test refuses a new parent exactly when the account would become its own ancestor. */
  lemma TestIsExact(accounts: map<Id, Account>, id: Id, account: Account)
    requires Acyclic(ParentMap(accounts)) && id in accounts
    ensures (account.parent.Some? && account.parent.value in Descendants(accounts, {id})) <==> !Acyclic(ParentMap(accounts[id := account]))
  {
    var after := ParentMap(accounts[id := account]);
    if account.parent.None? || account.parent.value !in Descendants(accounts, {id}) {
      MovedOutside(accounts, id, account);
    } else if k :| Ranks(after, k) {
      assert after[id] == account.parent;
      DescendantsAbove(accounts, after, id, k, {id});
    }
  }

  /** Moving an account under a parent outside its own subtree keeps the hierarchy acyclic. */
  lemma UpdateKeepsHierarchy(db: Db, id: Id, account: Account)
    requires SoundHierarchy(db.accounts) && UpdateAccount(db, id, account).Ok?
    ensures SoundHierarchy(UpdateAccount(db, id, account).value.accounts)
  {
    hide Descendants, HasPostedLines, CodeTaken;
    MovedOutside(db.accounts, id, account);
    var before, after := ParentMap(db.accounts), ParentMap(UpdateAccount(db, id, account).value.accounts);
    forall x | x in after && after[x].Some?
      ensures after[x].value in after
    {
      assert x != id ==> x in before && before[x] == after[x];
    }
  }

  // Listing.

  /** One row that the repository returns; the list may hold nil pointers. */
  datatype AccountRow = AccountRow(id: Id, parent: Option<Id>)

  datatype Tree = Tree(id: Id, children: seq<Tree>)

  datatype TreeError = NilAccount | DuplicateId | MissingParent | CycleFound

  datatype Listing = Forest(trees: seq<Tree>) | Failed(error: TreeError)

  ghost predicate DistinctIds(rows: seq<AccountRow>) {
    forall i, j :: 0 <= i < j < |rows| ==> rows[i].id != rows[j].id
  }

  ghost predicate RowOf(rows: seq<AccountRow>, x: Id, parent: Option<Id>) {
    exists i :: 0 <= i < |rows| && rows[i] == AccountRow(x, parent)
  }

  /** parents is the table of rows. */
  ghost predicate Describes(parents: Parents, rows: seq<AccountRow>) {
    && (forall i :: 0 <= i < |rows| ==> rows[i].id in parents && parents[rows[i].id] == rows[i].parent)
    && (forall x :: x in parents ==> RowOf(rows, x, parents[x]))
  }

  /** The ids of the rows under one parent, in row order. */
  function Under(rows: seq<AccountRow>, parent: Option<Id>): seq<Id> {
    if rows == [] then [] else
    var r := rows[|rows| - 1];
    Under(rows[..|rows| - 1], parent) + if r.parent == parent then [r.id] else []
  }

  function ChildrenIn(children: map<Id, seq<Id>>, id: Id): seq<Id> {
    if id in children then children[id] else []
  }

  /** children is the index of rows by parent. */
  ghost predicate Indexes(children: map<Id, seq<Id>>, rows: seq<AccountRow>) {
    forall p :: ChildrenIn(children, p) == Under(rows, Some(p))
  }

  ghost predicate Layered(children: map<Id, seq<Id>>, k: Ranking) {
    forall p, i :: 0 <= i < |ChildrenIn(children, p)| ==> k.rank(p) < k.rank(ChildrenIn(children, p)[i]) <= k.bound
  }

  function Build(children: map<Id, seq<Id>>, id: Id, ghost k: Ranking): Tree
    requires Layered(children, k) && k.rank(id) <= k.bound
    decreases k.bound - k.rank(id), 0, 0
  {
    Tree(id, BuildAll(children, ChildrenIn(children, id), k.rank(id), k))
  }

  function BuildAll(children: map<Id, seq<Id>>, ids: seq<Id>, ghost above: int, ghost k: Ranking): (trees: seq<Tree>)
    requires Layered(children, k) && above <= k.bound
    requires forall i :: 0 <= i < |ids| ==> above < k.rank(ids[i]) <= k.bound
    ensures |trees| == |ids| && forall i :: 0 <= i < |ids| ==> trees[i].id == ids[i]
    decreases k.bound - above, -1, |ids|
  {
    if ids == [] then [] else
    BuildAll(children, ids[..|ids| - 1], above, k) + [Build(children, ids[|ids| - 1], k)]
  }

  // The forest lists every account once, under its own parent.

  function Occurrences(t: Tree, x: Id): nat {
    (if t.id == x then 1 else 0) + OccurrencesAll(t.children, x)
  }

  function OccurrencesAll(ts: seq<Tree>, x: Id): nat {
    if ts == [] then 0 else OccurrencesAll(ts[..|ts| - 1], x) + Occurrences(ts[|ts| - 1], x)
  }

  ghost predicate WellPlaced(t: Tree, parents: Parents) {
    forall i :: 0 <= i < |t.children| ==>
      t.children[i].id in parents && parents[t.children[i].id] == Some(t.id) && WellPlaced(t.children[i], parents)
  }

  lemma {:induction false} UnderIsExact(rows: seq<AccountRow>, parent: Option<Id>, x: Id)
    requires DistinctIds(rows)
    ensures multiset(Under(rows, parent))[x] == if RowOf(rows, x, parent) then 1 else 0
  {
    if rows != [] {
      var n := |rows| - 1;
      UnderIsExact(rows[..n], parent, x);
      LastRow(rows, parent, x);
    }
  }

  lemma LastRow(rows: seq<AccountRow>, parent: Option<Id>, x: Id)
    requires rows != [] && DistinctIds(rows)
    ensures RowOf(rows, x, parent) <==> RowOf(rows[..|rows| - 1], x, parent) || rows[|rows| - 1] == AccountRow(x, parent)
    ensures !(RowOf(rows[..|rows| - 1], x, parent) && rows[|rows| - 1] == AccountRow(x, parent))
  {
    var n := |rows| - 1;
    if i :| 0 <= i < |rows| && rows[i] == AccountRow(x, parent) {
      assert i < n ==> rows[..n][i] == AccountRow(x, parent);
    }
    if i :| 0 <= i < n && rows[..n][i] == AccountRow(x, parent) {
      assert rows[i] == AccountRow(x, parent);
    }
  }

  lemma UnderParent(rows: seq<AccountRow>, parents: Parents, parent: Option<Id>, x: Id)
    requires DistinctIds(rows) && Describes(parents, rows)
    ensures multiset(Under(rows, parent))[x] == Placed(parents, x, parent)
  {
    UnderIsExact(rows, parent, x);
    if RowOf(rows, x, parent) {
      var i :| 0 <= i < |rows| && rows[i] == AccountRow(x, parent);
      assert rows[i].id in parents;
    }
  }

  /** How often an account belongs under a parent: once or not at all. */
  ghost function Placed(parents: Parents, x: Id, parent: Option<Id>): nat {
    if x in parents && parents[x] == parent then 1 else 0
  }

  ghost predicate Index(children: map<Id, seq<Id>>, parents: Parents) {
    forall p, x :: multiset(ChildrenIn(children, p))[x] == Placed(parents, x, Some(p))
  }

  lemma IndexMember(children: map<Id, seq<Id>>, parents: Parents, p: Id, i: nat)
    requires Index(children, parents) && i < |ChildrenIn(children, p)|
    ensures ChildrenIn(children, p)[i] in parents && parents[ChildrenIn(children, p)[i]] == Some(p)
  {
    assert ChildrenIn(children, p)[i] in multiset(ChildrenIn(children, p));
  }

  /** Every occurrence of a parent brings exactly one occurrence of each of its children, and there are no others. */
  lemma {:induction false} OccursUnderParent(children: map<Id, seq<Id>>, parents: Parents, id: Id, k: Ranking, x: Id)
    requires Index(children, parents) && Layered(children, k) && k.rank(id) <= k.bound
    ensures Occurrences(Build(children, id, k), x) ==
            (if id == x then 1 else 0)
            + if x in parents && parents[x].Some? then Occurrences(Build(children, id, k), parents[x].value) else 0
    decreases k.bound - k.rank(id), 0, 0
  {
    AllOccurUnderParent(children, parents, ChildrenIn(children, id), k.rank(id), k, x);
  }

  lemma {:induction false} AllOccurUnderParent(children: map<Id, seq<Id>>, parents: Parents, ids: seq<Id>, above: int, k: Ranking, x: Id)
    requires Index(children, parents) && Layered(children, k) && above <= k.bound
    requires forall i :: 0 <= i < |ids| ==> above < k.rank(ids[i]) <= k.bound
    ensures OccurrencesAll(BuildAll(children, ids, above, k), x) ==
            multiset(ids)[x]
            + if x in parents && parents[x].Some? then OccurrencesAll(BuildAll(children, ids, above, k), parents[x].value) else 0
    decreases k.bound - above, -1, |ids|
  {
    if ids != [] {
      var n := |ids| - 1;
      assert ids == ids[..n] + [ids[n]];
      AllOccurUnderParent(children, parents, ids[..n], above, k, x);
      OccursUnderParent(children, parents, ids[n], k, x);
    }
  }

  lemma {:induction false} BuiltWellPlaced(children: map<Id, seq<Id>>, parents: Parents, id: Id, k: Ranking)
    requires Index(children, parents) && Layered(children, k) && k.rank(id) <= k.bound
    ensures WellPlaced(Build(children, id, k), parents)
    decreases k.bound - k.rank(id)
  {
    var kids := ChildrenIn(children, id);
    var trees := BuildAll(children, kids, k.rank(id), k);
    forall i | 0 <= i < |trees|
      ensures trees[i].id in parents && parents[trees[i].id] == Some(id) && WellPlaced(trees[i], parents)
    {
      IndexMember(children, parents, id, i);
      BuildAllAt(children, kids, k.rank(id), k, i);
      BuiltWellPlaced(children, parents, kids[i], k);
    }
  }

  lemma {:induction false} BuildAllAt(children: map<Id, seq<Id>>, ids: seq<Id>, above: int, k: Ranking, i: nat)
    requires Layered(children, k) && above <= k.bound && i < |ids|
    requires forall j :: 0 <= j < |ids| ==> above < k.rank(ids[j]) <= k.bound
    ensures BuildAll(children, ids, above, k)[i] == Build(children, ids[i], k)
    decreases |ids|
  {
    if i < |ids| - 1 {
      BuildAllAt(children, ids[..|ids| - 1], above, k, i);
    }
  }

  /** A forest of an account table. */
  ghost predicate ForestOf(trees: seq<Tree>, parents: Parents) {
    && (forall x :: OccurrencesAll(trees, x) == if x in parents then 1 else 0)
    && (forall i :: 0 <= i < |trees| ==>
          trees[i].id in parents && parents[trees[i].id] == None && WellPlaced(trees[i], parents))
  }

  ghost predicate LowestRank(k: Ranking, above: int, ids: seq<Id>) {
    above <= k.bound && forall i :: 0 <= i < |ids| ==> above < k.rank(ids[i]) <= k.bound
  }

  lemma {:induction false} ForestOccurrence(children: map<Id, seq<Id>>, parents: Parents, roots: seq<Id>, above: int, k: Ranking, x: Id)
    requires Index(children, parents) && Layered(children, k) && LowestRank(k, above, roots)
    requires Ranks(parents, k) && ParentsExist(parents) && (forall y :: y in parents ==> k.rank(y) > above)
    requires forall y :: multiset(roots)[y] == Placed(parents, y, None)
    ensures OccurrencesAll(BuildAll(children, roots, above, k), x) == if x in parents then 1 else 0
    decreases if x in parents then k.rank(x) - above else 0
  {
    AllOccurUnderParent(children, parents, roots, above, k, x);
    if x in parents && parents[x].Some? {
      ForestOccurrence(children, parents, roots, above, k, parents[x].value);
    }
  }

  lemma BuiltForest(children: map<Id, seq<Id>>, parents: Parents, roots: seq<Id>, above: int, k: Ranking)
    requires Index(children, parents) && Layered(children, k) && LowestRank(k, above, roots)
    requires Ranks(parents, k) && ParentsExist(parents) && (forall y :: y in parents ==> k.rank(y) > above)
    requires forall y :: multiset(roots)[y] == Placed(parents, y, None)
    ensures ForestOf(BuildAll(children, roots, above, k), parents)
  {
    forall x
      ensures OccurrencesAll(BuildAll(children, roots, above, k), x) == if x in parents then 1 else 0
    {
      ForestOccurrence(children, parents, roots, above, k, x);
    }
    forall i | 0 <= i < |roots|
      ensures roots[i] in parents && parents[roots[i]] == None
      ensures WellPlaced(BuildAll(children, roots, above, k)[i], parents)
    {
      assert roots[i] in multiset(roots);
      BuildAllAt(children, roots, above, k, i);
      BuiltWellPlaced(children, parents, roots[i], k);
    }
  }

  // Siblings keep the order of the list.

  ghost predicate Precedes(rows: seq<AccountRow>, x: Id, y: Id) {
    exists a, b :: 0 <= a < b < |rows| && rows[a].id == x && rows[b].id == y
  }

  ghost predicate InRowOrder(rows: seq<AccountRow>, ids: seq<Id>) {
    forall i, j :: 0 <= i < j < |ids| ==> Precedes(rows, ids[i], ids[j])
  }

  /** Below every node siblings stand as in the list. */
  ghost predicate Ordered(t: Tree, rows: seq<AccountRow>) {
    && (forall i, j :: 0 <= i < j < |t.children| ==> Precedes(rows, t.children[i].id, t.children[j].id))
    && (forall i :: 0 <= i < |t.children| ==> Ordered(t.children[i], rows))
  }

  ghost predicate ForestOrdered(trees: seq<Tree>, rows: seq<AccountRow>) {
    && (forall i, j :: 0 <= i < j < |trees| ==> Precedes(rows, trees[i].id, trees[j].id))
    && (forall i :: 0 <= i < |trees| ==> Ordered(trees[i], rows))
  }

  lemma PrecedesLater(rows: seq<AccountRow>, x: Id, y: Id)
    requires rows != [] && Precedes(rows[..|rows| - 1], x, y)
    ensures Precedes(rows, x, y)
  {
    var a, b :| 0 <= a < b < |rows| - 1 && rows[..|rows| - 1][a].id == x && rows[..|rows| - 1][b].id == y;
    assert rows[a].id == x && rows[b].id == y;
  }

  lemma {:induction false} UnderIsListed(rows: seq<AccountRow>, parent: Option<Id>, x: Id)
    requires x in Under(rows, parent)
    ensures exists a :: 0 <= a < |rows| && rows[a].id == x
  {
    var n := |rows| - 1;
    if x in Under(rows[..n], parent) {
      UnderIsListed(rows[..n], parent, x);
      var a :| 0 <= a < n && rows[..n][a].id == x;
      assert rows[a].id == x;
    } else {
      assert rows[n].id == x;
    }
  }

  lemma {:induction false} UnderInRowOrder(rows: seq<AccountRow>, parent: Option<Id>)
    ensures InRowOrder(rows, Under(rows, parent))
  {
    hide Precedes;
    if rows != [] {
      var n := |rows| - 1;
      var before, all := Under(rows[..n], parent), Under(rows, parent);
      UnderInRowOrder(rows[..n], parent);
      forall i, j | 0 <= i < j < |all|
        ensures Precedes(rows, all[i], all[j])
      {
        if j < |before| {
          PrecedesLater(rows, all[i], all[j]);
        } else {
          LastIsLast(rows, parent, all[i]);
        }
      }
    }
  }

  lemma LastIsLast(rows: seq<AccountRow>, parent: Option<Id>, x: Id)
    requires rows != [] && x in Under(rows[..|rows| - 1], parent)
    ensures Precedes(rows, x, rows[|rows| - 1].id)
  {
    var n := |rows| - 1;
    UnderIsListed(rows[..n], parent, x);
    var a :| 0 <= a < n && rows[..n][a].id == x;
    assert rows[a].id == x && rows[n].id == rows[|rows| - 1].id;
  }

  lemma {:induction false} BuiltOrdered(children: map<Id, seq<Id>>, rows: seq<AccountRow>, id: Id, k: Ranking)
    requires Indexes(children, rows) && Layered(children, k) && k.rank(id) <= k.bound
    ensures Ordered(Build(children, id, k), rows)
    decreases k.bound - k.rank(id)
  {
    hide Precedes, Under;
    var kids := ChildrenIn(children, id);
    var trees := BuildAll(children, kids, k.rank(id), k);
    UnderInRowOrder(rows, Some(id));
    forall i | 0 <= i < |trees|
      ensures Ordered(trees[i], rows)
    {
      BuildAllAt(children, kids, k.rank(id), k, i);
      BuiltOrdered(children, rows, kids[i], k);
    }
  }

  lemma BuiltForestOrdered(children: map<Id, seq<Id>>, rows: seq<AccountRow>, roots: seq<Id>, above: int, k: Ranking)
    requires Indexes(children, rows) && Layered(children, k) && LowestRank(k, above, roots) && roots == Under(rows, None)
    ensures ForestOrdered(BuildAll(children, roots, above, k), rows)
  {
    hide Precedes, Under;
    var trees := BuildAll(children, roots, above, k);
    UnderInRowOrder(rows, None);
    forall i | 0 <= i < |trees|
      ensures Ordered(trees[i], rows)
    {
      BuildAllAt(children, roots, above, k, i);
      BuiltOrdered(children, rows, roots[i], k);
    }
  }

  // Cycle detection.

  ghost predicate StepUp(parents: Parents, path: seq<Id>, id: Id, i: nat)
    requires i < |path|
  {
    path[i] in parents && parents[path[i]] == Some(if i + 1 < |path| then path[i + 1] else id)
  }

  /** The accounts on the way from a start to id, each the child of the next. */
  ghost predicate Path(parents: Parents, path: seq<Id>, id: Id) {
    forall i :: 0 <= i < |path| ==> StepUp(parents, path, id, i)
  }

  lemma {:induction false} RankFallsAlongPath(parents: Parents, path: seq<Id>, id: Id, k: Ranking, i: nat)
    requires Path(parents, path, id) && Ranks(parents, k) && i < |path|
    ensures k.rank(path[i]) > k.rank(id)
    decreases |path| - i
  {
    assert StepUp(parents, path, id, i);
    if i + 1 < |path| {
      RankFallsAlongPath(parents, path, id, k, i + 1);
    }
  }

  lemma PathExtended(parents: Parents, path: seq<Id>, id: Id)
    requires Path(parents, path, id) && id in parents && parents[id].Some?
    ensures Path(parents, path + [id], parents[id].value)
  {
    forall i | 0 <= i < |path|
      ensures StepUp(parents, path + [id], parents[id].value, i)
    {
      assert StepUp(parents, path, id, i);
    }
  }

  lemma PathToItself(parents: Parents, path: seq<Id>, id: Id)
    requires Path(parents, path, id) && id in path
    ensures !Acyclic(parents)
  {
    var i :| 0 <= i < |path| && path[i] == id;
    if k :| Ranks(parents, k) {
      RankFallsAlongPath(parents, path, id, k, i);
    }
  }

  /** Accounts that were left with state 2: closed under parents and ranked. */
  ghost predicate Finished(parents: Parents, rank: map<Id, int>) {
    && rank.Keys <= parents.Keys
    && (forall x :: x in rank ==> 0 <= rank[x] < |rank|)
    && (forall x :: x in rank && parents[x].Some? ==> parents[x].value in rank && rank[parents[x].value] < rank[x])
  }

  ghost predicate States(parents: Parents, state: map<Id, int>, path: seq<Id>, rank: map<Id, int>) {
    && state.Keys <= parents.Keys
    && (forall x :: x in state ==> state[x] == 1 || state[x] == 2)
    && (forall x :: x in path <==> x in state && state[x] == 1)
    && (forall x :: x in rank <==> x in state && state[x] == 2)
  }

  /** The three-colour walk up the parents of one account. */
  method Visit(parents: Parents, state: map<Id, int>, id: Id, ghost path: seq<Id>, ghost rank: map<Id, int>)
    returns (ok: bool, after: map<Id, int>, ghost rank': map<Id, int>)
    requires ParentsExist(parents) && id in parents
    requires Path(parents, path, id) && Finished(parents, rank) && States(parents, state, path, rank)
    ensures ok ==> Finished(parents, rank') && States(parents, after, path, rank') && id in rank' && rank.Keys <= rank'.Keys
    ensures !ok ==> !Acyclic(parents)
    decreases parents.Keys - state.Keys
  {
    after, rank' := state, rank;
    if id in state && state[id] == 1 {
      PathToItself(parents, path, id);
      return false, after, rank';
    }
    if id in state && state[id] == 2 {
      return true, after, rank';
    }
    after := after[id := 1];
    if parents[id].Some? {
      assert id in parents.Keys - state.Keys;
      PathExtended(parents, path, id);
      ok, after, rank' := Visit(parents, after, parents[id].value, path + [id], rank);
      if !ok {
        return false, after, rank';
      }
    }
    assert id in path + [id] && after[id] == 1;
    ghost var own := if parents[id].Some? then rank'[parents[id].value] + 1 else 0;
    Finish(parents, after, id, path, rank', own);
    return true, after[id := 2], rank'[id := own];
  }

  /** Leaving an account: it goes from the path to the finished ones, one rank above its parent. */
  lemma Finish(parents: Parents, state: map<Id, int>, id: Id, path: seq<Id>, rank: map<Id, int>, own: int)
    requires id in parents && id !in path && Finished(parents, rank) && States(parents, state, path + [id], rank)
    requires parents[id].Some? ==> parents[id].value in rank && own == rank[parents[id].value] + 1
    requires parents[id].None? ==> own == 0
    ensures Finished(parents, rank[id := own]) && States(parents, state[id := 2], path, rank[id := own])
  {
    assert id in path + [id] && state[id] == 1 && id !in rank;
    FinishRank(parents, id, rank, own);
    FinishState(parents, state, id, path, rank, own);
  }

  lemma FinishRank(parents: Parents, id: Id, rank: map<Id, int>, own: int)
    requires id in parents && id !in rank && Finished(parents, rank)
    requires parents[id].Some? ==> parents[id].value in rank && own == rank[parents[id].value] + 1
    requires parents[id].None? ==> own == 0
    ensures Finished(parents, rank[id := own])
  {
    assert |rank[id := own]| == |rank| + 1;
  }

  lemma FinishState(parents: Parents, state: map<Id, int>, id: Id, path: seq<Id>, rank: map<Id, int>, own: int)
    requires id !in path && States(parents, state, path + [id], rank) && id in state
    ensures States(parents, state[id := 2], path, rank[id := own])
  {
    assert forall x :: x in path + [id] <==> x in path || x == id;
  }

  // The use case.

  ghost predicate NoNil(accounts: seq<Option<AccountRow>>) {
    forall i :: 0 <= i < |accounts| ==> accounts[i].Some?
  }

  function Unwrap(accounts: seq<Option<AccountRow>>): seq<AccountRow>
    requires NoNil(accounts)
  {
    seq(|accounts|, i requires 0 <= i < |accounts| => accounts[i].value)
  }

  ghost predicate DistinctAccounts(accounts: seq<Option<AccountRow>>) {
    forall i, j :: 0 <= i < j < |accounts| && accounts[i].Some? && accounts[j].Some? ==> accounts[i].value.id != accounts[j].value.id
  }

  function TableOf(rows: seq<AccountRow>): Parents {
    if rows == [] then map[] else
    TableOf(rows[..|rows| - 1])[rows[|rows| - 1].id := rows[|rows| - 1].parent]
  }

  lemma {:induction false} TableDescribes(rows: seq<AccountRow>)
    requires DistinctIds(rows)
    ensures Describes(TableOf(rows), rows)
  {
    if rows != [] {
      var n := |rows| - 1;
      TableDescribes(rows[..n]);
      forall x | x in TableOf(rows)
        ensures RowOf(rows, x, TableOf(rows)[x])
      {
        if x == rows[n].id {
          assert rows[n] == AccountRow(x, rows[n].parent);
        } else {
          assert RowOf(rows[..n], x, TableOf(rows[..n])[x]);
          LastRow(rows, TableOf(rows)[x], x);
        }
      }
      forall i | 0 <= i < |rows|
        ensures rows[i].id in TableOf(rows) && TableOf(rows)[rows[i].id] == rows[i].parent
      {
        if i < n {
          assert rows[..n][i] == rows[i];
        }
      }
    }
  }

  lemma TableNext(rows: seq<AccountRow>, row: AccountRow)
    requires DistinctIds(rows) && row.id !in TableOf(rows)
    ensures DistinctIds(rows + [row]) && TableOf(rows + [row]) == TableOf(rows)[row.id := row.parent]
    ensures Describes(TableOf(rows + [row]), rows + [row])
  {
    TableDescribes(rows);
    assert (rows + [row])[..|rows|] == rows;
    forall i | 0 <= i < |rows|
      ensures rows[i].id != row.id
    {
      assert rows[i].id in TableOf(rows);
    }
    TableDescribes(rows + [row]);
  }

  /** The account table as the repository returned it: no nil, no id twice, every parent listed. */
  ghost predicate WellFormed(accounts: seq<Option<AccountRow>>) {
    NoNil(accounts) && DistinctAccounts(accounts) && ParentsExist(TableOf(Unwrap(accounts)))
  }

  /** The first n accounts are these rows, indexed by id. */
  ghost predicate Indexed(accounts: seq<Option<AccountRow>>, n: nat, rows: seq<AccountRow>, byId: Parents) {
    && n <= |accounts| && |rows| == n && (forall k :: 0 <= k < n ==> accounts[k] == Some(rows[k]))
    && DistinctIds(rows) && byId == TableOf(rows) && Describes(byId, rows)
  }

  lemma IndexedNext(accounts: seq<Option<AccountRow>>, n: nat, rows: seq<AccountRow>, byId: Parents, row: AccountRow)
    requires Indexed(accounts, n, rows, byId) && n < |accounts| && accounts[n] == Some(row) && row.id !in byId
    ensures Indexed(accounts, n + 1, rows + [row], byId[row.id := row.parent])
  {
    TableNext(rows, row);
    hide TableOf, Describes, DistinctIds;
  }

  lemma SecondRow(accounts: seq<Option<AccountRow>>, n: nat, rows: seq<AccountRow>, byId: Parents, row: AccountRow)
    requires Indexed(accounts, n, rows, byId) && n < |accounts| && accounts[n] == Some(row) && row.id in byId
    ensures !DistinctAccounts(accounts)
  {
    hide TableOf, DistinctIds;
    assert RowOf(rows, row.id, byId[row.id]);
    var k :| 0 <= k < |rows| && rows[k] == AccountRow(row.id, byId[row.id]);
    assert accounts[k].value.id == accounts[n].value.id;
  }

  lemma AllIndexed(accounts: seq<Option<AccountRow>>, rows: seq<AccountRow>, byId: Parents)
    requires Indexed(accounts, |accounts|, rows, byId)
    ensures NoNil(accounts) && DistinctAccounts(accounts) && rows == Unwrap(accounts) && DistinctIds(rows) && byId == TableOf(rows)
  {
    hide TableOf, Describes;
  }

  method IndexById(accounts: seq<Option<AccountRow>>) returns (rows: seq<AccountRow>, byId: Parents, error: Option<TreeError>)
    ensures error.None? <==> NoNil(accounts) && DistinctAccounts(accounts)
    ensures error.Some? ==> error.value == NilAccount || error.value == DuplicateId
    ensures error.None? ==> rows == Unwrap(accounts) && DistinctIds(rows) && byId == TableOf(rows)
  {
    rows, byId, error := [], map[], None;
    assert Indexed(accounts, 0, rows, byId);
    hide Indexed, DistinctAccounts, DistinctIds, TableOf;
    for i := 0 to |accounts|
      invariant Indexed(accounts, i, rows, byId)
    {
      if accounts[i].None? {
        return rows, byId, Some(NilAccount);
      }
      var row := accounts[i].value;
      if row.id in byId {
        SecondRow(accounts, i, rows, byId, row);
        return rows, byId, Some(DuplicateId);
      }
      IndexedNext(accounts, i, rows, byId, row);
      rows, byId := rows + [row], byId[row.id := row.parent];
    }
    AllIndexed(accounts, rows, byId);
  }

  lemma UnderNext(rows: seq<AccountRow>, i: nat, parent: Option<Id>)
    requires i < |rows|
    ensures Under(rows[..i + 1], parent) == Under(rows[..i], parent) + if rows[i].parent == parent then [rows[i].id] else []
  {
    assert rows[..i + 1][..i] == rows[..i];
  }

  lemma IndexesNext(children: map<Id, seq<Id>>, after: map<Id, seq<Id>>, rows: seq<AccountRow>, i: nat)
    requires i < |rows| && Indexes(children, rows[..i])
    requires after == if rows[i].parent.None? then children
                      else children[rows[i].parent.value := ChildrenIn(children, rows[i].parent.value) + [rows[i].id]]
    ensures Indexes(after, rows[..i + 1])
  {
    forall p
      ensures ChildrenIn(after, p) == Under(rows[..i + 1], Some(p))
    {
      UnderNext(rows, i, Some(p));
      assert ChildrenIn(children, p) == Under(rows[..i], Some(p));
    }
  }

  lemma AllParentsListed(rows: seq<AccountRow>, byId: Parents)
    requires Describes(byId, rows) && forall k :: 0 <= k < |rows| && rows[k].parent.Some? ==> rows[k].parent.value in byId
    ensures ParentsExist(byId)
  {
    forall x | x in byId && byId[x].Some?
      ensures byId[x].value in byId
    {
      assert RowOf(rows, x, byId[x]);
    }
  }

  lemma NotListed(rows: seq<AccountRow>, byId: Parents, i: nat)
    requires i < |rows| && Describes(byId, rows) && rows[i].parent.Some? && rows[i].parent.value !in byId
    ensures !ParentsExist(byId)
  {
    assert byId[rows[i].id] == rows[i].parent;
  }

  lemma NothingIndexed(rows: seq<AccountRow>)
    ensures Indexes(map[], rows[..0]) && Under(rows[..0], None) == []
  {
  }

  method IndexByParent(rows: seq<AccountRow>, byId: Parents) returns (ok: bool, children: map<Id, seq<Id>>, roots: seq<Id>)
    requires DistinctIds(rows) && byId == TableOf(rows)
    ensures ok <==> ParentsExist(byId)
    ensures ok ==> Indexes(children, rows) && roots == Under(rows, None)
  {
    TableDescribes(rows);
    hide Under, Indexes, ParentsExist, Describes, DistinctIds, TableOf;
    children, roots := map[], [];
    NothingIndexed(rows);
    for i := 0 to |rows|
      invariant forall k :: 0 <= k < i && rows[k].parent.Some? ==> rows[k].parent.value in byId
      invariant Indexes(children, rows[..i]) && roots == Under(rows[..i], None)
    {
      ghost var before := children;
      UnderNext(rows, i, None);
      if rows[i].parent.None? {
        roots := roots + [rows[i].id];
      } else {
        var parent := rows[i].parent.value;
        if parent !in byId {
          NotListed(rows, byId, i);
          return false, children, roots;
        }
        children := children[parent := ChildrenIn(children, parent) + [rows[i].id]];
      }
      IndexesNext(before, children, rows, i);
    }
    assert rows[..|rows|] == rows;
    AllParentsListed(rows, byId);
    return true, children, roots;
  }

  method FindCycle(parents: Parents) returns (ok: bool, ghost k: Ranking)
    requires ParentsExist(parents)
    ensures ok <==> Acyclic(parents)
    ensures ok ==> Ranks(parents, k) && k.bound >= 0 && forall x :: x in parents ==> k.rank(x) > -1
  {
    hide Finished, States, Acyclic, Ranks, Path;
    var state: map<Id, int>, pending := map[], parents.Keys;
    NothingFinished(parents);
    ghost var rank: map<Id, int> := map[];
    k := Ranking((x: Id) => 0, 0);
    while pending != {}
      invariant pending <= parents.Keys
      invariant Finished(parents, rank) && States(parents, state, [], rank)
      invariant parents.Keys - pending <= rank.Keys
      decreases pending
    {
      var id :| id in pending;
      EmptyPath(parents, id);
      ok, state, rank := Visit(parents, state, id, [], rank);
      if !ok {
        return false, k;
      }
      pending := pending - {id};
    }
    k := RankingOf(rank);
    RanksByFinish(parents, rank);
    return true, k;
  }

  lemma NothingFinished(parents: Parents)
    ensures Finished(parents, map[]) && States(parents, map[], [], map[])
  {
  }

  lemma EmptyPath(parents: Parents, id: Id)
    requires id in parents
    ensures Path(parents, [], id)
  {
  }

  ghost function RankingOf(rank: map<Id, int>): Ranking {
    Ranking((x: Id) => if x in rank then rank[x] else 0, |rank|)
  }

  lemma RanksByFinish(parents: Parents, rank: map<Id, int>)
    requires Finished(parents, rank) && parents.Keys <= rank.Keys
    ensures Ranks(parents, RankingOf(rank)) && Acyclic(parents) && forall x :: x in parents ==> RankingOf(rank).rank(x) > -1
  {
    var k := RankingOf(rank);
    assert forall x :: x in parents ==> x in rank && k.rank(x) == rank[x];
    assert Ranks(parents, k);
  }

  lemma IndexedByParent(children: map<Id, seq<Id>>, rows: seq<AccountRow>, parents: Parents, k: Ranking)
    requires DistinctIds(rows) && parents == TableOf(rows) && Indexes(children, rows)
    requires ParentsExist(parents) && Ranks(parents, k)
    ensures Index(children, parents) && Layered(children, k)
    ensures forall y :: multiset(Under(rows, None))[y] == Placed(parents, y, None)
  {
    TableDescribes(rows);
    forall p, x
      ensures multiset(ChildrenIn(children, p))[x] == Placed(parents, x, Some(p))
    {
      UnderParent(rows, parents, Some(p), x);
    }
    forall y
      ensures multiset(Under(rows, None))[y] == Placed(parents, y, None)
    {
      UnderParent(rows, parents, None, y);
    }
    forall p, i | 0 <= i < |ChildrenIn(children, p)|
      ensures k.rank(p) < k.rank(ChildrenIn(children, p)[i]) <= k.bound
    {
      IndexMember(children, parents, p, i);
    }
  }

  lemma RootsAboveBottom(parents: Parents, roots: seq<Id>, k: Ranking)
    requires Ranks(parents, k) && k.bound >= 0 && forall x :: x in parents ==> k.rank(x) > -1
    requires forall y :: multiset(roots)[y] == Placed(parents, y, None)
    ensures LowestRank(k, -1, roots)
  {
    forall i | 0 <= i < |roots|
      ensures -1 < k.rank(roots[i]) <= k.bound
    {
      assert roots[i] in multiset(roots);
    }
  }

  method BuildTrees(children: map<Id, seq<Id>>, roots: seq<Id>, ghost k: Ranking) returns (tree: seq<Tree>)
    requires Layered(children, k) && LowestRank(k, -1, roots)
    ensures tree == BuildAll(children, roots, -1, k)
  {
    tree := [];
    for i := 0 to |roots|
      invariant tree == BuildAll(children, roots[..i], -1, k)
    {
      assert roots[..i + 1][..i] == roots[..i];
      tree := tree + [Build(children, roots[i], k)];
    }
    assert roots[..|roots|] == roots;
  }

  /** ListAccountsTree: it fails exactly on a nil account, a repeated id, a missing parent or a cycle,
      in whatever order the accounts are visited; else it lists every account once, under its own parent, and siblings in list order. */
  method ListAccountsTree(accounts: seq<Option<AccountRow>>) returns (r: Listing)
    ensures r.Forest? <==> WellFormed(accounts) && Acyclic(TableOf(Unwrap(accounts)))
    ensures r.Forest? ==> ForestOf(r.trees, TableOf(Unwrap(accounts))) && ForestOrdered(r.trees, Unwrap(accounts))
    ensures r == Failed(CycleFound) <==> WellFormed(accounts) && !Acyclic(TableOf(Unwrap(accounts)))
    ensures r == Failed(MissingParent) <==> NoNil(accounts) && DistinctAccounts(accounts) && !WellFormed(accounts)
  {
    var rows, byId, error := IndexById(accounts);
    if error.Some? {
      return Failed(error.value);
    }
    var parentsListed, children, roots := IndexByParent(rows, byId);
    if !parentsListed {
      return Failed(MissingParent);
    }
    ghost var k: Ranking;
    var acyclic;
    acyclic, k := FindCycle(byId);
    if !acyclic {
      return Failed(CycleFound);
    }
    IndexedByParent(children, rows, byId, k);
    RootsAboveBottom(byId, roots, k);
    BuiltForest(children, byId, roots, -1, k);
    BuiltForestOrdered(children, rows, roots, -1, k);
    var tree := BuildTrees(children, roots, k);
    return Forest(tree);
  }
}
