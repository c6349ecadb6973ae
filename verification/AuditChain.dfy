/** The financial audit log: a chain of hashes over every recorded action. */
module AuditChain {
  import opened Ledger
  import opened Text
  import opened Hashing

  /** The fields of a log row that its hash covers. */
  datatype Hashed = Hashed(previous: string, entity: Id, action: string, payload: string, at: int)

  datatype AuditRow = AuditRow(entityType: string, actor: Id, fields: Hashed, hash: string)

  datatype AuditError = BrokenLink(row: nat) | PayloadMismatch(row: nat)

  function AuditText(previous: string, entity: Id, action: string, payload: string, at: int): string {
    previous + ['|'] + (Decimal(entity) + ['|'] + (action + ['|'] + (payload + ['|'] + Signed(at))))
  }

  /** AuditHasher.ComputeHash */
  function AuditHasher(sha: Sha): Hashed -> string {
    (f: Hashed) => sha(AuditText(f.previous, f.entity, f.action, f.payload, f.at))
  }

  function LastHash(log: seq<AuditRow>): string {
    if log == [] then "" else log[|log| - 1].hash
  }

  /** insertAuditLog: the new row is bound to the newest one. */
  function Appended(hasher: Hashed -> string, log: seq<AuditRow>, entityType: string, entity: Id, action: string,
                    actor: Id, payload: string, at: int): seq<AuditRow>
  {
    var fields := Hashed(LastHash(log), entity, action, payload, at);
    log + [AuditRow(entityType, actor, fields, hasher(fields))]
  }

  predicate LinkHolds(log: seq<AuditRow>, i: nat)
    requires i < |log|
  {
    log[i].fields.previous == if i == 0 then "" else log[i - 1].hash
  }

  predicate HashHolds(hasher: Hashed -> string, r: AuditRow) {
    r.hash == hasher(r.fields)
  }

  predicate RowHolds(hasher: Hashed -> string, log: seq<AuditRow>, i: nat)
    requires i < |log|
  {
    LinkHolds(log, i) && HashHolds(hasher, log[i])
  }

  ghost predicate Verified(hasher: Hashed -> string, log: seq<AuditRow>) {
    forall i :: 0 <= i < |log| ==> RowHolds(hasher, log, i)
  }

  /** The loop over the log in id order: no error exactly for an intact chain, else the first bad row. */
  method VerifyAuditIntegrity(hasher: Hashed -> string, log: seq<AuditRow>) returns (err: Option<AuditError>)
    ensures err.None? <==> Verified(hasher, log)
    ensures err.Some? ==> err.value.row < |log| && Verified(hasher, log[..err.value.row])
    ensures err.Some? && err.value.BrokenLink? ==> !LinkHolds(log, err.value.row)
    ensures err.Some? && err.value.PayloadMismatch? ==>
              LinkHolds(log, err.value.row) && !HashHolds(hasher, log[err.value.row])
  {
    var expected := "";
    for i := 0 to |log|
      invariant expected == if i == 0 then "" else log[i - 1].hash
      invariant forall k :: 0 <= k < i ==> RowHolds(hasher, log, k)
    {
      PrefixVerified(hasher, log, i);
      assert RowHolds(hasher, log, i) <==> log[i].fields.previous == expected && hasher(log[i].fields) == log[i].hash;
      if log[i].fields.previous != expected {
        return Some(BrokenLink(i));
      }
      var calculated := hasher(log[i].fields);
      if calculated != log[i].hash {
        return Some(PayloadMismatch(i));
      }
      expected := log[i].hash;
    }
    return None;
  }

  lemma PrefixVerified(hasher: Hashed -> string, log: seq<AuditRow>, n: nat)
    requires n <= |log| && forall k :: 0 <= k < n ==> RowHolds(hasher, log, k)
    ensures Verified(hasher, log[..n])
  {
    forall k | 0 <= k < n
      ensures RowHolds(hasher, log[..n], k)
    {
      assert RowHolds(hasher, log, k);
    }
  }

  /** An intact chain stays intact when insertAuditLog extends it. */
  lemma AppendedVerified(hasher: Hashed -> string, log: seq<AuditRow>, entityType: string, entity: Id, action: string,
                         actor: Id, payload: string, at: int)
    requires Verified(hasher, log)
    ensures Verified(hasher, Appended(hasher, log, entityType, entity, action, actor, payload, at))
  {
    var log' := Appended(hasher, log, entityType, entity, action, actor, payload, at);
    forall i | 0 <= i < |log'|
      ensures RowHolds(hasher, log', i)
    {
      if i < |log| {
        assert RowHolds(hasher, log, i);
      }
    }
  }

  /** The hashed text can be read back, whatever the payload contains. */
  lemma AuditTextInjective(p: string, e: Id, a: string, x: string, t: int, p': string, e': Id, a': string, x': string, t': int)
    requires '|' !in p && '|' !in p' && '|' !in a && '|' !in a'
    requires AuditText(p, e, a, x, t) == AuditText(p', e', a', x', t')
    ensures p == p' && e == e' && a == a' && x == x' && t == t'
  {
    var r3, r3' := x + ['|'] + Signed(t), x' + ['|'] + Signed(t');
    var r2, r2' := a + ['|'] + r3, a' + ['|'] + r3';
    SplitAtFirst(p, Decimal(e) + ['|'] + r2, p', Decimal(e') + ['|'] + r2', '|');
    SplitAtFirst(Decimal(e), r2, Decimal(e'), r2', '|');
    PaddedInjective(e, e', 1);
    SplitAtFirst(a, r3, a', r3', '|');
    SplitAtLast(x, Signed(t), x', Signed(t'), '|');
    SignedInjective(t, t');
  }

  ghost predicate Clean(f: Hashed) {
    '|' !in f.previous && '|' !in f.action
  }

  /** A hash that fixes every field it covers, when link and action are free of the separator. */
  ghost predicate Binding(hasher: Hashed -> string) {
    && (forall f :: '|' !in hasher(f))
    && (forall a, b :: Clean(a) && Clean(b) && hasher(a) == hasher(b) ==> a == b)
  }

  lemma AuditHasherBinding(sha: Sha)
    requires CollisionFree(sha) && WithoutSeparator(sha)
    ensures Binding(AuditHasher(sha))
  {
    var hasher := AuditHasher(sha);
    forall f
      ensures '|' !in hasher(f)
    {
      assert '|' !in sha(AuditText(f.previous, f.entity, f.action, f.payload, f.at));
    }
    forall a, b | Clean(a) && Clean(b) && hasher(a) == hasher(b)
      ensures a == b
    {
      AuditTextInjective(a.previous, a.entity, a.action, a.payload, a.at, b.previous, b.entity, b.action, b.payload, b.at);
    }
  }

  lemma RowClean(hasher: Hashed -> string, log: seq<AuditRow>, n: nat)
    requires Binding(hasher) && Verified(hasher, log) && n < |log| && '|' !in log[n].fields.action
    ensures Clean(log[n].fields) && HashHolds(hasher, log[n]) && LinkHolds(log, n)
  {
    assert RowHolds(hasher, log, n);
    if n > 0 {
      assert RowHolds(hasher, log, n - 1);
    }
  }

  ghost predicate CleanActions(log: seq<AuditRow>) {
    forall i :: 0 <= i < |log| ==> '|' !in log[i].fields.action
  }

  lemma RowDetermined(hasher: Hashed -> string, log: seq<AuditRow>, log': seq<AuditRow>, i: nat)
    requires Binding(hasher) && Verified(hasher, log) && Verified(hasher, log')
    requires i < |log| == |log'| && '|' !in log[i].fields.action && '|' !in log'[i].fields.action
    requires log[i].hash == log'[i].hash
    ensures log[i].fields == log'[i].fields
    ensures i > 0 ==> log[i - 1].hash == log'[i - 1].hash
  {
    RowClean(hasher, log, i);
    RowClean(hasher, log', i);
  }

  lemma {:induction false} HashesAgree(hasher: Hashed -> string, log: seq<AuditRow>, log': seq<AuditRow>, i: nat)
    requires Binding(hasher) && Verified(hasher, log) && Verified(hasher, log')
    requires CleanActions(log) && CleanActions(log')
    requires i < |log| == |log'| && LastHash(log) == LastHash(log')
    ensures log[i].hash == log'[i].hash
    decreases |log| - i
  {
    if i + 1 < |log| {
      HashesAgree(hasher, log, log', i + 1);
      RowDetermined(hasher, log, log', i + 1);
    }
  }

  /** The last hash of an intact log determines all hashed fields of all its rows. */
  lemma LastHashDetermines(hasher: Hashed -> string, log: seq<AuditRow>, log': seq<AuditRow>)
    requires Binding(hasher) && Verified(hasher, log) && Verified(hasher, log')
    requires CleanActions(log) && CleanActions(log')
    requires |log| == |log'| && LastHash(log) == LastHash(log')
    ensures forall i :: 0 <= i < |log| ==> log[i].fields == log'[i].fields && log[i].hash == log'[i].hash
  {
    forall i | 0 <= i < |log|
      ensures log[i].fields == log'[i].fields && log[i].hash == log'[i].hash
    {
      HashesAgree(hasher, log, log', i);
      RowDetermined(hasher, log, log', i);
    }
  }
}
