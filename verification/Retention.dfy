/**
 Pruning expired runs. A run is eligible only if nothing of its lineage is still needed,
 so removing eligible runs never changes who else is eligible: batches of any size, in any
 order and over any number of sweeps, remove exactly the runs that were eligible at first.
 The clock stands still and nobody writes meanwhile.
 */
module Retention {
  import opened Options

  type Tenant = nat
  datatype RunKey = RunKey(tenant: Tenant, id: nat)

  datatype Run = Run(terminal: bool, persistent: bool, expireAfter: Option<nat>, root: nat)

  datatype Hook = Hook(owner: RunKey, retainedUntil: Option<nat>)

  // Rows of the other tables that belong to a run; an EOF chunk outlives it.
  datatype Detail = Detail(owner: RunKey, n: nat, eof: bool)

  datatype Store = Store(runs: map<RunKey, Run>, hooks: set<Hook>, details: set<Detail>)

  // The same tenant and the same root.
  predicate Kin(s: Store, a: RunKey, b: RunKey)
    requires a in s.runs && b in s.runs
  {
    a.tenant == b.tenant && s.runs[a].root == s.runs[b].root
  }

  predicate Expired(run: Run, now: nat) {
    run.terminal && run.expireAfter.Some? && run.expireAfter.value <= now
  }

  // A member of the lineage that keeps it: active, persistent or not expired.
  predicate Keeps(run: Run, now: nat) {
    !Expired(run, now) || run.persistent
  }

  predicate Reserved(h: Hook, now: nat) {
    h.retainedUntil.Some? && h.retainedUntil.value > now
  }

  predicate Eligible(s: Store, k: RunKey, now: nat) {
    && k in s.runs && Expired(s.runs[k], now)
    && (forall m | m in s.runs && Kin(s, k, m) :: !Keeps(s.runs[m], now))
    && (forall h | h in s.hooks && h.owner in s.runs && Kin(s, k, h.owner) :: !Reserved(h, now))
  }

  function EligibleSet(s: Store, now: nat): set<RunKey> {
    set k | k in s.runs && Eligible(s, k, now)
  }

  // What one batch's deletes leave.
  function Pruned(s: Store, victims: set<RunKey>, now: nat): Store {
    var runs := s.runs - victims;
    Store(runs,
          set h | h in s.hooks && h.owner !in victims
                  && (h.owner in runs || h.retainedUntil.None? || h.retainedUntil.value > now),
          set d | d in s.details && (d.owner !in victims || d.eof))
  }

  // -------------------------------------------------------------------------
  // Nothing that is needed goes

  // A lineage with an active, persistent or unexpired member, or a live reserved token,
  // has no eligible run.
  lemma NeededLineageIsKept(s: Store, k: RunKey, now: nat)
    requires k in s.runs
    requires (exists m :: m in s.runs && Kin(s, k, m) && Keeps(s.runs[m], now))
             || (exists h :: h in s.hooks && h.owner in s.runs && Kin(s, k, h.owner) && Reserved(h, now))
    ensures forall m | m in s.runs && Kin(s, k, m) :: !Eligible(s, m, now)
  {
    forall m | m in s.runs && Kin(s, k, m)
      ensures !Eligible(s, m, now)
    {
      if x :| x in s.runs && Kin(s, k, x) && Keeps(s.runs[x], now) {
        assert Kin(s, m, x);
      } else {
        var h :| h in s.hooks && h.owner in s.runs && Kin(s, k, h.owner) && Reserved(h, now);
        assert Kin(s, m, h.owner);
      }
    }
  }

  // Removing eligible runs changes nobody else's eligibility.
  lemma EligibilityIsStable(s: Store, victims: set<RunKey>, now: nat, k: RunKey)
    requires forall v | v in victims :: Eligible(s, v, now)
    ensures Eligible(Pruned(s, victims, now), k, now) <==> Eligible(s, k, now) && k !in victims
  {
    var s' := Pruned(s, victims, now);
    if k in s'.runs {
      if Eligible(s', k, now) {
        forall m | m in s.runs && Kin(s, k, m)
          ensures !Keeps(s.runs[m], now)
        {
          if m !in victims { assert m in s'.runs && Kin(s', k, m); }
        }
        forall h | h in s.hooks && h.owner in s.runs && Kin(s, k, h.owner)
          ensures !Reserved(h, now)
        {
          if h.owner in victims {
            assert Kin(s, h.owner, h.owner);
          } else {
            assert h in s'.hooks && Kin(s', k, h.owner);
          }
        }
      }
      if Eligible(s, k, now) {
        forall m | m in s'.runs && Kin(s', k, m)
          ensures !Keeps(s'.runs[m], now)
        {
          assert Kin(s, k, m);
        }
        forall h | h in s'.hooks && h.owner in s'.runs && Kin(s', k, h.owner)
          ensures !Reserved(h, now)
        {
          assert Kin(s, k, h.owner);
        }
      }
    }
  }

  lemma EligibleLeft(s: Store, victims: set<RunKey>, now: nat)
    requires victims <= EligibleSet(s, now)
    ensures EligibleSet(Pruned(s, victims, now), now) == EligibleSet(s, now) - victims
  {
    hide Eligible, Pruned;
    forall k
      ensures k in EligibleSet(Pruned(s, victims, now), now) <==> k in EligibleSet(s, now) - victims
    {
      hide EligibleSet;
      InSet(s, now, k);
      InSet(Pruned(s, victims, now), now, k);
      forall v | v in victims ensures Eligible(s, v, now) { InSet(s, now, v); }
      EligibilityIsStable(s, victims, now, k);
    }
  }

  lemma InSet(s: Store, now: nat, k: RunKey)
    ensures k in EligibleSet(s, now) <==> Eligible(s, k, now)
  {
  }

  // Batches compose: two prunes of eligible runs are one.
  lemma PrunesCompose(s: Store, a: set<RunKey>, b: set<RunKey>, now: nat)
    ensures Pruned(Pruned(s, a, now), b, now).runs == Pruned(s, a + b, now).runs
    ensures Pruned(Pruned(s, a, now), b, now).details == Pruned(s, a + b, now).details
    ensures Pruned(Pruned(s, a, now), b, now).hooks == Pruned(s, a + b, now).hooks
  {
  }

  // -------------------------------------------------------------------------
  // The batch loop

  // Up to `limit` rows of the query, whichever come first.
  method SelectVictims(eligible: set<RunKey>, limit: nat) returns (victims: set<RunKey>)
    ensures victims <= eligible
    ensures |victims| == if |eligible| < limit then |eligible| else limit
  {
    victims := {};
    var rest := eligible;
    while rest != {} && |victims| < limit
      invariant victims <= eligible && rest == eligible - victims
      invariant |victims| <= limit && |victims| + |rest| == |eligible|
    {
      var k :| k in rest;
      victims, rest := victims + {k}, rest - {k};
    }
  }

  datatype Report = Report(deletedRuns: nat, batches: nat, hitBatchLimit: bool)

  class RetentionStore {
    var store: Store

    constructor (store: Store)
      ensures this.store == store
    {
      this.store := store;
    }

    // One batch: select, delete, commit.
    method PruneBatch(batchSize: nat, now: nat) returns (victims: set<RunKey>)
      modifies this
      ensures victims <= EligibleSet(old(store), now)
      ensures |victims| == if |EligibleSet(old(store), now)| < batchSize then |EligibleSet(old(store), now)| else batchSize
      ensures store == Pruned(old(store), victims, now)
      ensures EligibleSet(store, now) == EligibleSet(old(store), now) - victims
    {
      victims := SelectVictims(EligibleSet(store, now), batchSize);
      EligibleLeft(store, victims, now);
      store := Pruned(store, victims, now);
    }

    // A sweep. `deleted` are the runs it removed.
    method PruneExpiredRuns(batchSize: nat, maxBatches: nat, now: nat)
      returns (r: Report, ghost deleted: set<RunKey>)
      requires batchSize > 0 && maxBatches > 0
      modifies this
      ensures deleted <= EligibleSet(old(store), now) && r.deletedRuns == |deleted| && r.batches <= maxBatches
      ensures store == Pruned(old(store), deleted, now)
      ensures EligibleSet(store, now) == EligibleSet(old(store), now) - deleted
      ensures !r.hitBatchLimit ==> deleted == EligibleSet(old(store), now)
      ensures r.hitBatchLimit ==> r.deletedRuns == batchSize * maxBatches
    {
      hide EligibleSet;
      ghost var eligible := EligibleSet(store, now);
      deleted := {};
      var deletedRuns, batches := 0, 1;
      while batches <= maxBatches
        invariant 1 <= batches <= maxBatches + 1 && deleted <= eligible && deletedRuns == |deleted|
        invariant deletedRuns == batchSize * (batches - 1)
        invariant batches == 1 ==> deleted == {} && store == old(store)
        invariant batches > 1 ==> store == Pruned(old(store), deleted, now)
        invariant EligibleSet(store, now) == eligible - deleted
      {
        var victims := PruneBatch(batchSize, now);
        Together(old(store), deleted, victims, now);
        Disjoint(eligible, deleted, victims);
        deleted := deleted + victims;
        deletedRuns := deletedRuns + |victims|;
        if |victims| < batchSize {
          AllGone(eligible, deleted);
          return Report(deletedRuns, batches, false), deleted;
        }
        batches := batches + 1;
      }
      return Report(deletedRuns, maxBatches, true), deleted;
    }
  }

  lemma Together(s: Store, a: set<RunKey>, b: set<RunKey>, now: nat)
    ensures Pruned(Pruned(s, a, now), b, now) == Pruned(s, a + b, now)
    ensures Pruned(s, {} + b, now) == Pruned(s, b, now)
  {
    PrunesCompose(s, a, b, now);
    assert {} + b == b;
  }

  lemma Disjoint(eligible: set<RunKey>, deleted: set<RunKey>, victims: set<RunKey>)
    requires victims <= eligible - deleted && deleted <= eligible
    ensures |deleted + victims| == |deleted| + |victims|
    ensures eligible - deleted - victims == eligible - (deleted + victims)
  {
    assert deleted !! victims;
  }

  lemma AllGone(eligible: set<RunKey>, deleted: set<RunKey>)
    requires deleted <= eligible
    ensures |eligible - deleted| == 0 ==> deleted == eligible
  {
  }

  // How many runs the sweeps remove when each hits its limit.
  function Capacity(sizes: seq<(nat, nat)>): nat {
    if sizes == [] then 0 else Capacity(sizes[..|sizes| - 1]) + sizes[|sizes| - 1].0 * sizes[|sizes| - 1].1
  }

  // Any number of sweeps with any batch sizes: once one reports that it did not hit its
  // limit, exactly the initially eligible runs are gone; and until then every sweep has
  // removed its fill, so that enough of them come to that.
  method Sweeps(rs: RetentionStore, sizes: seq<(nat, nat)>, now: nat) returns (done: bool, ghost deleted: set<RunKey>)
    requires forall i | 0 <= i < |sizes| :: sizes[i].0 > 0 && sizes[i].1 > 0
    modifies rs
    ensures deleted <= EligibleSet(old(rs.store), now)
    ensures sizes != [] ==> rs.store == Pruned(old(rs.store), deleted, now)
    ensures EligibleSet(rs.store, now) == EligibleSet(old(rs.store), now) - deleted
    ensures done ==> deleted == EligibleSet(old(rs.store), now)
    ensures !done ==> |deleted| == Capacity(sizes)
    ensures Capacity(sizes) > |EligibleSet(old(rs.store), now)| ==> done
  {
    hide EligibleSet;
    ghost var eligible := EligibleSet(rs.store, now);
    deleted, done := {}, false;
    var i := 0;
    while i < |sizes|
      invariant 0 <= i <= |sizes| && deleted <= eligible
      invariant i == 0 ==> deleted == {} && rs.store == old(rs.store)
      invariant i > 0 ==> rs.store == Pruned(old(rs.store), deleted, now)
      invariant EligibleSet(rs.store, now) == eligible - deleted
      invariant done ==> deleted == eligible
      invariant !done ==> |deleted| == Capacity(sizes[..i])
    {
      assert sizes[..i + 1][..i] == sizes[..i];
      ghost var more: set<RunKey>;
      var report: Report;
      report, more := rs.PruneExpiredRuns(sizes[i].0, sizes[i].1, now);
      Together(old(rs.store), deleted, more, now);
      Disjoint(eligible, deleted, more);
      done := done || !report.hitBatchLimit;
      deleted := deleted + more;
      i := i + 1;
    }
    assert sizes[..i] == sizes;
    if !done { FewerThan(deleted, eligible); }
  }

  lemma FewerThan(a: set<RunKey>, b: set<RunKey>)
    requires a <= b
    ensures |a| <= |b|
  {
    assert b == a + (b - a);
  }
}
