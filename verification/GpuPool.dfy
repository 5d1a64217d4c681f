/** The GPU pool: the lease table that workers and the autoscaler update in
    place. `raises` arguments say which monitoring call fails inside. */
module GpuPool {
  import opened Outcomes
  import opened GpuLeases
  import opened GpuLeaseLaws

  datatype Allocation = Allocation(worker: WorkerId, warmStart: bool, gpu: string, pool: Snapshot)

  /** The three monitoring calls allocate_gpu makes, in order. */
  datatype AllocationFaults = AllocationFaults(firstSnapshot: bool, allocationRecord: bool, secondSnapshot: bool)

  function SnapshotOf(cfg: PoolConfig, ls: seq<Lease>, depth: int): Snapshot {
    var active, busy := |Select(ls, ActiveWarm)|, |Select(ls, BusyWarm)|;
    Snapshot(depth, DesiredWarm(cfg, depth), active, busy, Max(active - busy, 0))
  }

  /** The table once a grant has been written and the pool reconciled again. */
  function AfterGrant(cfg: PoolConfig, ls: seq<Lease>, next: nat, job: JobId, gpu: string, depth: int): seq<Lease> {
    Reconciled(cfg, Upsert(ls, Granted(ls, next, job, gpu, depth, DesiredWarm(cfg, depth))), next + 1, depth)
  }

  predicate Restorable(l: Lease, worker: WorkerId) {
    l.id == worker && IdleWarm(l) && l.job.None?
  }

  /** No lease names the job. */
  predicate Unheld(holders: set<(WorkerId, JobId)>, job: JobId) {
    forall p <- holders :: p.1 != job
  }

  class Pool {
    const cfg: PoolConfig
    var leases: seq<Lease>
    var next: nat

    ghost predicate Valid()
      reads this
    {
      WellFormed(leases, next)
    }

    ghost function Held(): set<(WorkerId, JobId)>
      reads this
    {
      Holders(leases)
    }

    constructor (cfg: PoolConfig)
      ensures Valid() && this.cfg == cfg && Held() == {} && leases == []
    {
      this.cfg := cfg;
      leases, next := [], 0;
    }

    method Reconcile(depth: int, raises: bool) returns (r: Result<Snapshot>)
      requires Valid()
      modifies this
      ensures Valid()
      ensures leases == Reconciled(cfg, old(leases), old(next), depth)
      ensures next == old(next) + Missing(cfg, old(leases), depth)
      ensures Held() == old(Held())
      ensures r == if raises then Raised else Ok(SnapshotOf(cfg, leases, depth))
      ensures r.Ok? ==> var active, busy := |Select(leases, ActiveWarm)|, |Select(old(leases), BusyWarm)|;
                && active == Max(DesiredWarm(cfg, depth), busy)
                && r.value == Snapshot(depth, DesiredWarm(cfg, depth), active, busy, active - busy)
    {
      ReconcileExact(cfg, leases, next, depth);
      ReconcileKeeps(cfg, leases, next, depth);
      var active := Resize(depth);
      var refreshed := RefreshAll(active, depth, DesiredWarm(cfg, depth));
      var busy := Select(refreshed, BusyWarm);
      SelectWithin(leases, ActiveWarm, BusyWarm);
      if raises {
        return Raised;
      }
      r := Ok(Snapshot(depth, DesiredWarm(cfg, depth), |refreshed|, |busy|, Max(|refreshed| - |busy|, 0)));
    }

    method Resize(depth: int) returns (active: seq<Lease>)
      requires Valid()
      modifies this
      ensures leases == Resized(cfg, old(leases), old(next), depth)
      ensures next == old(next) + Missing(cfg, old(leases), depth)
      ensures active == Select(leases, ActiveWarm)
    {
      ResizedCases(cfg, leases, next, depth);
      var idle;
      var desired := DesiredWarm(cfg, depth);
      active, idle := GrowTo(desired, depth, Select(leases, ActiveWarm), Select(leases, IdleWarm));
      if |active| > desired {
        ShrinkSaturates(leases, |active| - desired);
        RemoveIdle(idle[..Min(|active| - desired, |idle|)]);
        active := Select(leases, ActiveWarm);
      }
    }

    /** The growth loop: one fresh idle lease at a time until the target is met. */
    method GrowTo(desired: int, depth: int, active0: seq<Lease>, idle0: seq<Lease>)
      returns (active: seq<Lease>, idle: seq<Lease>)
      requires Valid()
      requires active0 == Select(leases, ActiveWarm) && idle0 == Select(leases, IdleWarm)
      modifies this
      ensures Valid()
      ensures leases == Grow(old(leases), Max(desired - |active0|, 0), old(next), depth, desired)
      ensures next == old(next) + Max(desired - |active0|, 0)
      ensures active == Select(leases, ActiveWarm) && idle == Select(leases, IdleWarm)
      ensures |active| == Max(|active0|, desired)
    {
      active, idle := active0, idle0;
      ghost var start, first := leases, next;
      while |active| < desired
        invariant |active0| <= |active| <= Max(|active0|, desired)
        invariant next == first + |active| - |active0|
        invariant leases == Grow(start, |active| - |active0|, first, depth, desired)
        invariant active == Select(leases, ActiveWarm) && idle == Select(leases, IdleWarm)
      {
        var lease := Fresh(next, depth, desired);
        GrowOne(start, |active| - |active0|, first, depth, desired);
        leases := Upsert(leases, lease);
        next := next + 1;
        active, idle := active + [lease], idle + [lease];
      }
      GrowKeeps(start, |active| - |active0|, first, depth, desired);
    }

    method RemoveIdle(removable: seq<Lease>)
      requires Valid()
      requires |removable| <= |Select(leases, IdleWarm)|
      requires removable == Select(leases, IdleWarm)[..|removable|]
      modifies this`leases
      ensures leases == Shrink(old(leases), |removable|)
    {
      ghost var was := leases;
      for i := 0 to |removable|
        invariant leases == Shrink(was, i)
      {
        ShrinkStep(was, i);
        leases := Delete(leases, removable[i].id);
      }
    }

    /** Restamp the active leases one by one, and keep the records written: the list that is counted. */
    method RefreshAll(active: seq<Lease>, depth: int, desired: int) returns (refreshed: seq<Lease>)
      requires Distinct(leases) && active == Select(leases, ActiveWarm)
      modifies this`leases
      ensures leases == RefreshFirst(old(leases), |active|, depth, desired)
      ensures refreshed == Select(leases, ActiveWarm)
    {
      ghost var was := leases;
      refreshed := [];
      for i := 0 to |active|
        invariant leases == RefreshFirst(was, i, depth, desired)
        invariant |refreshed| == i && forall k :: 0 <= k < i ==> refreshed[k] == Refresh(active[k], depth, desired)
      {
        RefreshStep(was, i, depth, desired);
        var lease := Refresh(active[i], depth, desired);
        leases := Upsert(leases, lease);
        refreshed := refreshed + [lease];
      }
      RefreshedAreActive(was, |active|, depth, desired);
    }

    /** allocate_gpu: on success exactly one new holder, on any exception none. */
    method Allocate(job: JobId, gpu: string, depth: int, faults: AllocationFaults) returns (r: Result<Allocation>)
      requires Valid()
      modifies this
      ensures Valid()
      ensures r.Ok? <==> !faults.firstSnapshot && !faults.allocationRecord && !faults.secondSnapshot
      ensures r.Ok? ==> Held() == old(Held()) + {(r.value.worker, job)}
      ensures r.Ok? ==> forall p <- old(Held()) :: p.0 != r.value.worker
      ensures r.Ok? ==> leases == AfterGrant(cfg, Reconciled(cfg, old(leases), old(next), depth),
                                             old(next) + Missing(cfg, old(leases), depth), job, gpu, depth)
      ensures r.Ok? ==> r.value.gpu == gpu && r.value.pool == SnapshotOf(cfg, leases, depth)
      ensures r.Ok? ==> (r.value.warmStart <==> |Select(old(leases), BusyWarm)| < DesiredWarm(cfg, depth))
      ensures r.Raised? ==> Held() == old(Held())
    {
      ReconcileExact(cfg, leases, next, depth);
      var pool :- Reconcile(depth, faults.firstSnapshot);
      ActiveIsIdlePlusBusy(leases);
      r := AllocateReconciled(job, gpu, depth, faults);
    }

    method AllocateReconciled(job: JobId, gpu: string, depth: int, faults: AllocationFaults) returns (r: Result<Allocation>)
      requires Valid()
      modifies this
      ensures Valid()
      ensures r.Ok? <==> !faults.allocationRecord && !faults.secondSnapshot
      ensures r.Ok? ==> Held() == old(Held()) + {(r.value.worker, job)} && (forall p <- old(Held()) :: p.0 != r.value.worker)
      ensures r.Ok? ==> leases == AfterGrant(cfg, old(leases), old(next), job, gpu, depth)
      ensures r.Ok? ==> r.value.gpu == gpu && r.value.pool == SnapshotOf(cfg, leases, depth)
      ensures r.Ok? ==> (r.value.warmStart <==> Select(old(leases), IdleWarm) != [])
      ensures r.Raised? ==> Held() == old(Held())
    {
      ghost var others := Held();
      var selected, worker := Grant(job, gpu, depth, DesiredWarm(cfg, depth));
      if !faults.allocationRecord {
        var again := Reconcile(depth, faults.secondSnapshot);
        if again.Ok? {
          return Ok(Allocation(worker, selected.Some?, gpu, again.value));
        }
      }
      UndoGrant(selected, worker, job, depth, others);
      return Raised;
    }

    /** Pick the first idle warm lease, or name a cold worker, and mark it busy for the job. */
    method Grant(job: JobId, gpu: string, depth: int, desired: int)
      returns (selected: Option<Lease>, worker: WorkerId)
      requires Valid()
      modifies this
      ensures Valid()
      ensures leases == Upsert(old(leases), Granted(old(leases), old(next), job, gpu, depth, desired))
      ensures next == old(next) + 1
      ensures worker == Granted(old(leases), old(next), job, gpu, depth, desired).id
      ensures Held() == old(Held()) + {(worker, job)} && (forall p <- old(Held()) :: p.0 != worker)
      ensures selected.Some? <==> Select(old(leases), IdleWarm) != []
      ensures selected.Some? ==> Restorable(selected.value, worker)
      ensures worker.n < next
    {
      var idle := Select(leases, IdleWarm);
      var lease := Granted(leases, next, job, gpu, depth, desired);
      GrantHolders(leases, next, job, gpu, depth, desired);
      selected := None;
      if idle != [] {
        SelectSound(leases, IdleWarm, idle[0]);
        selected := Some(idle[0]);
      }
      worker := lease.id;
      leases := Upsert(leases, lease);
      next := next + 1;
    }

    /** The except branch: write the selected idle lease back, or delete the cold one. */
    method UndoGrant(selected: Option<Lease>, worker: WorkerId, job: JobId, depth: int, ghost others: set<(WorkerId, JobId)>)
      requires Valid() && Held() == others + {(worker, job)} && (forall p <- others :: p.0 != worker)
      requires worker.n < next && (selected.Some? ==> Restorable(selected.value, worker))
      modifies this`leases
      ensures Valid() && Held() == others
    {
      if selected.Some? {
        var lease := selected.value;
        var restored := Refresh(lease, if lease.depth != 0 then lease.depth else depth, lease.desired);
        UndoGrantHolders(leases, next, job, restored, others);
        leases := Upsert(leases, restored);
      } else {
        UndoGrantHolders(leases, next, job, Lease(worker, "", Idle, false, None, 0, 0), others);
        leases := Delete(leases, worker);
      }
    }

    /** release_gpu: frees the first lease of the job, then reconciles; the
        lease is gone even when the closing snapshot raises. */
    method Release(job: JobId, raises: bool) returns (r: Result<Snapshot>)
      requires Valid()
      modifies this
      ensures Valid()
      ensures r.Raised? <==> raises
      ensures leases == Reconciled(cfg, Freed(old(leases), job), old(next), 0)
      ensures Held() <= old(Held())
      ensures forall p <- old(Held()) :: p.1 != job ==> p in Held()
      ensures (forall v, w :: (v, job) in old(Held()) && (w, job) in old(Held()) ==> v == w) ==> Unheld(Held(), job)
    {
      FreedKeeps(leases, job, next);
      FreeFirst(job);
      r := Reconcile(0, raises);
    }

    /** The scan of release_gpu: stop at the first lease of the job. */
    method FreeFirst(job: JobId)
      requires Valid()
      modifies this`leases
      ensures leases == Freed(old(leases), job)
    {
      var listed := leases;
      for i := 0 to |listed|
        invariant leases == listed
        invariant forall k :: 0 <= k < i ==> listed[k].job != Some(job)
      {
        if listed[i].job == Some(job) {
          FreedAt(listed, i, job);
          if listed[i].warm {
            leases := Upsert(leases, listed[i].(state := Idle, job := None));
          } else {
            leases := Delete(leases, listed[i].id);
          }
          return;
        }
      }
      FreedNone(listed, job);
    }
  }

  /** Restamping keeps which leases are active, and their order. */
  lemma {:induction false} RefreshedAreActive(ls: seq<Lease>, count: nat, depth: int, desired: int)
    requires count == |Select(ls, ActiveWarm)|
    ensures var after := Select(RefreshFirst(ls, count, depth, desired), ActiveWarm);
            && |after| == count
            && forall k :: 0 <= k < count ==> after[k] == Refresh(Select(ls, ActiveWarm)[k], depth, desired)
  {
    if ls != [] && count > 0 {
      RefreshedAreActive(ls[1..], if ActiveWarm(ls[0]) then count - 1 else count, depth, desired);
    }
  }

  /** Selecting from a selection that contains all of the second kind. */
  lemma {:induction false} SelectWithin(ls: seq<Lease>, outer: Lease -> bool, inner: Lease -> bool)
    requires forall l :: inner(l) ==> outer(l)
    ensures Select(Select(ls, outer), inner) == Select(ls, inner)
  {
    if ls != [] {
      SelectWithin(ls[1..], outer, inner);
      if outer(ls[0]) {
        assert Select(ls, outer) == [ls[0]] + Select(ls[1..], outer);
      } else {
        assert Select(ls, outer) == Select(ls[1..], outer);
      }
    }
  }

  lemma {:induction false} FreedAt(ls: seq<Lease>, i: nat, job: JobId)
    requires Distinct(ls) && i < |ls| && ls[i].job == Some(job)
    requires forall k :: 0 <= k < i ==> ls[k].job != Some(job)
    ensures Freed(ls, job) == if ls[i].warm then Upsert(ls, ls[i].(state := Idle, job := None)) else Delete(ls, ls[i].id)
  {
    if i > 0 {
      var tail, l := ls[1..], ls[i];
      assert ls[0].job != Some(job);
      assert tail[i - 1] == l;
      IdsMember(tail);
      assert forall k :: 0 <= k < i - 1 ==> tail[k] == ls[k + 1];
      FreedAt(tail, i - 1, job);
      assert Freed(ls, job) == [ls[0]] + Freed(tail, job);
    }
  }

  lemma {:induction false} FreedNone(ls: seq<Lease>, job: JobId)
    requires forall l <- ls :: l.job != Some(job)
    ensures Freed(ls, job) == ls
  {
    if ls != [] { FreedNone(ls[1..], job); }
  }

  /** Releasing a job that holds nothing frees nothing: a second release_gpu is harmless. */
  lemma SecondReleaseFreesNothing(ls: seq<Lease>, job: JobId)
    requires Unheld(Holders(ls), job)
    ensures Freed(ls, job) == ls
  {
    forall l <- ls ensures l.job != Some(job) {
      HoldersMember(ls, l.id, job);
    }
    FreedNone(ls, job);
  }

  /** One round of the growth loop. */
  lemma GrowOne(start: seq<Lease>, count: nat, first: nat, depth: int, desired: int)
    requires WellFormed(start, first)
    ensures var ls, lease := Grow(start, count, first, depth, desired), Fresh(first + count, depth, desired);
            && Upsert(ls, lease) == Grow(start, count + 1, first, depth, desired)
            && Select(Upsert(ls, lease), ActiveWarm) == Select(ls, ActiveWarm) + [lease]
            && Select(Upsert(ls, lease), IdleWarm) == Select(ls, IdleWarm) + [lease]
  {
    var ls, lease := Grow(start, count, first, depth, desired), Fresh(first + count, depth, desired);
    GrowKeeps(start, count, first, depth, desired);
    IdsMember(ls);
    UpsertFresh(ls, lease);
    GrowSnoc(start, count, first, depth, desired);
    SelectAppend(ls, [lease], ActiveWarm);
    SelectAppend(ls, [lease], IdleWarm);
  }

  lemma {:induction false} GrowSnoc(ls: seq<Lease>, count: nat, next: nat, depth: int, desired: int)
    ensures Grow(ls, count + 1, next, depth, desired)
         == Grow(ls, count, next, depth, desired) + [Fresh(next + count, depth, desired)]
    decreases count
  {
    if count > 0 { GrowSnoc(ls + [Fresh(next, depth, desired)], count - 1, next + 1, depth, desired); }
  }

  lemma {:induction false} UpsertFresh(ls: seq<Lease>, l: Lease)
    requires l.id !in Ids(ls)
    ensures Upsert(ls, l) == ls + [l]
  {
    if ls != [] {
      UpsertFresh(ls[1..], l);
    }
  }

  /** A pool either grows or shrinks, never both. */
  lemma ResizedCases(cfg: PoolConfig, ls: seq<Lease>, next: nat, depth: int)
    ensures |Select(ls, ActiveWarm)| <= DesiredWarm(cfg, depth) ==>
              Resized(cfg, ls, next, depth) == Grow(ls, Missing(cfg, ls, depth), next, depth, DesiredWarm(cfg, depth))
    ensures |Select(ls, ActiveWarm)| > DesiredWarm(cfg, depth) ==>
              Resized(cfg, ls, next, depth) == Shrink(ls, |Select(ls, ActiveWarm)| - DesiredWarm(cfg, depth))
  {}

  /** Asking for more idle leases than there are removes them all. */
  lemma {:induction false} ShrinkSaturates(ls: seq<Lease>, count: nat)
    ensures Shrink(ls, count) == Shrink(ls, Min(count, |Select(ls, IdleWarm)|))
  {
    if ls != [] && count > 0 {
      ShrinkSaturates(ls[1..], if IdleWarm(ls[0]) then count - 1 else count);
      if Select(ls, IdleWarm) == [] { ShrinkNothing(ls, count); }
    }
  }
}
