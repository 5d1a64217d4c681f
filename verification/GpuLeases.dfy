/** GPU leases as values: the insertion-ordered lease table of the memory
    backend, the autoscaler's target size, and what reconciling, allocating
    and releasing leave in the table. */
module GpuLeases {
  import opened Arithmetic
  import opened Outcomes

  type JobId = string

  /** Names come from a UUID generator; a counter stands for its freshness. */
  datatype WorkerId = Warm(n: nat) | Cold(n: nat)

  datatype LeaseState = Idle | Busy | Released

  datatype Lease = Lease(id: WorkerId, gpu: string, state: LeaseState, warm: bool,
                         job: Option<JobId>, depth: int, desired: int)

  datatype PoolConfig = PoolConfig(minWarm: int, threshold: int, step: int)

  datatype Snapshot = Snapshot(depth: int, desired: int, active: nat, busy: nat, idle: int)

  /** ---- the table: a dict keeps the position of an existing key ---- */

  function Upsert(ls: seq<Lease>, l: Lease): seq<Lease> {
    if ls == [] then [l]
    else if ls[0].id == l.id then [l] + ls[1..]
    else [ls[0]] + Upsert(ls[1..], l)
  }

  function Delete(ls: seq<Lease>, id: WorkerId): seq<Lease> {
    if ls == [] then []
    else if ls[0].id == id then ls[1..]
    else [ls[0]] + Delete(ls[1..], id)
  }

  function Ids(ls: seq<Lease>): set<WorkerId> {
    if ls == [] then {} else {ls[0].id} + Ids(ls[1..])
  }

  predicate Distinct(ls: seq<Lease>) {
    ls == [] || (ls[0].id !in Ids(ls[1..]) && Distinct(ls[1..]))
  }

  /** Which worker serves which job: the pairs a leak or a theft would show in. */
  function Holders(ls: seq<Lease>): set<(WorkerId, JobId)> {
    if ls == [] then {}
    else (if ls[0].job.Some? then {(ls[0].id, ls[0].job.value)} else {}) + Holders(ls[1..])
  }

  predicate ActiveWarm(l: Lease) {
    l.state != Released && l.warm
  }

  predicate IdleWarm(l: Lease) {
    l.state == Idle && l.warm
  }

  predicate BusyWarm(l: Lease) {
    l.state == Busy && l.warm
  }

  function Select(ls: seq<Lease>, p: Lease -> bool): (r: seq<Lease>) {
    if ls == [] then [] else (if p(ls[0]) then [ls[0]] else []) + Select(ls[1..], p)
  }

  /** What every operation keeps: unique names below the name counter, and a
      lease names a job exactly when it is busy. */
  predicate WellFormed(ls: seq<Lease>, next: nat) {
    && Distinct(ls)
    && (forall l <- ls :: l.id.n < next && (l.state == Busy <==> l.job.Some?))
  }

  /** ---- target size ---- */

  function DesiredWarm(cfg: PoolConfig, queueDepth: int): int {
    var minWarm := Max(cfg.minWarm, 0);
    var threshold := Max(cfg.threshold, 1);
    if queueDepth <= threshold then minWarm
    else minWarm + CeilDiv(queueDepth - threshold, threshold) * Max(cfg.step, 1)
  }

  /** ---- reconciling ---- */

  function Fresh(n: nat, depth: int, desired: int): Lease {
    Lease(Warm(n), "L4", Idle, true, None, depth, desired)
  }

  function Grow(ls: seq<Lease>, count: nat, next: nat, depth: int, desired: int): seq<Lease>
    decreases count
  {
    if count == 0 then ls else Grow(ls + [Fresh(next, depth, desired)], count - 1, next + 1, depth, desired)
  }

  /** Drop the first `count` idle warm leases. */
  function Shrink(ls: seq<Lease>, count: int): seq<Lease> {
    if ls == [] || count <= 0 then ls
    else if IdleWarm(ls[0]) then Shrink(ls[1..], count - 1)
    else [ls[0]] + Shrink(ls[1..], count)
  }

  function Refresh(l: Lease, depth: int, desired: int): Lease {
    l.(depth := depth, desired := desired)
  }

  /** Restamp the first `count` active warm leases. */
  function RefreshFirst(ls: seq<Lease>, count: int, depth: int, desired: int): seq<Lease> {
    if ls == [] || count <= 0 then ls
    else if ActiveWarm(ls[0]) then [Refresh(ls[0], depth, desired)] + RefreshFirst(ls[1..], count - 1, depth, desired)
    else [ls[0]] + RefreshFirst(ls[1..], count, depth, desired)
  }

  function Missing(cfg: PoolConfig, ls: seq<Lease>, depth: int): nat {
    Max(DesiredWarm(cfg, depth) - |Select(ls, ActiveWarm)|, 0)
  }

  function Resized(cfg: PoolConfig, ls: seq<Lease>, next: nat, depth: int): seq<Lease> {
    var desired := DesiredWarm(cfg, depth);
    Shrink(Grow(ls, Missing(cfg, ls, depth), next, depth, desired), |Select(ls, ActiveWarm)| - desired)
  }

  function Reconciled(cfg: PoolConfig, ls: seq<Lease>, next: nat, depth: int): seq<Lease> {
    var resized := Resized(cfg, ls, next, depth);
    RefreshFirst(resized, |Select(resized, ActiveWarm)|, depth, DesiredWarm(cfg, depth))
  }

  /** ---- allocating and releasing ---- */

  function Granted(ls: seq<Lease>, next: nat, job: JobId, gpu: string, depth: int, desired: int): Lease {
    var idle := Select(ls, IdleWarm);
    if idle != []
    then idle[0].(gpu := gpu, state := Busy, job := Some(job), depth := depth, desired := desired)
    else Lease(Cold(next), gpu, Busy, false, Some(job), depth, desired)
  }

  /** Free the first lease that names the job: a warm one goes idle, a cold one is deleted. */
  function Freed(ls: seq<Lease>, job: JobId): seq<Lease> {
    if ls == [] then []
    else if ls[0].job != Some(job) then [ls[0]] + Freed(ls[1..], job)
    else if ls[0].warm then [ls[0].(state := Idle, job := None)] + ls[1..]
    else ls[1..]
  }

  /** ==== lemmas ==== */

  lemma {:induction false} SelectSound(ls: seq<Lease>, p: Lease -> bool, l: Lease)
    ensures l in Select(ls, p) <==> l in ls && p(l)
  {
    if ls != [] { SelectSound(ls[1..], p, l); }
  }

  lemma {:induction false} SelectAppend(a: seq<Lease>, b: seq<Lease>, p: Lease -> bool)
    ensures Select(a + b, p) == Select(a, p) + Select(b, p)
  {
    if a == [] {
      assert a + b == b;
    } else {
      var head := if p(a[0]) then [a[0]] else [];
      assert (a + b)[1..] == a[1..] + b;
      SelectAppend(a[1..], b, p);
      assert Select(a + b, p) == head + Select(a[1..] + b, p);
      assert head + (Select(a[1..], p) + Select(b, p)) == (head + Select(a[1..], p)) + Select(b, p);
    }
  }

  /** Membership in Holders, without the recursion. */
  lemma {:induction false} HoldersMember(ls: seq<Lease>, w: WorkerId, j: JobId)
    ensures (w, j) in Holders(ls) <==> exists l :: l in ls && l.id == w && l.job == Some(j)
  {
    if ls != [] {
      HoldersMember(ls[1..], w, j);
      assert forall l :: l in ls <==> l == ls[0] || l in ls[1..];
    }
  }

  lemma {:induction false} HoldersAppend(a: seq<Lease>, b: seq<Lease>)
    ensures Holders(a + b) == Holders(a) + Holders(b)
  {
    if a == [] {
      assert a + b == b;
    } else {
      assert (a + b)[1..] == a[1..] + b;
      HoldersAppend(a[1..], b);
    }
  }

  /** Membership in Ids, without the recursion. */
  lemma {:induction false} SelectedId(ls: seq<Lease>, p: Lease -> bool, k: nat)
    requires k < |Select(ls, p)|
    ensures Select(ls, p)[k].id in Ids(ls)
  {
    if p(ls[0]) {
      if k > 0 { SelectedId(ls[1..], p, k - 1); }
    } else {
      SelectedId(ls[1..], p, k);
    }
  }

  lemma {:induction false} IdOfMember(ls: seq<Lease>, l: Lease)
    requires l in ls
    ensures l.id in Ids(ls)
  {
    if ls[0] != l { IdOfMember(ls[1..], l); }
  }

  lemma {:induction false} IdsMember(ls: seq<Lease>)
    ensures forall l <- ls :: l.id in Ids(ls)
    ensures forall w <- Ids(ls) :: exists l :: l in ls && l.id == w
  {
    if ls != [] {
      IdsMember(ls[1..]);
      assert forall l :: l in ls <==> l == ls[0] || l in ls[1..];
    }
  }

  lemma {:induction false} DistinctAppend(ls: seq<Lease>, l: Lease)
    requires Distinct(ls) && l.id !in Ids(ls)
    ensures Distinct(ls + [l]) && Ids(ls + [l]) == Ids(ls) + {l.id}
  {
    if ls != [] {
      assert ls[1..] + [l] == (ls + [l])[1..];
      DistinctAppend(ls[1..], l);
    }
  }
}
