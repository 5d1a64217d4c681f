/** Laws of the lease table: what each step keeps, and the headline facts about
    reconciliation (exact size, idempotence, untouched holders). */
module GpuLeaseLaws {
  import opened Arithmetic
  import opened Outcomes
  import opened GpuLeases

  /** ---- growing, shrinking and restamping keep names unique and holders ---- */

  lemma {:induction false} GrowKeeps(ls: seq<Lease>, count: nat, next: nat, depth: int, desired: int)
    requires WellFormed(ls, next)
    ensures WellFormed(Grow(ls, count, next, depth, desired), next + count)
    ensures Holders(Grow(ls, count, next, depth, desired)) == Holders(ls)
    decreases count
  {
    if count > 0 {
      var l := Fresh(next, depth, desired);
      IdsMember(ls);
      DistinctAppend(ls, l);
      HoldersAppend(ls, [l]);
      GrowKeeps(ls + [l], count - 1, next + 1, depth, desired);
    }
  }

  lemma {:induction false} GrowCounts(ls: seq<Lease>, count: nat, next: nat, depth: int, desired: int)
    ensures |Select(Grow(ls, count, next, depth, desired), ActiveWarm)| == |Select(ls, ActiveWarm)| + count
    ensures Select(Grow(ls, count, next, depth, desired), BusyWarm) == Select(ls, BusyWarm)
    decreases count
  {
    if count > 0 {
      var l := Fresh(next, depth, desired);
      SelectAppend(ls, [l], ActiveWarm);
      SelectAppend(ls, [l], BusyWarm);
      GrowCounts(ls + [l], count - 1, next + 1, depth, desired);
    }
  }

  lemma {:induction false} ShrinkKeeps(ls: seq<Lease>, count: int, next: nat)
    requires WellFormed(ls, next)
    ensures WellFormed(Shrink(ls, count), next)
    ensures Holders(Shrink(ls, count)) == Holders(ls)
    ensures Ids(Shrink(ls, count)) <= Ids(ls)
    ensures forall l <- Shrink(ls, count) :: l in ls
  {
    if ls != [] && count > 0 {
      var tail := ls[1..];
      assert forall l :: l in ls <==> l == ls[0] || l in tail;
      if IdleWarm(ls[0]) {
        ShrinkKeeps(tail, count - 1, next);
      } else {
        ShrinkKeeps(tail, count, next);
        assert Shrink(ls, count)[1..] == Shrink(tail, count);
        assert forall l :: l in Shrink(ls, count) <==> l == ls[0] || l in Shrink(tail, count);
      }
    }
  }

  /** Shrinking takes idle warm leases only, and as many as asked while they last. */
  lemma {:induction false} ShrinkCounts(ls: seq<Lease>, count: nat)
    ensures |Select(Shrink(ls, count), IdleWarm)| == Max(|Select(ls, IdleWarm)| - count, 0)
    ensures Select(Shrink(ls, count), BusyWarm) == Select(ls, BusyWarm)
  {
    if ls != [] && count > 0 {
      ShrinkCounts(ls[1..], if IdleWarm(ls[0]) then count - 1 else count);
    }
  }

  lemma {:induction false} ActiveIsIdlePlusBusy(ls: seq<Lease>)
    ensures |Select(ls, ActiveWarm)| == |Select(ls, IdleWarm)| + |Select(ls, BusyWarm)|
  {
    if ls != [] { ActiveIsIdlePlusBusy(ls[1..]); }
  }

  lemma {:induction false} RefreshKeeps(ls: seq<Lease>, count: int, depth: int, desired: int, next: nat)
    requires WellFormed(ls, next)
    ensures WellFormed(RefreshFirst(ls, count, depth, desired), next)
    ensures Holders(RefreshFirst(ls, count, depth, desired)) == Holders(ls)
    ensures Ids(RefreshFirst(ls, count, depth, desired)) == Ids(ls)
  {
    if ls != [] && count > 0 {
      var left := if ActiveWarm(ls[0]) then count - 1 else count;
      RefreshKeeps(ls[1..], left, depth, desired, next);
      assert RefreshFirst(ls, count, depth, desired)[1..] == RefreshFirst(ls[1..], left, depth, desired);
    }
  }

  lemma {:induction false} RefreshCounts(ls: seq<Lease>, count: int, depth: int, desired: int)
    ensures |Select(RefreshFirst(ls, count, depth, desired), ActiveWarm)| == |Select(ls, ActiveWarm)|
    ensures |Select(RefreshFirst(ls, count, depth, desired), BusyWarm)| == |Select(ls, BusyWarm)|
    ensures |Select(RefreshFirst(ls, count, depth, desired), IdleWarm)| == |Select(ls, IdleWarm)|
  {
    if ls != [] && count > 0 {
      RefreshCounts(ls[1..], if ActiveWarm(ls[0]) then count - 1 else count, depth, desired);
    }
  }

  /** ---- upserting and deleting ---- */

  lemma {:induction false} UpsertMembers(ls: seq<Lease>, l: Lease, x: Lease)
    requires Distinct(ls)
    ensures x in Upsert(ls, l) <==> x == l || (x in ls && x.id != l.id)
  {
    if ls != [] {
      UpsertMembers(ls[1..], l, x);
      assert x in ls <==> x == ls[0] || x in ls[1..];
      IdsMember(ls[1..]);
    }
  }

  lemma {:induction false} UpsertDistinct(ls: seq<Lease>, l: Lease)
    requires Distinct(ls)
    ensures Distinct(Upsert(ls, l)) && Ids(Upsert(ls, l)) == Ids(ls) + {l.id}
  {
    if ls != [] {
      UpsertDistinct(ls[1..], l);
      assert Upsert(ls, l)[1..] == if ls[0].id == l.id then ls[1..] else Upsert(ls[1..], l);
    }
  }

  lemma {:induction false} DeleteMembers(ls: seq<Lease>, id: WorkerId, x: Lease)
    requires Distinct(ls)
    ensures x in Delete(ls, id) <==> x in ls && x.id != id
  {
    if ls != [] {
      DeleteMembers(ls[1..], id, x);
      assert x in ls <==> x == ls[0] || x in ls[1..];
      IdsMember(ls[1..]);
    }
  }

  lemma {:induction false} DeleteDistinct(ls: seq<Lease>, id: WorkerId)
    requires Distinct(ls)
    ensures Distinct(Delete(ls, id)) && Ids(Delete(ls, id)) == Ids(ls) - {id}
  {
    if ls != [] {
      DeleteDistinct(ls[1..], id);
      if ls[0].id != id { assert Delete(ls, id)[1..] == Delete(ls[1..], id); }
    }
  }

  /** In a well-formed table a name belongs to one lease. */
  lemma {:induction false} SameName(ls: seq<Lease>, a: Lease, b: Lease)
    requires Distinct(ls) && a in ls && b in ls && a.id == b.id
    ensures a == b
  {
    IdsMember(ls[1..]);
    if a in ls[1..] && b in ls[1..] { SameName(ls[1..], a, b); }
  }

  /** ---- the loops of reconcile_gpu_pool, one iteration at a time ---- */

  lemma {:induction false} ShrinkStep(ls: seq<Lease>, done: nat)
    requires Distinct(ls) && done < |Select(ls, IdleWarm)|
    ensures Delete(Shrink(ls, done), Select(ls, IdleWarm)[done].id) == Shrink(ls, done + 1)
  {
    var l := Select(ls, IdleWarm)[done];
    if IdleWarm(ls[0]) {
      if done > 0 { ShrinkStep(ls[1..], done - 1); }
    } else {
      var l' := Select(ls[1..], IdleWarm)[done];
      SelectSound(ls[1..], IdleWarm, l');
      IdsMember(ls[1..]);
      ShrinkStep(ls[1..], done);
      assert Shrink(ls, done + 1) == [ls[0]] + Shrink(ls[1..], done + 1);
      assert Shrink(ls[1..], 0) == ls[1..];
    }
  }

  lemma {:induction false} RefreshStep(ls: seq<Lease>, done: nat, depth: int, desired: int)
    requires Distinct(ls) && done < |Select(ls, ActiveWarm)|
    ensures Upsert(RefreshFirst(ls, done, depth, desired), Refresh(Select(ls, ActiveWarm)[done], depth, desired))
         == RefreshFirst(ls, done + 1, depth, desired)
  {
    FirstOf(ls);
    hide RefreshFirst, Select, Upsert, Distinct, Ids, Refresh, ActiveWarm;
    if ActiveWarm(ls[0]) && done == 0 {
      RefreshStepHere(ls, depth, desired);
    } else {
      RefreshStep(ls[1..], if ActiveWarm(ls[0]) then done - 1 else done, depth, desired);
      RefreshStepFurther(ls, done, depth, desired);
    }
  }

  lemma RefreshStepHere(ls: seq<Lease>, depth: int, desired: int)
    requires ls != [] && ActiveWarm(ls[0])
    ensures Upsert(RefreshFirst(ls, 0, depth, desired), Refresh(Select(ls, ActiveWarm)[0], depth, desired))
         == RefreshFirst(ls, 1, depth, desired)
  {
    assert RefreshFirst(ls[1..], 0, depth, desired) == ls[1..];
  }

  lemma RefreshStepFurther(ls: seq<Lease>, done: nat, depth: int, desired: int)
    requires ls != [] && Distinct(ls) && done < |Select(ls, ActiveWarm)| && (ActiveWarm(ls[0]) ==> done > 0)
    requires var before := if ActiveWarm(ls[0]) then done - 1 else done;
             Upsert(RefreshFirst(ls[1..], before, depth, desired), Refresh(Select(ls[1..], ActiveWarm)[before], depth, desired))
             == RefreshFirst(ls[1..], before + 1, depth, desired)
    ensures Upsert(RefreshFirst(ls, done, depth, desired), Refresh(Select(ls, ActiveWarm)[done], depth, desired))
         == RefreshFirst(ls, done + 1, depth, desired)
  {
    var tail, before := ls[1..], if ActiveWarm(ls[0]) then done - 1 else done;
    var l := Select(tail, ActiveWarm)[before];
    var head := if ActiveWarm(ls[0]) then Refresh(ls[0], depth, desired) else ls[0];
    assert Select(ls, ActiveWarm)[done] == l;
    SelectedId(tail, ActiveWarm, before);
    RefreshCons(ls, done, depth, desired);
    RefreshCons(ls, done + 1, depth, desired);
    hide RefreshFirst, Select, Upsert, Distinct, Ids;
    UpsertCons(head, RefreshFirst(tail, before, depth, desired), Refresh(l, depth, desired));
    assert RefreshFirst(ls, done, depth, desired) == [head] + RefreshFirst(tail, before, depth, desired);
    assert RefreshFirst(ls, done + 1, depth, desired) == [head] + RefreshFirst(tail, before + 1, depth, desired);
  }

  lemma FirstOf(ls: seq<Lease>)
    requires Distinct(ls) && Select(ls, ActiveWarm) != []
    ensures ls != [] && Distinct(ls[1..]) && ls[0].id !in Ids(ls[1..])
    ensures Select(ls, ActiveWarm) == (if ActiveWarm(ls[0]) then [ls[0]] else []) + Select(ls[1..], ActiveWarm)
  {
  }

  lemma UpsertCons(head: Lease, rest: seq<Lease>, l: Lease)
    requires head.id != l.id
    ensures Upsert([head] + rest, l) == [head] + Upsert(rest, l)
  {
    assert ([head] + rest)[1..] == rest;
  }

  lemma RefreshCons(ls: seq<Lease>, count: nat, depth: int, desired: int)
    requires ls != []
    ensures var rest := RefreshFirst(ls[1..], if ActiveWarm(ls[0]) then Max(count - 1, 0) else count, depth, desired);
            RefreshFirst(ls, count, depth, desired)
            == [if ActiveWarm(ls[0]) && count > 0 then Refresh(ls[0], depth, desired) else ls[0]] + rest
  {
    if count <= 1 { assert RefreshFirst(ls[1..], 0, depth, desired) == ls[1..]; }
  }

  /** ---- reconciliation ---- */

  lemma ReconcileKeeps(cfg: PoolConfig, ls: seq<Lease>, next: nat, depth: int)
    requires WellFormed(ls, next)
    ensures WellFormed(Reconciled(cfg, ls, next, depth), next + Missing(cfg, ls, depth))
    ensures Holders(Reconciled(cfg, ls, next, depth)) == Holders(ls)
    ensures Distinct(Resized(cfg, ls, next, depth))
  {
    var desired := DesiredWarm(cfg, depth);
    var missing := Missing(cfg, ls, depth);
    var grown := Grow(ls, missing, next, depth, desired);
    GrowKeeps(ls, missing, next, depth, desired);
    ShrinkKeeps(grown, |Select(ls, ActiveWarm)| - desired, next + missing);
    var resized := Resized(cfg, ls, next, depth);
    RefreshKeeps(resized, |Select(resized, ActiveWarm)|, depth, desired, next + missing);
  }

  /** The pool ends with exactly max(desired, busy) active warm leases, and no busy one is lost. */
  lemma ReconcileExact(cfg: PoolConfig, ls: seq<Lease>, next: nat, depth: int)
    ensures |Select(Reconciled(cfg, ls, next, depth), ActiveWarm)| == Max(DesiredWarm(cfg, depth), |Select(ls, BusyWarm)|)
    ensures |Select(Reconciled(cfg, ls, next, depth), BusyWarm)| == |Select(ls, BusyWarm)|
  {
    var desired := DesiredWarm(cfg, depth);
    var missing := Missing(cfg, ls, depth);
    var grown := Grow(ls, missing, next, depth, desired);
    GrowCounts(ls, missing, next, depth, desired);
    var excess := |Select(ls, ActiveWarm)| - desired;
    ShrinkCounts(grown, Max(excess, 0));
    assert Shrink(grown, excess) == Shrink(grown, Max(excess, 0));
    ActiveIsIdlePlusBusy(ls);
    ActiveIsIdlePlusBusy(grown);
    var resized := Resized(cfg, ls, next, depth);
    ActiveIsIdlePlusBusy(resized);
    RefreshCounts(resized, |Select(resized, ActiveWarm)|, depth, desired);
    DesiredAtLeastZero(cfg, depth);
  }

  /** The target of the autoscaler: the minimum while the queue is within the threshold; beyond it one
      step more for every threshold that the queue has begun to exceed. */
  lemma DesiredMeaning(cfg: PoolConfig, depth: int) returns (n: nat)
    ensures var least, threshold, step := Max(cfg.minWarm, 0), Max(cfg.threshold, 1), Max(cfg.step, 1);
            if depth <= threshold then n == 0 && DesiredWarm(cfg, depth) == least
            else n >= 1 && threshold * n < depth <= threshold * (n + 1) && DesiredWarm(cfg, depth) == least + n * step
  {
    var threshold := Max(cfg.threshold, 1);
    n := 0;
    if depth > threshold {
      CeilDivPositive(depth - threshold, threshold);
      CeilDivMeaning(depth - threshold, threshold);
      n := CeilDiv(depth - threshold, threshold);
    }
  }

  lemma DesiredAtLeastZero(cfg: PoolConfig, depth: int)
    ensures DesiredWarm(cfg, depth) >= 0
  {
    var threshold := Max(cfg.threshold, 1);
    if depth > threshold {
      CeilDivPositive(depth - threshold, threshold);
      MulNonNegative(CeilDiv(depth - threshold, threshold), Max(cfg.step, 1));
    }
  }

  lemma {:induction false} ShrinkNothing(ls: seq<Lease>, count: int)
    requires Select(ls, IdleWarm) == []
    ensures Shrink(ls, count) == ls
  {
    if ls != [] && count > 0 { ShrinkNothing(ls[1..], count); }
  }

  lemma {:induction false} RefreshTwice(ls: seq<Lease>, count: int, depth: int, desired: int)
    ensures RefreshFirst(RefreshFirst(ls, count, depth, desired), count, depth, desired)
         == RefreshFirst(ls, count, depth, desired)
  {
    if ls != [] && count > 0 {
      RefreshTwice(ls[1..], if ActiveWarm(ls[0]) then count - 1 else count, depth, desired);
    }
  }

  /** Reconciling again at the same depth changes nothing at all and creates no worker. */
  lemma ReconcileIdempotent(cfg: PoolConfig, ls: seq<Lease>, next: nat, depth: int, later: nat)
    ensures var once := Reconciled(cfg, ls, next, depth);
            Reconciled(cfg, once, later, depth) == once && Missing(cfg, once, depth) == 0
  {
    var once := Reconciled(cfg, ls, next, depth);
    var desired := DesiredWarm(cfg, depth);
    ReconcileExact(cfg, ls, next, depth);
    ActiveIsIdlePlusBusy(once);
    var active := |Select(once, ActiveWarm)|;
    if active > desired { ShrinkNothing(once, active - desired); }
    assert Resized(cfg, once, later, depth) == once;
    var resized := Resized(cfg, ls, next, depth);
    RefreshCounts(resized, |Select(resized, ActiveWarm)|, depth, desired);
    RefreshTwice(resized, |Select(resized, ActiveWarm)|, depth, desired);
  }

  /** The target never falls when the queue gets longer. */
  lemma DesiredMonotone(cfg: PoolConfig, shorter: int, longer: int)
    requires shorter <= longer
    ensures DesiredWarm(cfg, shorter) <= DesiredWarm(cfg, longer)
  {
    var threshold, step := Max(cfg.threshold, 1), Max(cfg.step, 1);
    if longer > threshold {
      CeilDivPositive(longer - threshold, threshold);
      if shorter > threshold {
        CeilDivMonotone(shorter - threshold, longer - threshold, threshold);
        MulMonotone(CeilDiv(shorter - threshold, threshold), CeilDiv(longer - threshold, threshold), step);
      } else {
        MulNonNegative(CeilDiv(longer - threshold, threshold), step);
      }
    }
  }

  /** ---- the table after reconciling ---- */

  /** A lease as it was, or with fresh stamps. */
  predicate Restamped(x: Lease, l: Lease, depth: int, desired: int) {
    x == l || x == l.(depth := depth, desired := desired)
  }

  /** A warm idle L4 worker that was not there before. */
  predicate Grown(x: Lease, next: nat, depth: int, desired: int) {
    x.id.Warm? && x.id.n >= next && x == Lease(x.id, "L4", Idle, true, None, depth, desired)
  }

  lemma {:induction false} GrowMembers(ls: seq<Lease>, count: nat, next: nat, depth: int, desired: int, x: Lease)
    ensures x in ls ==> x in Grow(ls, count, next, depth, desired)
    ensures x in Grow(ls, count, next, depth, desired) ==> x in ls || Grown(x, next, depth, desired)
    decreases count
  {
    if count > 0 {
      GrowMembers(ls + [Fresh(next, depth, desired)], count - 1, next + 1, depth, desired, x);
    }
  }

  lemma {:induction false} ShrinkMembers(ls: seq<Lease>, count: int, x: Lease)
    ensures x in Shrink(ls, count) ==> x in ls
    ensures x in ls && !IdleWarm(x) ==> x in Shrink(ls, count)
  {
    if ls != [] && count > 0 {
      ShrinkMembers(ls[1..], if IdleWarm(ls[0]) then count - 1 else count, x);
      assert x in ls <==> x == ls[0] || x in ls[1..];
    }
  }

  lemma {:induction false} RefreshMembers(ls: seq<Lease>, count: int, depth: int, desired: int)
    requires count == |Select(ls, ActiveWarm)|
    ensures var after := RefreshFirst(ls, count, depth, desired);
            |after| == |ls| && forall k :: 0 <= k < |ls| ==>
              after[k] == if ActiveWarm(ls[k]) then ls[k].(depth := depth, desired := desired) else ls[k]
  {
    if ls != [] {
      RefreshMembers(ls[1..], if ActiveWarm(ls[0]) then count - 1 else count, depth, desired);
      if count == 0 { assert RefreshFirst(ls[1..], 0, depth, desired) == ls[1..]; }
    }
  }

  /** Every lease of the reconciled table was there before or is a new idle L4 worker; the active ones
      carry the stamps of this reconciliation; and only idle warm ones can be missing. */
  lemma ReconciledTable(cfg: PoolConfig, ls: seq<Lease>, next: nat, depth: int, x: Lease)
    ensures var desired, after := DesiredWarm(cfg, depth), Reconciled(cfg, ls, next, depth);
            && (x in after ==> (exists l <- ls :: Restamped(x, l, depth, desired)) || Grown(x, next, depth, desired))
            && (x in after && ActiveWarm(x) ==> x.depth == depth && x.desired == desired)
            && (x in ls && !IdleWarm(x) ==> exists y <- after :: Restamped(y, x, depth, desired))
  {
    var desired, after := DesiredWarm(cfg, depth), Reconciled(cfg, ls, next, depth);
    var resized := Resized(cfg, ls, next, depth);
    RefreshMembers(resized, |Select(resized, ActiveWarm)|, depth, desired);
    if x in after {
      var k :| 0 <= k < |after| && after[k] == x;
      ResizedMembers(cfg, ls, next, depth, resized[k]);
      assert Restamped(x, resized[k], depth, desired);
    }
    if x in ls && !IdleWarm(x) {
      ResizedMembers(cfg, ls, next, depth, x);
      var k :| 0 <= k < |resized| && resized[k] == x;
      assert after[k] in after && Restamped(after[k], x, depth, desired);
    }
  }

  lemma ResizedMembers(cfg: PoolConfig, ls: seq<Lease>, next: nat, depth: int, x: Lease)
    ensures x in Resized(cfg, ls, next, depth) ==> x in ls || Grown(x, next, depth, DesiredWarm(cfg, depth))
    ensures x in ls && !IdleWarm(x) ==> x in Resized(cfg, ls, next, depth)
  {
    var desired := DesiredWarm(cfg, depth);
    GrowMembers(ls, Missing(cfg, ls, depth), next, depth, desired, x);
    ShrinkMembers(Grow(ls, Missing(cfg, ls, depth), next, depth, desired), |Select(ls, ActiveWarm)| - desired, x);
  }

  /** The lease granted is the first idle warm one, or a cold one under a new name when there is none;
      it is busy with the job, on the GPU asked for. */
  lemma GrantMeaning(ls: seq<Lease>, next: nat, job: JobId, gpu: string, depth: int, desired: int)
    ensures var l := Granted(ls, next, job, gpu, depth, desired);
            && l.state == Busy && l.job == Some(job) && l.gpu == gpu && l.depth == depth && l.desired == desired
            && (if forall x <- ls :: !IdleWarm(x) then l.id == Cold(next) && !l.warm
                else l.warm && exists k :: 0 <= k < |ls| && FirstIdle(ls, k) && ls[k].id == l.id)
  {
    if forall x <- ls :: !IdleWarm(x) {
      NoneSelected(ls);
    } else {
      var k := FindIdle(ls);
      assert FirstIdle(ls, k);
    }
  }

  predicate FirstIdle(ls: seq<Lease>, k: nat)
    requires k < |ls|
  {
    IdleWarm(ls[k]) && forall j :: 0 <= j < k ==> !IdleWarm(ls[j])
  }

  lemma {:induction false} NoneSelected(ls: seq<Lease>)
    requires forall x <- ls :: !IdleWarm(x)
    ensures Select(ls, IdleWarm) == []
  {
    if ls != [] {
      assert ls[0] in ls && forall x <- ls[1..] :: x in ls;
      NoneSelected(ls[1..]);
    }
  }

  lemma {:induction false} FindIdle(ls: seq<Lease>) returns (k: nat)
    requires exists x <- ls :: IdleWarm(x)
    ensures k < |ls| && FirstIdle(ls, k) && Select(ls, IdleWarm) != [] && Select(ls, IdleWarm)[0] == ls[k]
  {
    k := 0;
    if !IdleWarm(ls[0]) {
      k := FindIdle(ls[1..]);
      k := k + 1;
      assert forall j :: 0 < j < k ==> ls[j] == ls[1..][j - 1];
    }
  }

  /** The first lease of the job is freed where it stands: a warm one goes idle, a cold one leaves the table. */
  lemma {:induction false} FreedMeaning(ls: seq<Lease>, job: JobId, k: nat)
    requires k < |ls| && ls[k].job == Some(job) && forall j :: 0 <= j < k ==> ls[j].job != Some(job)
    ensures Freed(ls, job) == if ls[k].warm then ls[k := ls[k].(state := Idle, job := None)] else ls[..k] + ls[k + 1..]
  {
    if k > 0 {
      var tail := ls[1..];
      assert forall j :: 0 <= j < k - 1 ==> tail[j] == ls[j + 1];
      FreedMeaning(tail, job, k - 1);
      assert ls[0].job != Some(job) && Freed(ls, job) == [ls[0]] + Freed(tail, job);
      hide Freed;
      assert tail[k - 1] == ls[k];
      if ls[k].warm {
        assert [ls[0]] + tail[k - 1 := ls[k].(state := Idle, job := None)] == ls[k := ls[k].(state := Idle, job := None)];
      } else {
        assert [ls[0]] + (tail[..k - 1] + tail[k..]) == ls[..k] + ls[k + 1..];
      }
    }
  }

  /** ---- allocation and release, seen through the holders ---- */

  lemma {:induction false} UpsertHolders(ls: seq<Lease>, l: Lease)
    requires Distinct(ls)
    ensures Holders(Upsert(ls, l))
         == (set p <- Holders(ls) | p.0 != l.id) + (if l.job.Some? then {(l.id, l.job.value)} else {})
  {
    if ls != [] {
      UpsertHolders(ls[1..], l);
      NamesCoverHolders(ls[1..]);
      if ls[0].id == l.id {
        assert Upsert(ls, l)[1..] == ls[1..];
      } else {
        assert Upsert(ls, l)[1..] == Upsert(ls[1..], l);
      }
    }
  }

  lemma {:induction false} NamesCoverHolders(ls: seq<Lease>)
    ensures forall p <- Holders(ls) :: p.0 in Ids(ls)
  {
    if ls != [] {
      NamesCoverHolders(ls[1..]);
    }
  }

  lemma {:induction false} DeleteHolders(ls: seq<Lease>, id: WorkerId)
    requires Distinct(ls)
    ensures Holders(Delete(ls, id)) == set p <- Holders(ls) | p.0 != id
  {
    if ls != [] {
      NamesCoverHolders(ls[1..]);
      if ls[0].id != id {
        DeleteHolders(ls[1..], id);
        assert Delete(ls, id)[1..] == Delete(ls[1..], id);
      }
    }
  }

  /** Granting a lease adds one holder on a worker nobody held, and touches no other. */
  lemma GrantHolders(ls: seq<Lease>, next: nat, job: JobId, gpu: string, depth: int, desired: int)
    requires WellFormed(ls, next)
    ensures var l := Granted(ls, next, job, gpu, depth, desired);
            && WellFormed(Upsert(ls, l), next + 1)
            && Holders(Upsert(ls, l)) == Holders(ls) + {(l.id, job)}
            && (forall p <- Holders(ls) :: p.0 != l.id)
            && l.id.n < next + 1
  {
    var l := Granted(ls, next, job, gpu, depth, desired);
    var idle := Select(ls, IdleWarm);
    if idle != [] { SelectSound(ls, IdleWarm, idle[0]); }
    forall p <- Holders(ls) ensures p.0 != l.id {
      HoldersMember(ls, p.0, p.1);
      var held :| held in ls && held.id == p.0 && held.job == Some(p.1);
      if idle != [] && p.0 == l.id { SameName(ls, idle[0], held); }
    }
    UpsertHolders(ls, l);
    assert (set p <- Holders(ls) | p.0 != l.id) == Holders(ls);
    UpsertDistinct(ls, l);
    forall x <- Upsert(ls, l)
      ensures x.id.n < next + 1 && (x.state == Busy <==> x.job.Some?)
    {
      UpsertMembers(ls, l, x);
    }
  }

  /** Undoing a grant (the except branch of allocate_gpu) gives the holders back as they were. */
  lemma UndoGrantHolders(ls: seq<Lease>, next: nat, job: JobId, undo: Lease, others: set<(WorkerId, JobId)>)
    requires WellFormed(ls, next) && undo.id.n < next && undo.job.None? && undo.state != Busy
    requires Holders(ls) == others + {(undo.id, job)} && (forall p <- others :: p.0 != undo.id)
    ensures WellFormed(Upsert(ls, undo), next) && Holders(Upsert(ls, undo)) == others
    ensures WellFormed(Delete(ls, undo.id), next) && Holders(Delete(ls, undo.id)) == others
  {
    UpsertHolders(ls, undo);
    DeleteHolders(ls, undo.id);
    UpsertDistinct(ls, undo);
    DeleteDistinct(ls, undo.id);
    forall x <- Upsert(ls, undo) ensures x.id.n < next && (x.state == Busy <==> x.job.Some?) { UpsertMembers(ls, undo, x); }
    forall x <- Delete(ls, undo.id) ensures x.id.n < next && (x.state == Busy <==> x.job.Some?) { DeleteMembers(ls, undo.id, x); }
  }

  /** Releasing takes away exactly one holder of the job, if there is one, and nobody else's lease. */
  lemma {:induction false} FreedKeeps(ls: seq<Lease>, job: JobId, next: nat)
    requires WellFormed(ls, next)
    ensures WellFormed(Freed(ls, job), next) && Ids(Freed(ls, job)) <= Ids(ls)
    ensures Holders(Freed(ls, job)) <= Holders(ls)
    ensures forall p <- Holders(ls) :: p.1 != job ==> p in Holders(Freed(ls, job))
    ensures forall w :: (forall v :: (v, job) in Holders(ls) ==> v == w) ==> (w, job) !in Holders(Freed(ls, job))
  {
    if ls != [] {
      var tail, freed := ls[1..], Freed(ls, job);
      NamesCoverHolders(tail);
      if ls[0].job != Some(job) {
        FreedKeeps(tail, job, next);
        assert freed[1..] == Freed(tail, job);
      } else if ls[0].warm {
        assert freed[1..] == tail;
      } else {
        assert forall l <- tail :: l in ls;
      }
    }
  }
}
