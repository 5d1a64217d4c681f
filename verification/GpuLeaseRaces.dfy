/** What two calls on the lease table do to each other when their reads and writes
    overlap: no lock covers a reconciliation, an allocation or a release. */
module GpuLeaseRaces {
  import opened Outcomes
  import opened GpuLeases
  import opened GpuLeaseLaws

  /** ---- two allocations ---- */

  /** Two allocations that both read the table before either writes: no lock covers the two steps.
      The first keeps its lease exactly when no idle warm lease was there to be picked twice. */
  lemma OverlappingGrants(ls: seq<Lease>, next: nat, first: JobId, second: JobId, gpu: string, depth: int, desired: int)
    requires WellFormed(ls, next) && first != second
    requires forall p <- Holders(ls) :: p.1 != first
    ensures var a, b := Granted(ls, next, first, gpu, depth, desired), Granted(ls, next + 1, second, gpu, depth, desired);
            var after := Holders(Upsert(Upsert(ls, a), b));
            && (b.id, second) in after
            && ((exists w :: (w, first) in after) <==> Select(ls, IdleWarm) == [])
  {
    var a, b := Granted(ls, next, first, gpu, depth, desired), Granted(ls, next + 1, second, gpu, depth, desired);
    GrantHolders(ls, next, first, gpu, depth, desired);
    var once := Upsert(ls, a);
    UpsertHolders(once, b);
    var after := Holders(Upsert(once, b));
    assert Select(ls, IdleWarm) == [] ==> (a.id, first) in after;
    assert Select(ls, IdleWarm) != [] ==> a.id == b.id;
  }

  /** The table after the except branch of an allocation: the lease picked as it was read, or the cold one gone. */
  function Undone(ls: seq<Lease>, read: seq<Lease>, granted: Lease): seq<Lease> {
    var idle := Select(read, IdleWarm);
    if idle != [] then Upsert(ls, idle[0]) else Delete(ls, granted.id)
  }

  /** And when the first of the two then fails and undoes its grant: it idles the lease the second
      holds exactly when an idle warm lease was picked twice. */
  lemma OverlappingUndo(ls: seq<Lease>, next: nat, first: JobId, second: JobId, gpu: string, depth: int, desired: int)
    requires WellFormed(ls, next) && first != second
    requires forall p <- Holders(ls) :: p.1 != first && p.1 != second
    ensures var a, b := Granted(ls, next, first, gpu, depth, desired), Granted(ls, next + 1, second, gpu, depth, desired);
            var after := Holders(Undone(Upsert(Upsert(ls, a), b), ls, a));
            && (forall w :: (w, first) !in after)
            && ((b.id, second) in after <==> Select(ls, IdleWarm) == [])
  {
    var a, b := Granted(ls, next, first, gpu, depth, desired), Granted(ls, next + 1, second, gpu, depth, desired);
    var idle := Select(ls, IdleWarm);
    if idle != [] { SelectSound(ls, IdleWarm, idle[0]); }
    GrantHolders(ls, next, first, gpu, depth, desired);
    var once := Upsert(ls, a);
    UpsertHolders(once, b);
    UpsertDistinct(once, b);
    var twice := Upsert(once, b);
    if idle != [] { UpsertHolders(twice, idle[0]); } else { DeleteHolders(twice, a.id); }
  }

  /** ---- a reconciliation that read the table earlier ---- */

  /** The refresh of a reconciliation: the copies it read are written back whole, restamped. */
  function WriteBack(ls: seq<Lease>, read: seq<Lease>, depth: int, desired: int): seq<Lease>
    decreases read
  {
    if read == [] then ls else WriteBack(Upsert(ls, Refresh(read[0], depth, desired)), read[1..], depth, desired)
  }

  /** With nobody in between, writing back is the refresh of an uninterrupted reconciliation. */
  lemma {:induction false} WriteBackUninterrupted(ls: seq<Lease>, done: nat, depth: int, desired: int)
    requires Distinct(ls) && done <= |Select(ls, ActiveWarm)|
    ensures WriteBack(RefreshFirst(ls, done, depth, desired), Select(ls, ActiveWarm)[done..], depth, desired)
         == RefreshFirst(ls, |Select(ls, ActiveWarm)|, depth, desired)
    decreases |Select(ls, ActiveWarm)| - done
  {
    if done < |Select(ls, ActiveWarm)| {
      RefreshStep(ls, done, depth, desired);
      WriteBackUninterrupted(ls, done + 1, depth, desired);
    }
  }

  /** Otherwise the leases read are held as they were when read, whatever happened to them since. */
  lemma {:induction false} WriteBackHolders(ls: seq<Lease>, read: seq<Lease>, depth: int, desired: int)
    requires Distinct(ls) && Distinct(read)
    ensures Distinct(WriteBack(ls, read, depth, desired))
    ensures Holders(WriteBack(ls, read, depth, desired)) == (set p <- Holders(ls) | p.0 !in Ids(read)) + Holders(read)
    decreases read
  {
    if read != [] {
      var l := Refresh(read[0], depth, desired);
      UpsertDistinct(ls, l);
      UpsertHolders(ls, l);
      NamesCoverHolders(read[1..]);
      WriteBackHolders(Upsert(ls, l), read[1..], depth, desired);
    }
  }

  lemma {:induction false} SelectedTable(ls: seq<Lease>, p: Lease -> bool)
    requires Distinct(ls)
    ensures Distinct(Select(ls, p)) && Ids(Select(ls, p)) <= Ids(ls) && Holders(Select(ls, p)) <= Holders(ls)
  {
    if ls != [] {
      SelectedTable(ls[1..], p);
      if p(ls[0]) {
        assert Select(ls, p) == [ls[0]] + Select(ls[1..], p);
        assert Select(ls, p)[1..] == Select(ls[1..], p);
      } else {
        assert Select(ls, p) == Select(ls[1..], p);
      }
    }
  }

  predicate HoldsWarm(ls: seq<Lease>, job: JobId) {
    exists l <- ls :: l.warm && l.job == Some(job)
  }

  /** A reconciliation lists the leases, the job is released, and the stale copies are written back: the job
      holds a lease again, for good, exactly when the lease it had was a warm one. */
  lemma ReleaseUnderRefresh(ls: seq<Lease>, next: nat, job: JobId, depth: int, desired: int)
    requires WellFormed(ls, next)
    requires forall v, w :: (v, job) in Holders(ls) && (w, job) in Holders(ls) ==> v == w
    ensures var after := Holders(WriteBack(Freed(ls, job), Select(ls, ActiveWarm), depth, desired));
            (exists w :: (w, job) in after) <==> HoldsWarm(ls, job)
  {
    var read, freed := Select(ls, ActiveWarm), Freed(ls, job);
    FreedKeeps(ls, job, next);
    SelectedTable(ls, ActiveWarm);
    WriteBackHolders(freed, read, depth, desired);
    forall w ensures (w, job) in Holders(read) <==> exists l :: l in ls && l.warm && l.id == w && l.job == Some(job) {
      HoldersMember(read, w, job);
      forall l ensures l in read <==> l in ls && ActiveWarm(l) { SelectSound(ls, ActiveWarm, l); }
    }
    forall w ensures (w, job) !in Holders(freed) {
      if (w, job) in Holders(ls) { assert forall v :: (v, job) in Holders(ls) ==> v == w; }
    }
    if HoldsWarm(ls, job) {
      var l :| l in ls && l.warm && l.job == Some(job);
      assert (l.id, job) in Holders(read);
    }
  }

  /** Its twin: a lease granted under a stale refresh is kept exactly when no idle warm lease was there
      to be granted; a warm grant is written back as idle. */
  lemma GrantUnderRefresh(ls: seq<Lease>, next: nat, job: JobId, gpu: string, depth: int, desired: int)
    requires WellFormed(ls, next) && forall p <- Holders(ls) :: p.1 != job
    ensures var after := Holders(WriteBack(Upsert(ls, Granted(ls, next, job, gpu, depth, desired)), Select(ls, ActiveWarm), depth, desired));
            (exists w :: (w, job) in after) <==> Select(ls, IdleWarm) == []
  {
    var read, granted := Select(ls, ActiveWarm), Granted(ls, next, job, gpu, depth, desired);
    var idle := Select(ls, IdleWarm);
    GrantHolders(ls, next, job, gpu, depth, desired);
    SelectedTable(ls, ActiveWarm);
    WriteBackHolders(Upsert(ls, granted), read, depth, desired);
    if idle != [] {
      SelectSound(ls, IdleWarm, idle[0]);
      SelectSound(ls, ActiveWarm, idle[0]);
      IdOfMember(read, idle[0]);
    } else {
      IdsMember(ls);
    }
  }

  /** One warm worker, one job: after the release and the late write-back the worker is busy for a job
      that has ended, and a second release would be needed to free it. */
  lemma LeaseOfAnEndedJob(depth: int, desired: int)
    ensures var busy := Lease(Warm(0), "L4", Busy, true, Some("job"), 1, 1);
            && WellFormed([busy], 1) && Freed([busy], "job") == [busy.(state := Idle, job := None)]
            && WriteBack(Freed([busy], "job"), Select([busy], ActiveWarm), depth, desired)
               == [busy.(depth := depth, desired := desired)]
  {
    var busy := Lease(Warm(0), "L4", Busy, true, Some("job"), 1, 1);
    assert [busy][1..] == [];
    assert Select([busy], ActiveWarm) == [busy];
    var freed := Freed([busy], "job");
    assert freed == [busy.(state := Idle, job := None)];
    assert Upsert(freed, Refresh(busy, depth, desired)) == [Refresh(busy, depth, desired)];
  }
}
