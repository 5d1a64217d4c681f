/** review_preview and launch_preview as the service runs them: one repository call
    after another, with the steps of other requests in between. */
module PreviewService {
  import opened Outcomes
  import opened PreviewLaunch

  /** Why a review is turned away, or how it went. */
  datatype ReviewEnding = TurnedAway(why: Ending) | AlreadyLaunched | Unchanged | ReviewFailed | Reviewed

  lemma {:induction false} ReplaySnoc(s: State, steps: seq<Step>, step: Step)
    ensures Replay(s, steps + [step]) == Apply(Replay(s, steps), step)
    decreases steps
  {
    hide Apply;
    if steps == [] {
      assert [] + [step] == [step] && [step][1..] == [];
    } else {
      assert (steps + [step])[1..] == steps[1..] + [step];
      ReplaySnoc(Apply(s, steps[0]), steps[1..], step);
    }
  }

  /** No preview is on its way or launched without approval. */
  predicate ApprovedFirst(previews: map<PreviewId, Preview>) {
    forall id <- previews :: previews[id].launch != NotLaunched ==> previews[id].review == Approved
  }

  /** A review that rejects a launch already on its way is what breaks approval under interference. */
  lemma ReviewKeepsApproval(s: State, id: PreviewId, review: Review)
    requires ApprovedFirst(s.previews) && id in s.previews
    ensures ApprovedFirst(Apply(s, ReviewWrite(id, review)).previews) <==> s.previews[id].launch == NotLaunched || review == Approved
  {
    var after := Apply(s, ReviewWrite(id, review)).previews;
    assert after[id] == s.previews[id].(review := review);
    assert forall x <- after :: x in s.previews && (x != id ==> after[x] == s.previews[x]);
  }

  class Service {
    /** What other requests, reviews and time do between two calls of a request. */
    const others: nat -> seq<Step>
    var clock: nat
    var previews: map<PreviewId, Preview>
    var jobs: set<LaunchId>
    var published: multiset<LaunchId>
    var callers: map<CallerId, Caller>
    var periods: multiset<PreviewId>
    var wins: multiset<PreviewId>
    ghost var trace: seq<Step>

    constructor (others: nat -> seq<Step>)
      ensures Valid() && Now() == Empty && this.others == others && clock == 0
    {
      this.others := others;
      clock, previews, jobs, published, callers, periods, wins := 0, map[], {}, multiset{}, map[], multiset{}, multiset{};
      trace := [];
    }

    ghost function Now(): State
      reads this`previews, this`jobs, this`published, this`callers, this`periods, this`wins
    {
      State(previews, jobs, published, callers, periods, wins)
    }

    /** The state is the end of a run of the protocol from the empty store. */
    ghost predicate Valid()
      reads this`previews, this`jobs, this`published, this`callers, this`periods, this`wins, this`trace
    {
      Replay(Empty, trace) == Now() && Firm(Now())
    }

    /** Whole requests are taken one after another. */
    ghost predicate Alone() {
      forall n :: others(n) == []
    }

    ghost method Note(before: State, step: Step)
      requires Replay(Empty, trace) == before && Firm(before) && Now() == Apply(before, step)
      modifies this`trace
      ensures Valid() && trace == old(trace) + [step]
    {
      hide Apply, Firm;
      ReplaySnoc(Empty, trace, step);
      StepKeeps(before, step);
      trace := trace + [step];
    }

    method Perform(step: Step)
      requires Valid()
      modifies this`previews, this`jobs, this`published, this`callers, this`periods, this`wins, this`trace
      ensures Valid() && Now() == Apply(old(Now()), step) && trace == old(trace) + [step]
    {
      hide Apply, Firm;
      var next := Apply(State(previews, jobs, published, callers, periods, wins), step);
      previews, jobs, published := next.previews, next.jobs, next.published;
      callers, periods, wins := next.callers, next.periods, next.wins;
      Note(old(Now()), step);
    }

    /** Others go on; none of them acts for request `c`. */
    method Others(c: CallerId)
      requires Valid()
      modifies this
      ensures Valid()
      ensures old(trace) <= trace
      ensures (c in callers <==> c in old(callers)) && (c in callers ==> callers[c] == old(callers)[c])
      ensures Alone() ==> Now() == old(Now())
    {
      hide Valid, Apply;
      var todo := others(clock);
      clock := clock + 1;
      for i := 0 to |todo|
        invariant Valid()
        invariant old(trace) <= trace
        invariant (c in callers <==> c in old(callers)) && (c in callers ==> callers[c] == old(callers)[c])
        invariant i == 0 ==> Now() == old(Now())
      {
        if !StepOf(todo[i], c) {
          OtherRequestsUntouched(Now(), todo[i], c);
          Perform(todo[i]);
        }
      }
    }

    lemma OtherRequestsUntouched(s: State, step: Step, c: CallerId)
      requires !StepOf(step, c)
      ensures var t := Apply(s, step);
              (c in t.callers <==> c in s.callers) && (c in t.callers ==> t.callers[c] == s.callers[c])
    {
    }

    /** ---- the repository ---- */

    method GetPreview(id: PreviewId, owner: string) returns (found: Option<Preview>)
      ensures found == if Visible(previews, id, owner) then Some(previews[id]) else None
    {
      found := if id in previews && previews[id].owner == owner then Some(previews[id]) else None;
    }

    method UpdatePreview(id: PreviewId, owner: string, patch: Preview -> Preview) returns (updated: Option<Preview>)
      modifies this`previews
      ensures previews == Patched(old(previews), id, owner, patch)
      ensures updated == if Visible(old(previews), id, owner) then Some(patch(old(previews)[id])) else None
    {
      if id !in previews || previews[id].owner != owner {
        return None;
      }
      previews := previews[id := patch(previews[id])];
      updated := Some(previews[id]);
    }

    /** Compare and set: at most one request takes a preview out of not_launched. */
    method ClaimLaunch(id: PreviewId, owner: string, job: LaunchId) returns (claimed: Option<Preview>)
      modifies this`previews, this`wins
      ensures Claimable(old(previews), id, owner) ==>
                && claimed == Some(old(previews)[id].(launch := LaunchPending, bound := Some(job)))
                && previews == old(previews)[id := claimed.value] && wins == old(wins) + multiset{id}
      ensures !Claimable(old(previews), id, owner) ==> claimed == None && previews == old(previews) && wins == old(wins)
    {
      if id !in previews || previews[id].owner != owner || previews[id].launch != NotLaunched {
        return None;
      }
      previews, wins := previews[id := AsClaimed(previews[id], job)], wins + multiset{id};
      claimed := Some(previews[id]);
    }

    /** _load_mutable_preview: mark an overdue preview deleted, then refuse what is gone or stale. */
    method LoadMutable(id: PreviewId, owner: string, view: View) returns (refusal: Option<Ending>, loaded: Option<Preview>)
      modifies this`previews
      ensures refusal == Refusal(old(previews), id, owner, view)
      ensures previews == AfterLooking(old(previews), id, owner, view)
      ensures refusal.None? ==> Visible(previews, id, owner) && loaded == Some(previews[id]) && previews == old(previews)
    {
      loaded := GetPreview(id, owner);
      if loaded.None? {
        return Some(NotFound), None;
      }
      if !loaded.value.deleted && view.overdue {
        loaded := UpdatePreview(id, owner, (p: Preview) => p.(deleted := true));
      }
      if loaded.value.deleted {
        assert view.overdue ==> previews == AfterLooking(old(previews), id, owner, view);
        return Some(Expired), None;
      }
      if view.saved != Some(loaded.value.fingerprint) || (view.requested.Some? && view.requested.value != loaded.value.fingerprint) {
        return Some(Stale), None;
      }
      refusal := None;
    }

    /** ---- the calls of one launch request, in order ---- */

    predicate Is(c: CallerId, id: PreviewId, owner: string, stage: Stage)
      reads this`callers
    {
      c in callers && callers[c] == Caller(id, owner, stage)
    }

    /** Load and decide: answer, turn away, claim, or join a pending launch. */
    method Enter(c: CallerId, id: PreviewId, owner: string, view: View) returns (stage: Stage)
      requires Valid() && c !in callers
      modifies this
      ensures Valid() && Now() == Apply(old(Now()), Load(c, id, owner, view))
      ensures trace == old(trace) + [Load(c, id, owner, view)]
      ensures Is(c, id, owner, stage) && stage == StageAfterLoad(old(Now()), id, owner, view)
      ensures previews == AfterLooking(old(previews), id, owner, view) && jobs == old(jobs) && published == old(published)
    {
      hide Firm, Replay, StageAfterLoad, AfterLooking;
      ghost var before := Now();
      stage := Decide(id, owner, view);
      callers := callers[c := Caller(id, owner, stage)];
      Note(before, Load(c, id, owner, view));
    }

    method Decide(id: PreviewId, owner: string, view: View) returns (stage: Stage)
      modifies this`previews
      ensures stage == StageAfterLoad(old(Now()), id, owner, view)
      ensures previews == AfterLooking(old(previews), id, owner, view)
    {
      var refusal, loaded := LoadMutable(id, owner, view);
      if refusal.Some? {
        return Ended(refusal.value);
      }
      var job := if loaded.value.bound.Some? then loaded.value.bound.value else LaunchId(id, view.saved.value);
      if loaded.value.launch == Launched {
        return Ended(if job in jobs then Answered(job) else NotFound);
      }
      if loaded.value.review != Approved {
        return Ended(ApprovalRequired);
      }
      stage := if loaded.value.launch == NotLaunched then Claiming(job) else Creating(job, false);
    }

    method TakeClaim(c: CallerId, id: PreviewId, owner: string, job: LaunchId) returns (won: bool)
      requires Valid() && Is(c, id, owner, Claiming(job))
      modifies this
      ensures Valid() && trace == old(trace) + [Claim(c)]
      ensures won <==> Claimable(old(previews), id, owner)
      ensures Is(c, id, owner, if won then Creating(job, true) else Reloading(job))
      ensures previews == if won then old(previews)[id := AsClaimed(old(previews)[id], job)] else old(previews)
      ensures jobs == old(jobs) && published == old(published)
    {
      hide Firm, Replay;
      ghost var before := Now();
      var claimed := ClaimLaunch(id, owner, job);
      won := claimed.Some?;
      callers := callers[c := callers[c].(stage := if won then Creating(job, true) else Reloading(job))];
      Note(before, Claim(c));
    }

    /** The claim was lost: load again, and answer if the launch is over by now. */
    method LookAgain(c: CallerId, id: PreviewId, owner: string, job: LaunchId, view: View) returns (stage: Stage)
      requires Valid() && Is(c, id, owner, Reloading(job))
      modifies this
      ensures Valid() && trace == old(trace) + [Reload(c, view)]
      ensures Is(c, id, owner, stage) && (stage == Creating(job, false) || stage.Ended?)
      ensures stage == Ended(Answered(job)) ==> job in jobs && published[job] >= 1
      ensures stage.Ended? && stage.how.Answered? ==> stage.how.job == job
    {
      hide Firm, Replay;
      ghost var before := Now();
      var refusal, loaded := LoadMutable(id, owner, view);
      if refusal.Some? {
        stage := Ended(refusal.value);
      } else if loaded.value.launch == Launched {
        stage := Ended(if job in jobs then Answered(job) else NotFound);
      } else {
        stage := Creating(job, false);
      }
      callers := callers[c := callers[c].(stage := stage)];
      Facts(before, id, c);
      Note(before, Reload(c, view));
    }

    /** Create the job; a refusal is undone by the winner of the claim. */
    method CreateJob(c: CallerId, id: PreviewId, owner: string, job: LaunchId, won: bool, result: Creation) returns (stage: Stage)
      requires Valid() && Is(c, id, owner, Creating(job, won))
      modifies this
      ensures Valid() && trace == old(trace) + [Create(c, result)]
      ensures stage == if result.Created? then Persisting(job) else if result.Refused? && won then RollingBack(job) else Ended(CreateFailed)
      ensures Is(c, id, owner, stage)
      ensures jobs == if result.Created? then old(jobs) + {job} else old(jobs)
      ensures previews == old(previews) && published == old(published)
    {
      hide Firm, Replay;
      ghost var before := Now();
      if result.Created? {
        jobs := jobs + {job};
      }
      stage := if result.Created? then Persisting(job) else if result.Refused? && won then RollingBack(job) else Ended(CreateFailed);
      callers := callers[c := callers[c].(stage := stage)];
      Note(before, Create(c, result));
    }

    method UndoClaim(c: CallerId, id: PreviewId, owner: string, job: LaunchId)
      requires Valid() && Is(c, id, owner, RollingBack(job))
      modifies this
      ensures Valid() && trace == old(trace) + [RollBack(c)]
      ensures Is(c, id, owner, Ended(CreateFailed))
      ensures previews == Patched(old(previews), id, owner, AsRolledBack)
      ensures jobs == old(jobs) && published == old(published)
    {
      hide Firm, Replay;
      ghost var before := Now();
      var period := if id in previews then Opening(previews, id) else multiset{};
      var undone := UpdatePreview(id, owner, AsRolledBack);
      if undone.Some? {
        periods := periods + period;
      }
      callers := callers[c := callers[c].(stage := Ended(CreateFailed))];
      Note(before, RollBack(c));
    }

    method Bind(c: CallerId, id: PreviewId, owner: string, job: LaunchId) returns (stage: Stage)
      requires Valid() && Is(c, id, owner, Persisting(job))
      modifies this
      ensures Valid() && trace == old(trace) + [Persist(c)]
      ensures stage == if Visible(old(previews), id, owner) then Publishing(job) else Ended(LaunchFailed)
      ensures Is(c, id, owner, stage)
      ensures previews == Patched(old(previews), id, owner, (p: Preview) => AsBound(p, LaunchPending, job))
      ensures jobs == old(jobs) && published == old(published)
    {
      hide Firm, Replay;
      ghost var before := Now();
      var bound := UpdatePreview(id, owner, (p: Preview) => AsBound(p, LaunchPending, job));
      stage := if bound.Some? then Publishing(job) else Ended(LaunchFailed);
      callers := callers[c := callers[c].(stage := stage)];
      Note(before, Persist(c));
    }

    method PublishJob(c: CallerId, id: PreviewId, owner: string, job: LaunchId, dispatch: Dispatch) returns (stage: Stage)
      requires Valid() && Is(c, id, owner, Publishing(job))
      modifies this
      ensures Valid() && trace == old(trace) + [Publish(c, dispatch)]
      ensures stage == if dispatch.Sent? then Confirming(job) else Ended(DispatchFailed)
      ensures Is(c, id, owner, stage)
      ensures published == if dispatch.Lost? then old(published) else old(published) + multiset{job}
      ensures previews == old(previews) && jobs == old(jobs)
    {
      hide Firm, Replay;
      ghost var before := Now();
      if !dispatch.Lost? {
        published := published + multiset{job};
      }
      stage := if dispatch.Sent? then Confirming(job) else Ended(DispatchFailed);
      callers := callers[c := callers[c].(stage := stage)];
      Note(before, Publish(c, dispatch));
    }

    method ConfirmLaunch(c: CallerId, id: PreviewId, owner: string, job: LaunchId) returns (how: Ending)
      requires Valid() && Is(c, id, owner, Confirming(job))
      modifies this
      ensures Valid() && trace == old(trace) + [Confirm(c)]
      ensures how == if Visible(old(previews), id, owner) then Answered(job) else LaunchFailed
      ensures job in jobs && published[job] >= 1
      ensures Is(c, id, owner, Ended(how))
      ensures previews == Patched(old(previews), id, owner, (p: Preview) => AsBound(p, Launched, job))
      ensures jobs == old(jobs) && published == old(published)
    {
      hide Firm, Replay;
      ghost var before := Now();
      Facts(before, id, c);
      var launched := UpdatePreview(id, owner, (p: Preview) => AsBound(p, Launched, job));
      how := if launched.None? then LaunchFailed else if job in jobs then Answered(job) else NotFound;
      callers := callers[c := callers[c].(stage := Ended(how))];
      Note(before, Confirm(c));
    }

    /** ---- whole requests ---- */

    /** What a launch leaves of the preview it binds, by how creation and dispatch went. */
    static function Outcome(p: Preview, job: LaunchId, creation: Creation, dispatch: Dispatch): Preview {
      if creation.Created? then AsBound(p, if dispatch.Sent? then Launched else LaunchPending, job)
      else if creation.Refused? || p.launch == LaunchPending then p
      else AsClaimed(p, job)
    }

    static function Verdict(job: LaunchId, creation: Creation, dispatch: Dispatch): Ending {
      if !creation.Created? then CreateFailed else if dispatch.Sent? then Answered(job) else DispatchFailed
    }

    /** An answer names the job the preview determines; the job exists and was published. */
    predicate Honest(how: Ending, id: PreviewId)
      reads this`jobs, this`published
    {
      how.Answered? ==> how.job == JobOf(id) && how.job in jobs && published[how.job] >= 1
    }

    lemma LoadIsHonest(c: CallerId, s: State, id: PreviewId, owner: string, view: View)
      requires Firm(s)
      ensures var stage, job := StageAfterLoad(s, id, owner, view), JobOf(id);
              && (stage.Claiming? || stage.Creating? ==> stage.job == job)
              && (stage.Ended? && stage.how.Answered? ==> stage.how.job == job && job in s.jobs && s.published[job] >= 1)
    {
      Facts(s, id, c);
    }

    /** The preview records after a launch request that runs alone. */
    static function Solo(previews: map<PreviewId, Preview>, id: PreviewId, owner: string, view: View,
                         creation: Creation, dispatch: Dispatch): map<PreviewId, Preview>
    {
      if Refusal(previews, id, owner, view).Some? then AfterLooking(previews, id, owner, view)
      else if previews[id].launch == Launched || previews[id].review != Approved then previews
      else previews[id := Outcome(previews[id], JobOf(id), creation, dispatch)]
    }

    /** Requests taken one after another never launch what was not approved. */
    static lemma SoloKeepsApproval(previews: map<PreviewId, Preview>, id: PreviewId, owner: string, view: View,
                                   creation: Creation, dispatch: Dispatch)
      requires ApprovedFirst(previews)
      ensures ApprovedFirst(Solo(previews, id, owner, view, creation, dispatch))
    {
      var after := Solo(previews, id, owner, view, creation, dispatch);
      forall x <- after ensures after[x].launch != NotLaunched ==> after[x].review == Approved {
        assert x in previews;
      }
    }

    /** A launch request alone, on an up-to-date and approved preview that is not launched: the binding is left
        as a created job leaves it, a refused one takes its claim back, a broken one leaves it behind. */
    static lemma SoloMeaning(previews: map<PreviewId, Preview>, id: PreviewId, owner: string, view: View,
                             creation: Creation, dispatch: Dispatch)
      requires id in previews && UpToDate(previews, id, owner, view, previews[id].fingerprint)
      requires previews[id].review == Approved && previews[id].launch != Launched
      ensures var after, p, job := Solo(previews, id, owner, view, creation, dispatch), previews[id], JobOf(id);
              && Verdict(job, creation, dispatch) == (if !creation.Created? then CreateFailed else if dispatch.Sent? then Answered(job) else DispatchFailed)
              && after == previews[id := after[id]]
              && (creation.Created? ==> after[id] == p.(launch := if dispatch.Sent? then Launched else LaunchPending,
                                                        bound := Some(job), internal := Some(job)))
              && (creation.Refused? ==> after[id] == p)
              && (creation.Broke? ==> after[id] == if p.launch == NotLaunched then p.(launch := LaunchPending, bound := Some(job)) else p)
    {
      RefusalMeaning(previews, id, owner, view);
    }

    /** A failed dispatch is made good by trying again: the same job, published, and the preview launched. */
    static lemma RetryCompletes(previews: map<PreviewId, Preview>, id: PreviewId, owner: string, view: View, dispatch: Dispatch)
      requires Refusal(previews, id, owner, view).None? && previews[id].review == Approved && previews[id].launch != Launched
      requires !dispatch.Sent?
      ensures var failed := Solo(previews, id, owner, view, Created, dispatch);
              && failed[id].launch == LaunchPending && failed[id].bound == Some(JobOf(id))
              && Solo(failed, id, owner, view, Created, Sent) == Solo(previews, id, owner, view, Created, Sent)
    {
      var failed, job := Solo(previews, id, owner, view, Created, dispatch), JobOf(id);
      assert AsBound(failed[id], Launched, job) == AsBound(previews[id], Launched, job);
    }

    /** From the creation of the job to the answer. */
    method Complete(c: CallerId, id: PreviewId, owner: string, job: LaunchId, won: bool, creation: Creation, dispatch: Dispatch)
      returns (how: Ending)
      requires Valid() && Is(c, id, owner, Creating(job, won)) && job == JobOf(id)
      modifies this
      ensures Valid() && old(trace) <= trace && Is(c, id, owner, Ended(how)) && Honest(how, id)
      ensures Alone() && Visible(old(previews), id, owner) ==>
                && how == Verdict(job, creation, dispatch)
                && previews == old(previews)[id := if creation.Created? then Outcome(old(previews)[id], job, creation, dispatch)
                                                   else if creation.Refused? && won then AsRolledBack(old(previews)[id])
                                                   else old(previews)[id]]
                && jobs == (if creation.Created? then old(jobs) + {job} else old(jobs))
                && published == old(published) + if creation.Created? && !dispatch.Lost? then multiset{job} else multiset{}
    {
      hide Valid, Apply;
      Others(c);
      var stage := CreateJob(c, id, owner, job, won, creation);
      if stage.RollingBack? {
        Others(c);
        UndoClaim(c, id, owner, job);
        return CreateFailed;
      }
      if stage.Ended? {
        return stage.how;
      }
      Others(c);
      stage := Bind(c, id, owner, job);
      if stage.Ended? {
        return stage.how;
      }
      how := Dispatched(c, id, owner, job, dispatch);
    }

    method Dispatched(c: CallerId, id: PreviewId, owner: string, job: LaunchId, dispatch: Dispatch) returns (how: Ending)
      requires Valid() && Is(c, id, owner, Publishing(job)) && job == JobOf(id)
      modifies this
      ensures Valid() && old(trace) <= trace && Is(c, id, owner, Ended(how)) && Honest(how, id)
      ensures Alone() && Visible(old(previews), id, owner) ==>
                && how == (if dispatch.Sent? then Answered(job) else DispatchFailed)
                && previews == (if dispatch.Sent? then old(previews)[id := AsBound(old(previews)[id], Launched, job)] else old(previews))
                && jobs == old(jobs)
                && published == old(published) + if dispatch.Lost? then multiset{} else multiset{job}
    {
      hide Valid, Apply;
      Others(c);
      var stage := PublishJob(c, id, owner, job, dispatch);
      if stage.Ended? {
        return stage.how;
      }
      Others(c);
      how := ConfirmLaunch(c, id, owner, job);
    }

    /** launch_preview. Among any other requests it is a run of the protocol, answers honestly, and gets past
        its load only with the preview's own fingerprint or without naming one; taken alone it changes
        nothing unless the preview is up to date, approved and not launched. */
    method LaunchPreview(c: CallerId, id: PreviewId, owner: string, view: View, again: View, creation: Creation, dispatch: Dispatch)
      returns (how: Ending)
      requires Valid() && c !in callers
      modifies this
      ensures Valid() && old(trace) <= trace && Is(c, id, owner, Ended(how)) && Honest(how, id)
      ensures how !in {NotFound, Expired, Stale} ==>
                !view.overdue && view.saved == Some(FingerprintOf(id)) && view.requested in {None, Some(FingerprintOf(id))}
      ensures Alone() && !(id in old(previews) && UpToDate(old(previews), id, owner, view, old(previews)[id].fingerprint)) ==>
                jobs == old(jobs) && published == old(published)
                && how == (if id !in old(previews) || old(previews)[id].owner != owner then NotFound
                           else if old(previews)[id].deleted || view.overdue then Expired else Stale)
      ensures Alone() && how == Expired ==>
                previews == if view.overdue then old(previews)[id := old(previews)[id].(deleted := true)] else old(previews)
      ensures Alone() ==> previews == Solo(old(previews), id, owner, view, creation, dispatch)
      ensures Alone() ==>
                var refusal, job := Refusal(old(previews), id, owner, view), JobOf(id);
                if refusal.Some? then
                  how == refusal.value && jobs == old(jobs) && published == old(published)
                else if old(previews)[id].launch == Launched || old(previews)[id].review != Approved then
                  how == (if old(previews)[id].launch == Launched then Answered(job) else ApprovalRequired)
                  && jobs == old(jobs) && published == old(published)
                else
                  how == Verdict(job, creation, dispatch)
                  && jobs == (if creation.Created? then old(jobs) + {job} else old(jobs))
                  && published == old(published) + if creation.Created? && !dispatch.Lost? then multiset{job} else multiset{}
    {
      hide Valid, Apply, Firm;
      Others(c);
      FirmNow();
      RefusalMeaning(previews, id, owner, view);
      LoadIsHonest(c, Now(), id, owner, view);
      Facts(Now(), id, c);
      var stage := Enter(c, id, owner, view);
      if stage.Ended? {
        return stage.how;
      }
      how := ClaimAndComplete(c, id, owner, stage, again, creation, dispatch);
    }

    /** An approved, current preview: claim it unless its launch is pending already, and go on. */
    method ClaimAndComplete(c: CallerId, id: PreviewId, owner: string, entered: Stage, again: View, creation: Creation, dispatch: Dispatch)
      returns (how: Ending)
      requires Valid() && Is(c, id, owner, entered)
      requires (entered.Claiming? || (entered.Creating? && !entered.won)) && entered.job == JobOf(id)
      modifies this
      ensures Valid() && old(trace) <= trace && Is(c, id, owner, Ended(how)) && Honest(how, id)
      ensures Alone() && Ready(old(previews), id, owner, entered) ==>
                && how == Verdict(entered.job, creation, dispatch)
                && previews == old(previews)[id := Outcome(old(previews)[id], entered.job, creation, dispatch)]
                && jobs == (if creation.Created? then old(jobs) + {entered.job} else old(jobs))
                && published == old(published) + if creation.Created? && !dispatch.Lost? then multiset{entered.job} else multiset{}
    {
      hide Valid, Apply;
      var job, won := entered.job, false;
      if entered.Claiming? {
        Others(c);
        won := TakeClaim(c, id, owner, job);
        if !won {
          Others(c);
          var stage := LookAgain(c, id, owner, job, again);
          if stage.Ended? {
            return stage.how;
          }
        }
      }
      how := Complete(c, id, owner, job, won, creation, dispatch);
    }

    /** The preview as a request entering alone finds it. */
    static predicate Ready(previews: map<PreviewId, Preview>, id: PreviewId, owner: string, entered: Stage) {
      && Visible(previews, id, owner)
      && (entered.Claiming? ==> previews[id].launch == NotLaunched && previews[id].bound == None && previews[id].internal == None)
      && (entered.Creating? ==> previews[id].launch == LaunchPending)
    }

    lemma FirmNow()
      requires Valid()
      ensures Firm(Now())
    {
    }

    /** review_preview. A review is written, or found in place already, only after a look at which
        the preview was not launched; taken alone, that look still holds at the write. */
    method ReviewPreview(c: CallerId, id: PreviewId, owner: string, saved: Option<Fingerprint>, overdue: bool, review: Review)
      returns (r: ReviewEnding, ghost looked: nat)
      requires Valid()
      modifies this
      ensures Valid() && old(trace) <= trace && |old(trace)| <= looked <= |trace|
      ensures r.Unchanged? || r.Reviewed? || r.ReviewFailed? ==>
                var seen := Replay(Empty, trace[..looked]).previews;
                Visible(seen, id, owner) && !seen[id].deleted && seen[id].launch == NotLaunched
      ensures r.AlreadyLaunched? ==>
                var seen := Replay(Empty, trace[..looked]).previews;
                Visible(seen, id, owner) && seen[id].launch != NotLaunched
      ensures Alone() && ApprovedFirst(old(previews)) ==> ApprovedFirst(previews)
      ensures Alone() ==>
                var view := View(saved, None, overdue);
                var refusal := Refusal(old(previews), id, owner, view);
                if refusal.Some? then r == TurnedAway(refusal.value) && previews == AfterLooking(old(previews), id, owner, view)
                else if old(previews)[id].launch != NotLaunched then r == AlreadyLaunched && previews == old(previews)
                else previews == old(previews)[id := old(previews)[id].(review := review)]
                     && r == if old(previews)[id].review == review then Unchanged else Reviewed
    {
      hide Valid, Apply, ApprovedFirst, Replay;
      Others(c);
      var refusal, preview := LookForReview(id, owner, View(saved, None, overdue));
      looked := |trace|;
      ghost var record := trace;
      assert record[..looked] == record;
      ValidReplays();
      if refusal.Some? {
        return TurnedAway(refusal.value), looked;
      }
      if preview.value.launch != NotLaunched {
        return AlreadyLaunched, looked;
      }
      if preview.value.review == review {
        return Unchanged, looked;
      }
      Others(c);
      r := WriteReview(id, owner, review);
      assert trace[..looked] == record;
    }

    lemma ValidReplays()
      requires Valid()
      ensures Replay(Empty, trace) == Now()
    {
    }

    method LookForReview(id: PreviewId, owner: string, view: View) returns (refusal: Option<Ending>, loaded: Option<Preview>)
      requires Valid()
      modifies this
      ensures Valid() && old(trace) <= trace
      ensures refusal == Refusal(old(previews), id, owner, view)
      ensures previews == AfterLooking(old(previews), id, owner, view)
      ensures refusal.None? ==> Visible(previews, id, owner) && loaded == Some(previews[id]) && previews == old(previews)
      ensures ApprovedFirst(old(previews)) ==> ApprovedFirst(previews)
    {
      hide Firm, Replay;
      ghost var before := Now();
      refusal, loaded := LoadMutable(id, owner, view);
      if previews != before.previews {
        Note(before, Expire(id));
      }
    }

    method WriteReview(id: PreviewId, owner: string, review: Review) returns (r: ReviewEnding)
      requires Valid()
      modifies this
      ensures Valid() && old(trace) <= trace
      ensures previews == Patched(old(previews), id, owner, (p: Preview) => p.(review := review))
      ensures r == if Visible(old(previews), id, owner) then Reviewed else ReviewFailed
      ensures ApprovedFirst(old(previews)) && (Visible(old(previews), id, owner) ==> old(previews)[id].launch == NotLaunched) ==>
                ApprovedFirst(previews)
    {
      hide Firm, Replay;
      ghost var before := Now();
      var updated := UpdatePreview(id, owner, (p: Preview) => p.(review := review));
      if updated.None? {
        return ReviewFailed;
      }
      Note(before, ReviewWrite(id, review));
      r := Reviewed;
    }
  }
}
