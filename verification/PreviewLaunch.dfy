/** Launching reviewed previews: the steps that any number of callers interleave. */
module PreviewLaunch {
  import opened Outcomes

  /** The preview id is hashed from the upload and the moment its configuration was saved. */
  datatype PreviewId = PreviewId(upload: string, configuredAt: string)

  type CallerId = nat

  /** The fingerprint is hashed from the moment a configuration was saved and the payload saved with
      it in one write; upload and moment stand for that payload. */
  datatype Fingerprint = Fingerprint(upload: string, configuredAt: string)

  /** So every generation of a preview has the same fingerprint, and determines the same job. */
  function FingerprintOf(id: PreviewId): Fingerprint {
    Fingerprint(id.upload, id.configuredAt)
  }

  function JobOf(id: PreviewId): LaunchId {
    LaunchId(id, FingerprintOf(id))
  }

  datatype Review = Pending | Approved | Rejected

  datatype LaunchStatus = NotLaunched | LaunchPending | Launched

  /** Injective stand-in for the job id hashed from preview and configuration fingerprint. */
  datatype LaunchId = LaunchId(preview: PreviewId, fingerprint: Fingerprint)

  /** `bound` is the external job id of the record, `internal` the stored row id derived from it. */
  datatype Preview = Preview(owner: string, fingerprint: Fingerprint, review: Review, launch: LaunchStatus,
                             bound: Option<LaunchId>, internal: Option<LaunchId>, deleted: bool)

  datatype Ending = NotFound | Expired | Stale | ApprovalRequired | CreateFailed | LaunchFailed | DispatchFailed | Crashed
                  | Answered(job: LaunchId)

  /** Where a launch request stands; `won` marks the winner of the claim. */
  datatype Stage =
    | Claiming(job: LaunchId)
    | Reloading(job: LaunchId)
    | Creating(job: LaunchId, won: bool)
    | RollingBack(job: LaunchId)
    | Persisting(job: LaunchId)
    | Publishing(job: LaunchId)
    | Confirming(job: LaunchId)
    | Ended(how: Ending)

  datatype Caller = Caller(preview: PreviewId, owner: string, stage: Stage)

  /** What a request sees when it loads: the fingerprint of the saved configuration (None when
      there is none any more), the one the request names (a review names none), and whether the
      preview is past its time. */
  datatype View = View(saved: Option<Fingerprint>, requested: Option<Fingerprint>, overdue: bool)

  datatype Creation = Created | Refused | Broke

  /** A failed dispatch may have delivered the message all the same. */
  datatype Dispatch = Sent | Lost | SentButRaised

  datatype Step =
    | Load(c: CallerId, preview: PreviewId, owner: string, view: View)
    | Claim(c: CallerId)
    | Reload(c: CallerId, view: View)
    | Create(c: CallerId, result: Creation)
    | RollBack(c: CallerId)
    | Persist(c: CallerId)
    | Publish(c: CallerId, dispatch: Dispatch)
    | Confirm(c: CallerId)
    | Crash(c: CallerId)
    | ReviewWrite(preview: PreviewId, review: Review)
    | Expire(preview: PreviewId)
    | Generate(preview: PreviewId, owner: string)

  /** `periods` counts how often a preview became launchable, `wins` how often a claim won. */
  datatype State = State(previews: map<PreviewId, Preview>, jobs: set<LaunchId>, published: multiset<LaunchId>,
                         callers: map<CallerId, Caller>, periods: multiset<PreviewId>, wins: multiset<PreviewId>)

  /** ---- the preview repository ---- */

  predicate Visible(previews: map<PreviewId, Preview>, id: PreviewId, owner: string) {
    id in previews && previews[id].owner == owner
  }

  /** claim_launch: compare and set from not_launched. */
  predicate Claimable(previews: map<PreviewId, Preview>, id: PreviewId, owner: string) {
    Visible(previews, id, owner) && previews[id].launch == NotLaunched
  }

  function AsClaimed(p: Preview, job: LaunchId): Preview {
    p.(launch := LaunchPending, bound := Some(job))
  }

  function AsRolledBack(p: Preview): Preview {
    p.(launch := NotLaunched, bound := None, internal := None)
  }

  function AsBound(p: Preview, launch: LaunchStatus, job: LaunchId): Preview {
    p.(launch := launch, bound := Some(job), internal := Some(job))
  }

  function FreshPreview(owner: string, id: PreviewId): Preview {
    Preview(owner, FingerprintOf(id), Pending, NotLaunched, None, None, false)
  }

  /** update_preview: nothing for an unknown preview or another owner. */
  function Patched(previews: map<PreviewId, Preview>, id: PreviewId, owner: string, patch: Preview -> Preview): map<PreviewId, Preview> {
    if Visible(previews, id, owner) then previews[id := patch(previews[id])] else previews
  }

  /** ---- the service, one repository call at a time ---- */

  /** _load_mutable_preview: why a request is turned away before it decides anything. */
  function Refusal(previews: map<PreviewId, Preview>, id: PreviewId, owner: string, view: View): Option<Ending> {
    if !Visible(previews, id, owner) then Some(NotFound)
    else if previews[id].deleted || view.overdue then Some(Expired)
    else if view.saved != Some(previews[id].fingerprint) || view.requested !in {None, Some(previews[id].fingerprint)} then Some(Stale)
    else None
  }

  /** The request sees the preview as it is saved: its own owner, neither deleted nor past its time, with the
      saved configuration of that fingerprint, which the request names unless it names none. */
  predicate UpToDate(previews: map<PreviewId, Preview>, id: PreviewId, owner: string, view: View, fingerprint: Fingerprint) {
    && id in previews && previews[id].owner == owner && !previews[id].deleted && !view.overdue
    && view.saved == Some(fingerprint) && (view.requested.Some? ==> view.requested.value == fingerprint)
  }

  /** Turned away exactly when not up to date; for what reason, decided in this order. */
  lemma RefusalMeaning(previews: map<PreviewId, Preview>, id: PreviewId, owner: string, view: View)
    ensures var r, stored := Refusal(previews, id, owner, view), id in previews && previews[id].owner == owner;
            && (r.None? <==> stored && UpToDate(previews, id, owner, view, previews[id].fingerprint))
            && (r == Some(NotFound) <==> !stored)
            && (r == Some(Expired) <==> stored && (previews[id].deleted || view.overdue))
            && (r == Some(Stale) <==> stored && !previews[id].deleted && !view.overdue
                                      && (view.saved != Some(previews[id].fingerprint)
                                          || (view.requested.Some? && view.requested.value != previews[id].fingerprint)))
  {
  }

  /** An overdue preview is marked deleted by whoever loads it. */
  function AfterLooking(previews: map<PreviewId, Preview>, id: PreviewId, owner: string, view: View): map<PreviewId, Preview> {
    if view.overdue then Patched(previews, id, owner, (p: Preview) => p.(deleted := true)) else previews
  }

  /** The id a launch will use: the bound one, or the one the saved configuration determines. */
  function Chosen(id: PreviewId, p: Preview, view: View): LaunchId
    requires view.saved.Some?
  {
    if p.bound.Some? then p.bound.value else LaunchId(id, view.saved.value)
  }

  function Answer(jobs: set<LaunchId>, job: LaunchId): Ending {
    if job in jobs then Answered(job) else NotFound
  }

  function StageAfterLoad(s: State, id: PreviewId, owner: string, view: View): Stage {
    var refusal := Refusal(s.previews, id, owner, view);
    if refusal.Some? then Ended(refusal.value)
    else
      var p := s.previews[id];
      var job := Chosen(id, p, view);
      if p.launch == Launched then Ended(Answer(s.jobs, job))
      else if p.review != Approved then Ended(ApprovalRequired)
      else if p.launch == NotLaunched then Claiming(job)
      else Creating(job, false)
  }

  /** The reload of a caller that lost the claim; the review is not looked at again. */
  function StageAfterReload(s: State, id: PreviewId, owner: string, view: View, job: LaunchId): Stage {
    var refusal := Refusal(s.previews, id, owner, view);
    if refusal.Some? then Ended(refusal.value)
    else if s.previews[id].launch == Launched then Ended(Answer(s.jobs, job))
    else Creating(job, false)
  }

  function Moved(s: State, c: CallerId, stage: Stage): State
    requires c in s.callers
  {
    s.(callers := s.callers[c := s.callers[c].(stage := stage)])
  }

  predicate At(s: State, c: CallerId) {
    c in s.callers && !s.callers[c].stage.Ended?
  }

  /** A period begins when a preview becomes launchable that was not so before. */
  function Opening(previews: map<PreviewId, Preview>, id: PreviewId): multiset<PreviewId> {
    if id in previews && previews[id].launch == NotLaunched then multiset{} else multiset{id}
  }

  /** One step of anybody. A step its caller is not ready for changes nothing. */
  function Apply(s: State, step: Step): State {
    match step
    case Load(c, id, owner, view) =>
      if c in s.callers then s
      else s.(callers := s.callers[c := Caller(id, owner, StageAfterLoad(s, id, owner, view))],
              previews := AfterLooking(s.previews, id, owner, view))
    case ReviewWrite(id, review) =>
      if id in s.previews then s.(previews := s.previews[id := s.previews[id].(review := review)]) else s
    case Expire(id) =>
      if id in s.previews then s.(previews := s.previews[id := s.previews[id].(deleted := true)]) else s
    case Generate(id, owner) =>
      s.(previews := s.previews[id := FreshPreview(owner, id)], periods := s.periods + Opening(s.previews, id))
    case _ =>
      if At(s, step.c) then ApplyOwn(s, step, s.callers[step.c]) else s
  }

  /** A step of a request that is under way. */
  function ApplyOwn(s: State, step: Step, me: Caller): State
    requires !step.Load? && !step.ReviewWrite? && !step.Expire? && !step.Generate?
    requires At(s, step.c) && me == s.callers[step.c]
  {
    var c, id, job := step.c, me.preview, me.stage.job;
    match step
    case Claim(_) =>
      if !me.stage.Claiming? then s
      else if Claimable(s.previews, id, me.owner)
      then Moved(s.(previews := s.previews[id := AsClaimed(s.previews[id], job)], wins := s.wins + multiset{id}),
                 c, Creating(job, true))
      else Moved(s, c, Reloading(job))
    case Reload(_, view) =>
      if !me.stage.Reloading? then s
      else Moved(s.(previews := AfterLooking(s.previews, id, me.owner, view)),
                 c, StageAfterReload(s, id, me.owner, view, job))
    case Create(_, result) =>
      if !me.stage.Creating? then s
      else if result.Created? then Moved(s.(jobs := s.jobs + {job}), c, Persisting(job))
      else if result.Refused? && me.stage.won then Moved(s, c, RollingBack(job))
      else Moved(s, c, Ended(CreateFailed))
    case RollBack(_) =>
      if !me.stage.RollingBack? then s
      else Moved(s.(previews := Patched(s.previews, id, me.owner, AsRolledBack),
                    periods := s.periods + if Visible(s.previews, id, me.owner) then Opening(s.previews, id) else multiset{}),
                 c, Ended(CreateFailed))
    case Persist(_) =>
      if !me.stage.Persisting? then s
      else Moved(s.(previews := Patched(s.previews, id, me.owner, (p: Preview) => AsBound(p, LaunchPending, job))),
                 c, if Visible(s.previews, id, me.owner) then Publishing(job) else Ended(LaunchFailed))
    case Publish(_, dispatch) =>
      if !me.stage.Publishing? then s
      else Moved(s.(published := if dispatch.Lost? then s.published else s.published + multiset{job}),
                 c, if dispatch.Sent? then Confirming(job) else Ended(DispatchFailed))
    case Confirm(_) =>
      if !me.stage.Confirming? then s
      else Moved(s.(previews := Patched(s.previews, id, me.owner, (p: Preview) => AsBound(p, Launched, job))),
                 c, Ended(if Visible(s.previews, id, me.owner) then Answer(s.jobs, job) else LaunchFailed))
    case Crash(_) =>
      Moved(s, c, Ended(Crashed))
  }

  function Replay(s: State, steps: seq<Step>): State
    decreases steps
  {
    if steps == [] then s else Replay(Apply(s, steps[0]), steps[1..])
  }

  const Empty := State(map[], {}, multiset{}, map[], multiset{}, multiset{})

  /** ---- what every run keeps ---- */

  /** The caller won the claim and has not created the job yet. */
  predicate Winner(s: State, c: CallerId) {
    c in s.callers && (s.callers[c].stage.RollingBack? || (s.callers[c].stage.Creating? && s.callers[c].stage.won))
  }

  predicate PreviewFirm(s: State, id: PreviewId)
    requires id in s.previews
  {
    var p, job := s.previews[id], JobOf(id);
    && p.fingerprint == FingerprintOf(id)
    && (p.bound == None || p.bound == Some(job))
    && (p.launch == NotLaunched <==> p.bound == None)
    && (p.internal == None || p.internal == p.bound)
    && (p.launch == Launched ==> job in s.jobs && s.published[job] >= 1 && p.internal == p.bound)
    && s.wins[id] + (if p.launch == NotLaunched then 1 else 0) <= s.periods[id]
  }

  predicate CallerFirm(s: State, c: CallerId)
    requires c in s.callers
  {
    var me := s.callers[c];
    me.stage.Ended? ||
    (&& me.preview in s.previews
     && me.stage.job == JobOf(me.preview)
     && (me.stage.Persisting? || me.stage.Publishing? || me.stage.Confirming? ==> me.stage.job in s.jobs)
     && (me.stage.Confirming? ==> s.published[me.stage.job] >= 1))
  }

  /** Every job is the one its preview determines, and nothing is published before it exists. */
  predicate OneJob(s: State) {
    && (forall job <- s.jobs :: job.preview in s.previews && job == JobOf(job.preview))
    && (forall job <- s.published :: job in s.jobs)
  }

  ghost predicate Firm(s: State) {
    && (forall id <- s.previews :: PreviewFirm(s, id))
    && (forall c <- s.callers :: CallerFirm(s, c))
    && OneJob(s)
    && (forall id <- s.periods :: id in s.previews)
    && (forall id <- s.wins :: id in s.previews)
  }

  /** ---- what regeneration can break ---- */

  ghost predicate OneWinner(s: State) {
    forall c, d :: Winner(s, c) && Winner(s, d) && s.callers[c].preview == s.callers[d].preview ==> c == d
  }

  predicate WinnerHolds(s: State, c: CallerId) {
    Winner(s, c) ==> s.callers[c].preview in s.previews && s.previews[s.callers[c].preview].launch != NotLaunched
  }

  /** A claim has one winner at a time, and the preview is not free while the winner is under way. */
  ghost predicate Exclusive(s: State) {
    OneWinner(s) && forall c <- s.callers :: WinnerHolds(s, c)
  }

  /** No caller but `c` has won the claim on the preview and is still before its job. */
  ghost predicate NoRival(s: State, id: PreviewId, c: CallerId) {
    forall d :: Winner(s, d) && s.callers[d].preview == id ==> d == c
  }

  ghost predicate NoWinner(s: State, id: PreviewId) {
    forall d :: Winner(s, d) ==> s.callers[d].preview != id
  }

  /** No preview is generated again while the winner of its claim is before its job. */
  ghost predicate Orderly(s: State, step: Step) {
    step.Generate? ==> NoWinner(s, step.preview)
  }

  ghost predicate OrderlyRun(s: State, steps: seq<Step>)
    decreases steps
  {
    steps == [] || (Orderly(s, steps[0]) && OrderlyRun(Apply(s, steps[0]), steps[1..]))
  }

  /** ---- steps of requests ---- */

  /** A step that touches one preview, one caller and one job. */
  ghost predicate Local(s: State, t: State, id: PreviewId, c: CallerId) {
    && (t.callers == s.callers || (c in t.callers && t.callers == s.callers[c := t.callers[c]]))
    && (id !in s.previews ==> t.previews == s.previews)
    && (id in s.previews ==> id in t.previews && t.previews == s.previews[id := t.previews[id]])
    && (t.jobs == s.jobs || (id in s.previews && t.jobs == s.jobs + {JobOf(id)}))
    && (t.published == s.published
        || (id in s.previews && JobOf(id) in t.jobs && t.published == s.published + multiset{JobOf(id)}))
    && (forall x :: x != id ==> t.wins[x] == s.wins[x] && t.periods[x] == s.periods[x])
    && (id !in s.previews ==> t.wins == s.wins && t.periods == s.periods)
  }

  /** What such a step owes: its own preview and its own caller. */
  ghost predicate Repaid(s: State, t: State, id: PreviewId, c: CallerId)
    requires Local(s, t, id, c)
  {
    && (id in t.previews ==> PreviewFirm(t, id))
    && (t.callers != s.callers ==> CallerFirm(t, c))
  }

  lemma LocalKeepsPreview(s: State, t: State, id: PreviewId, c: CallerId, x: PreviewId)
    requires Firm(s) && Local(s, t, id, c) && Repaid(s, t, id, c) && x in t.previews
    ensures PreviewFirm(t, x)
  {
    assert x == id || (x in s.previews && PreviewFirm(s, x));
  }

  lemma LocalKeepsCaller(s: State, t: State, id: PreviewId, c: CallerId, d: CallerId)
    requires Firm(s) && Local(s, t, id, c) && Repaid(s, t, id, c) && d in t.callers
    ensures CallerFirm(t, d)
  {
    hide Firm, PreviewFirm;
    if d != c || t.callers == s.callers {
      Facts(s, id, d);
      assert t.callers[d] == s.callers[d];
    }
  }

  lemma LocalKeepsOneJob(s: State, t: State, id: PreviewId, c: CallerId)
    requires OneJob(s) && Local(s, t, id, c)
    ensures OneJob(t)
  {
  }

  lemma LocalKeepsFirm(s: State, t: State, id: PreviewId, c: CallerId)
    requires Firm(s) && Local(s, t, id, c) && Repaid(s, t, id, c)
    ensures Firm(t)
  {
    hide PreviewFirm, CallerFirm, OneJob, Repaid;
    forall x <- t.previews ensures PreviewFirm(t, x) { LocalKeepsPreview(s, t, id, c, x); }
    forall d <- t.callers ensures CallerFirm(t, d) { LocalKeepsCaller(s, t, id, c, d); }
    LocalKeepsOneJob(s, t, id, c);
  }

  /** What it owes to the exclusiveness of claims. */
  ghost predicate Fair(s: State, t: State, id: PreviewId, c: CallerId)
    requires Local(s, t, id, c)
  {
    && (id in t.previews && t.previews[id].launch == NotLaunched ==> NoRival(s, id, c))
    && (t.callers == s.callers && id in s.previews ==> t.previews[id].launch == s.previews[id].launch)
    && (t.callers != s.callers ==> WinnerHolds(t, c) && (Winner(t, c) ==> t.callers[c].preview == id && NoRival(s, id, c)))
  }

  lemma LocalKeepsExclusive(s: State, t: State, id: PreviewId, c: CallerId)
    requires Exclusive(s) && Local(s, t, id, c) && Fair(s, t, id, c)
    ensures Exclusive(t)
  {
    assert forall d :: d != c ==> (Winner(t, d) <==> Winner(s, d));
    forall d <- t.callers ensures WinnerHolds(t, d) {
      if d != c || t.callers == s.callers { assert d in s.callers && WinnerHolds(s, d); }
    }
  }

  /** What firmness says about the caller and the preview of a step. */
  lemma Facts(s: State, id: PreviewId, c: CallerId)
    requires Firm(s)
    ensures id in s.previews ==> PreviewFirm(s, id)
    ensures c in s.callers ==> CallerFirm(s, c)
  {
  }

  lemma ExclusiveFacts(s: State, id: PreviewId, c: CallerId)
    requires Exclusive(s)
    ensures id in s.previews && s.previews[id].launch == NotLaunched ==> NoRival(s, id, c)
    ensures Winner(s, c) && s.callers[c].preview == id ==> NoRival(s, id, c)
    ensures c in s.callers ==> WinnerHolds(s, c)
  {
    forall d | Winner(s, d) && s.callers[d].preview == id
      ensures id in s.previews && s.previews[id].launch != NotLaunched
    {
      assert WinnerHolds(s, d);
    }
  }

  lemma LoadKeeps(s: State, step: Step)
    requires Firm(s) && step.Load? && step.c !in s.callers
    ensures Firm(Apply(s, step)) && (Exclusive(s) ==> Exclusive(Apply(s, step)))
  {
    hide Firm, Exclusive;
    var id, t := step.preview, Apply(s, step);
    Facts(s, id, step.c);
    if t != s {
      LocalKeepsFirm(s, t, id, step.c);
      if Exclusive(s) {
        ExclusiveFacts(s, id, step.c);
        LocalKeepsExclusive(s, t, id, step.c);
      }
    }
  }

  lemma ClaimKeeps(s: State, step: Step)
    requires Firm(s) && step.Claim? && At(s, step.c)
    ensures Firm(Apply(s, step)) && (Exclusive(s) ==> Exclusive(Apply(s, step)))
  {
    hide Firm, Exclusive;
    var id, t := s.callers[step.c].preview, Apply(s, step);
    Facts(s, id, step.c);
    if t != s {
      LocalKeepsFirm(s, t, id, step.c);
      if Exclusive(s) {
        ExclusiveFacts(s, id, step.c);
        LocalKeepsExclusive(s, t, id, step.c);
      }
    }
  }

  lemma RollBackKeeps(s: State, step: Step)
    requires Firm(s) && step.RollBack? && At(s, step.c)
    ensures Firm(Apply(s, step)) && (Exclusive(s) ==> Exclusive(Apply(s, step)))
  {
    hide Firm, Exclusive;
    var id, t := s.callers[step.c].preview, Apply(s, step);
    Facts(s, id, step.c);
    if t != s {
      LocalKeepsFirm(s, t, id, step.c);
      if Exclusive(s) {
        ExclusiveFacts(s, id, step.c);
        LocalKeepsExclusive(s, t, id, step.c);
      }
    }
  }

  lemma BindKeeps(s: State, step: Step)
    requires Firm(s) && (step.Persist? || step.Confirm?) && At(s, step.c)
    ensures Firm(Apply(s, step)) && (Exclusive(s) ==> Exclusive(Apply(s, step)))
  {
    hide Firm, Exclusive;
    var id, t := s.callers[step.c].preview, Apply(s, step);
    Facts(s, id, step.c);
    if t != s {
      LocalKeepsFirm(s, t, id, step.c);
      if Exclusive(s) {
        ExclusiveFacts(s, id, step.c);
        LocalKeepsExclusive(s, t, id, step.c);
      }
    }
  }

  lemma CreateKeeps(s: State, step: Step)
    requires Firm(s) && step.Create? && At(s, step.c)
    ensures Firm(Apply(s, step)) && (Exclusive(s) ==> Exclusive(Apply(s, step)))
  {
    hide Firm, Exclusive;
    var id, t := s.callers[step.c].preview, Apply(s, step);
    Facts(s, id, step.c);
    if t != s {
      LocalKeepsFirm(s, t, id, step.c);
      if Exclusive(s) {
        ExclusiveFacts(s, id, step.c);
        LocalKeepsExclusive(s, t, id, step.c);
      }
    }
  }

  lemma PublishKeeps(s: State, step: Step)
    requires Firm(s) && step.Publish? && At(s, step.c)
    ensures Firm(Apply(s, step)) && (Exclusive(s) ==> Exclusive(Apply(s, step)))
  {
    hide Firm, Exclusive;
    var id, t := s.callers[step.c].preview, Apply(s, step);
    Facts(s, id, step.c);
    if t != s {
      LocalKeepsFirm(s, t, id, step.c);
      if Exclusive(s) {
        ExclusiveFacts(s, id, step.c);
        LocalKeepsExclusive(s, t, id, step.c);
      }
    }
  }

  lemma LeaveKeeps(s: State, step: Step)
    requires Firm(s) && (step.Reload? || step.Crash?) && At(s, step.c)
    ensures Firm(Apply(s, step)) && (Exclusive(s) ==> Exclusive(Apply(s, step)))
  {
    hide Firm, Exclusive;
    var id, t := s.callers[step.c].preview, Apply(s, step);
    Facts(s, id, step.c);
    if t != s {
      LocalKeepsFirm(s, t, id, step.c);
      if Exclusive(s) {
        ExclusiveFacts(s, id, step.c);
        LocalKeepsExclusive(s, t, id, step.c);
      }
    }
  }

  lemma RecordKeeps(s: State, step: Step)
    requires Firm(s) && (step.ReviewWrite? || step.Expire?)
    ensures Firm(Apply(s, step)) && (Exclusive(s) ==> Exclusive(Apply(s, step)))
  {
    hide Firm, Exclusive;
    var t := Apply(s, step);
    Facts(s, step.preview, 0);
    LocalKeepsFirm(s, t, step.preview, 0);
    if Exclusive(s) {
      ExclusiveFacts(s, step.preview, 0);
      LocalKeepsExclusive(s, t, step.preview, 0);
    }
  }

  /** ---- generating a preview, for the first time or over an older record of the same id ---- */

  lemma GenerateKeepsFirm(s: State, step: Step)
    requires Firm(s) && step.Generate?
    ensures Firm(Apply(s, step))
  {
    hide PreviewFirm, CallerFirm, OneJob;
    var t := Apply(s, step);
    forall id <- t.previews ensures PreviewFirm(t, id) { GenerateKeepsPreview(s, step, id); }
    forall c <- t.callers ensures CallerFirm(t, c) { GenerateKeepsCaller(s, step, c); }
    assert OneJob(t) by { GenerateKeepsJobs(s, step); }
  }

  lemma GenerateKeepsPreview(s: State, step: Step, id: PreviewId)
    requires Firm(s) && step.Generate? && id in Apply(s, step).previews
    ensures PreviewFirm(Apply(s, step), id)
  {
    Facts(s, id, 0);
    NoWinsYet(s, id);
    hide Firm;
  }

  lemma NoWinsYet(s: State, id: PreviewId)
    requires Firm(s)
    ensures id !in s.previews ==> s.wins[id] == 0
  {
  }

  lemma GenerateKeepsCaller(s: State, step: Step, c: CallerId)
    requires Firm(s) && step.Generate? && c in s.callers
    ensures CallerFirm(Apply(s, step), c)
  {
    assert CallerFirm(s, c);
  }

  lemma GenerateKeepsJobs(s: State, step: Step)
    requires OneJob(s) && step.Generate?
    ensures OneJob(Apply(s, step))
  {
  }

  lemma GenerateKeepsExclusive(s: State, step: Step)
    requires Exclusive(s) && step.Generate?
    ensures Exclusive(Apply(s, step)) <==> NoWinner(s, step.preview)
  {
    var t := Apply(s, step);
    assert forall c :: Winner(t, c) <==> Winner(s, c);
    if NoWinner(s, step.preview) {
      forall c <- t.callers ensures WinnerHolds(t, c) { assert WinnerHolds(s, c); }
    } else {
      var d :| Winner(s, d) && s.callers[d].preview == step.preview;
      assert !WinnerHolds(t, d);
    }
  }

  /** ---- whole runs ---- */

  lemma StepKeeps(s: State, step: Step)
    requires Firm(s)
    ensures Firm(Apply(s, step))
    ensures Exclusive(s) && Orderly(s, step) ==> Exclusive(Apply(s, step))
  {
    hide Firm, Exclusive;
    match step
    case Load(c, _, _, _) => if c !in s.callers { LoadKeeps(s, step); }
    case ReviewWrite(_, _) => RecordKeeps(s, step);
    case Expire(_) => RecordKeeps(s, step);
    case Generate(_, _) =>
      GenerateKeepsFirm(s, step);
      if Exclusive(s) { GenerateKeepsExclusive(s, step); }
    case Claim(c) => if At(s, c) { ClaimKeeps(s, step); }
    case RollBack(c) => if At(s, c) { RollBackKeeps(s, step); }
    case Persist(c) => if At(s, c) { BindKeeps(s, step); }
    case Confirm(c) => if At(s, c) { BindKeeps(s, step); }
    case Create(c, _) => if At(s, c) { CreateKeeps(s, step); }
    case Publish(c, _) => if At(s, c) { PublishKeeps(s, step); }
    case _ => if At(s, step.c) { LeaveKeeps(s, step); }
  }

  lemma {:induction false} RunKeeps(s: State, steps: seq<Step>)
    requires Firm(s)
    ensures Firm(Replay(s, steps))
    ensures Exclusive(s) && OrderlyRun(s, steps) ==> Exclusive(Replay(s, steps))
    decreases steps
  {
    if steps != [] {
      StepKeeps(s, steps[0]);
      RunKeeps(Apply(s, steps[0]), steps[1..]);
    }
  }

  /** Every run, whatever is interleaved, refused, broken, lost, crashed or generated again: a record
      is bound to its own job or to none, and launched only with that job published. */
  lemma EveryRunIsFirm(steps: seq<Step>)
    ensures Firm(Replay(Empty, steps))
  {
    RunKeeps(Empty, steps);
  }

  /** And claims are exclusive, as long as no preview is generated again under a winner's hands. */
  lemma EveryOrderlyRunIsExclusive(steps: seq<Step>)
    requires OrderlyRun(Empty, steps)
    ensures Firm(Replay(Empty, steps)) && Exclusive(Replay(Empty, steps))
  {
    RunKeeps(Empty, steps);
  }

  /** ---- what a request does with what it loads ---- */

  /** A request goes on only with the preview's own fingerprint, or without naming one, and only for an
      approved preview: to the claim, or straight to the job when the launch is pending already. */
  lemma LoadMeaning(s: State, c: CallerId, id: PreviewId, owner: string, view: View)
    requires Firm(s) && c !in s.callers
    ensures var stage := Apply(s, Load(c, id, owner, view)).callers[c].stage;
            if !UpToDate(s.previews, id, owner, view, FingerprintOf(id)) then stage in {Ended(NotFound), Ended(Expired), Ended(Stale)}
            else if s.previews[id].launch == Launched then stage == Ended(Answered(JobOf(id)))
            else if s.previews[id].review != Approved then stage == Ended(ApprovalRequired)
            else stage == if s.previews[id].launch == NotLaunched then Claiming(JobOf(id)) else Creating(JobOf(id), false)
  {
    hide Firm;
    Facts(s, id, c);
    RefusalMeaning(s.previews, id, owner, view);
  }

  /** The reload after a lost claim looks at the same things, but not at the review again. */
  lemma ReloadMeaning(s: State, c: CallerId, view: View)
    requires Firm(s) && At(s, c) && s.callers[c].stage.Reloading?
    ensures var id, owner, stage := s.callers[c].preview, s.callers[c].owner, Apply(s, Reload(c, view)).callers[c].stage;
            if !UpToDate(s.previews, id, owner, view, FingerprintOf(id)) then stage in {Ended(NotFound), Ended(Expired), Ended(Stale)}
            else stage == if s.previews[id].launch == Launched then Ended(Answered(JobOf(id))) else Creating(JobOf(id), false)
  {
    hide Firm;
    Facts(s, s.callers[c].preview, c);
    RefusalMeaning(s.previews, s.callers[c].preview, s.callers[c].owner, view);
  }

  /** A preview just generated is never launched without a review. */
  lemma FreshNeedsApproval(s: State, c: CallerId, id: PreviewId, owner: string, view: View)
    requires c !in s.callers
    ensures var t := Apply(Apply(s, Generate(id, owner)), Load(c, id, owner, view));
            t.callers[c].stage in {Ended(Expired), Ended(Stale), Ended(ApprovalRequired)}
  {
  }

  /** ---- what a finished request can still do ---- */

  predicate StepOf(step: Step, c: CallerId) {
    !step.ReviewWrite? && !step.Expire? && !step.Generate? && step.c == c
  }

  function Without(steps: seq<Step>, c: CallerId): seq<Step> {
    if steps == [] then [] else (if StepOf(steps[0], c) then [] else [steps[0]]) + Without(steps[1..], c)
  }

  lemma EndedStaysEnded(s: State, step: Step, c: CallerId)
    requires c in s.callers && s.callers[c].stage.Ended?
    ensures StepOf(step, c) ==> Apply(s, step) == s
    ensures c in Apply(s, step).callers && Apply(s, step).callers[c] == s.callers[c]
  {
  }

  /** Once a request has ended, a run goes as if it took no further step. */
  lemma {:induction false} EndedIsInert(s: State, steps: seq<Step>, c: CallerId)
    requires c in s.callers && s.callers[c].stage.Ended?
    ensures Replay(s, steps) == Replay(s, Without(steps, c))
    decreases steps
  {
    if steps != [] {
      EndedStaysEnded(s, steps[0], c);
      EndedIsInert(Apply(s, steps[0]), steps[1..], c);
      if StepOf(steps[0], c) {
        assert Without(steps, c) == Without(steps[1..], c);
      } else {
        assert Without(steps, c) == [steps[0]] + Without(steps[1..], c);
      }
    }
  }

  /** A launch that loads a launched preview answers with its job and never creates,
      publishes or rebinds anything, however the run goes on. */
  lemma LaunchedLoadIsInert(s: State, step: Step, later: seq<Step>)
    requires Firm(s) && step.Load? && step.c !in s.callers
    requires step.preview in s.previews && s.previews[step.preview].launch == Launched
    ensures var t := Apply(s, step);
            && Replay(t, later) == Replay(t, Without(later, step.c))
            && t.jobs == s.jobs && t.published == s.published && t.wins == s.wins && t.periods == s.periods
            && t.callers[step.c].stage.Ended?
            && (t.callers[step.c].stage.how.Answered? ==>
                  t == s.(callers := s.callers[step.c := t.callers[step.c]])
                  && s.previews[step.preview].bound == Some(t.callers[step.c].stage.how.job))
  {
    assert PreviewFirm(s, step.preview);
    EndedIsInert(Apply(s, step), later, step.c);
  }

  /** ---- launched is not final ---- */

  /** The steps that take a launched preview back: the rollback of a claim winner whose job was
      refused, and the binding write of a request still on its way. */
  predicate Unlaunches(s: State, step: Step, id: PreviewId) {
    || (step.Generate? && step.preview == id)
    || (&& (step.RollBack? || step.Persist?) && At(s, step.c)
        && s.callers[step.c].preview == id && Visible(s.previews, id, s.callers[step.c].owner)
        && (if step.RollBack? then s.callers[step.c].stage.RollingBack? else s.callers[step.c].stage.Persisting?))
  }

  lemma LaunchedUntil(s: State, step: Step, id: PreviewId)
    requires id in s.previews && s.previews[id].launch == Launched
    ensures id in Apply(s, step).previews
    ensures Apply(s, step).previews[id].launch != Launched <==> Unlaunches(s, step, id)
  {
    hide Visible;
    match step
    case RollBack(_) => LaunchedUntilWritten(s, step, id);
    case Persist(_) => LaunchedUntilWritten(s, step, id);
    case Confirm(_) => LaunchedUntilWritten(s, step, id);
    case Claim(_) => LaunchedUntilWritten(s, step, id);
    case Reload(_, _) => LaunchedUntilWritten(s, step, id);
    case Load(_, _, _, _) => LaunchedUntilWritten(s, step, id);
    case _ =>
  }

  lemma LaunchedUntilWritten(s: State, step: Step, id: PreviewId)
    requires id in s.previews && s.previews[id].launch == Launched
    requires step.RollBack? || step.Persist? || step.Confirm? || step.Claim? || step.Reload? || step.Load?
    ensures id in Apply(s, step).previews
    ensures Apply(s, step).previews[id].launch != Launched <==> Unlaunches(s, step, id)
  {
  }

  /** A request that can still take the launch back: its write of a binding, or its rollback, is to come. */
  predicate Risks(s: State, id: PreviewId, c: CallerId) {
    At(s, c) && s.callers[c].preview == id && Visible(s.previews, id, s.callers[c].owner)
    && (s.callers[c].stage.Creating? || s.callers[c].stage.RollingBack? || s.callers[c].stage.Persisting?)
  }

  predicate LaunchedAt(s: State, id: PreviewId) {
    id in s.previews && s.previews[id].launch == Launched
  }

  /** No step generates the preview again. */
  predicate Spares(steps: seq<Step>, id: PreviewId) {
    forall step <- steps :: step.Generate? ==> step.preview != id
  }

  ghost predicate Safe(s: State, id: PreviewId) {
    LaunchedAt(s, id) && forall c :: !Risks(s, id, c)
  }

  /** A request gets to the risky stages only from a preview that is not launched. */
  lemma NoNewRisk(s: State, step: Step, id: PreviewId, c: CallerId)
    requires LaunchedAt(s, id) && (step.Generate? ==> step.preview != id) && Risks(Apply(s, step), id, c)
    ensures Risks(s, id, c)
  {
    hide Apply, Risks, LaunchedAt;
    match step
    case Load(_, _, _, _) => NoRiskFromLooking(s, step, id, c);
    case Reload(_, _) => NoRiskFromLooking(s, step, id, c);
    case Claim(_) => NoRiskFromClaim(s, step, id, c);
    case RollBack(_) => NoRiskFromClaim(s, step, id, c);
    case Persist(_) => NoRiskFromBinding(s, step, id, c);
    case Confirm(_) => NoRiskFromBinding(s, step, id, c);
    case Create(_, _) => NoRiskFromWork(s, step, id, c);
    case Publish(_, _) => NoRiskFromWork(s, step, id, c);
    case Crash(_) => NoRiskFromWork(s, step, id, c);
    case _ => NoRiskFromOutside(s, step, id, c);
  }

  lemma NoRiskFromLooking(s: State, step: Step, id: PreviewId, c: CallerId)
    requires LaunchedAt(s, id) && (step.Load? || step.Reload?) && Risks(Apply(s, step), id, c)
    ensures Risks(s, id, c)
  {
  }

  lemma NoRiskFromClaim(s: State, step: Step, id: PreviewId, c: CallerId)
    requires LaunchedAt(s, id) && (step.Claim? || step.RollBack?) && Risks(Apply(s, step), id, c)
    ensures Risks(s, id, c)
  {
  }

  lemma NoRiskFromBinding(s: State, step: Step, id: PreviewId, c: CallerId)
    requires LaunchedAt(s, id) && (step.Persist? || step.Confirm?) && Risks(Apply(s, step), id, c)
    ensures Risks(s, id, c)
  {
  }

  lemma NoRiskFromWork(s: State, step: Step, id: PreviewId, c: CallerId)
    requires LaunchedAt(s, id) && (step.Create? || step.Publish? || step.Crash?) && Risks(Apply(s, step), id, c)
    ensures Risks(s, id, c)
  {
  }

  lemma NoRiskFromOutside(s: State, step: Step, id: PreviewId, c: CallerId)
    requires LaunchedAt(s, id) && (step.ReviewWrite? || step.Expire? || (step.Generate? && step.preview != id)) && Risks(Apply(s, step), id, c)
    ensures Risks(s, id, c)
  {
  }

  lemma SafeStep(s: State, step: Step, id: PreviewId)
    requires Safe(s, id) && (step.Generate? ==> step.preview != id)
    ensures Safe(Apply(s, step), id)
  {
    hide Apply, Risks;
    LaunchedUntil(s, step, id);
    forall c ensures !Risks(Apply(s, step), id, c) {
      if Risks(Apply(s, step), id, c) { NoNewRisk(s, step, id, c); }
    }
    if Unlaunches(s, step, id) { UnlaunchingRisks(s, step, id); }
  }

  lemma UnlaunchingRisks(s: State, step: Step, id: PreviewId)
    requires Unlaunches(s, step, id) && (step.Generate? ==> step.preview != id)
    ensures (step.RollBack? || step.Persist?) && Risks(s, id, step.c)
  {
  }

  lemma {:induction false} SafeRun(s: State, steps: seq<Step>, id: PreviewId)
    requires Safe(s, id) && Spares(steps, id)
    ensures LaunchedAt(Replay(s, steps), id)
    decreases steps
  {
    if steps != [] {
      assert steps[0] in steps && forall step <- steps[1..] :: step in steps;
      SafeStep(s, steps[0], id);
      SafeRun(Apply(s, steps[0]), steps[1..], id);
    }
  }

  /** How a request that risks the launch takes it back. */
  function TakeBack(stage: Stage, c: CallerId): seq<Step> {
    if stage.Creating? then [Create(c, Created)] + ([Persist(c)] + [])
    else if stage.RollingBack? then [RollBack(c)] + []
    else [Persist(c)] + []
  }

  lemma TakenBack(s: State, id: PreviewId, c: CallerId)
    requires LaunchedAt(s, id) && Risks(s, id, c)
    ensures Spares(TakeBack(s.callers[c].stage, c), id)
    ensures !LaunchedAt(Replay(s, TakeBack(s.callers[c].stage, c)), id)
  {
    hide Replay;
    var stage := s.callers[c].stage;
    if stage.Creating? {
      var t := Apply(s, Create(c, Created));
      ReplayCons(s, Create(c, Created), [Persist(c)] + []);
      ReplayCons(t, Persist(c), []);
      ReplayNothing(Apply(t, Persist(c)));
    } else if stage.RollingBack? {
      ReplayCons(s, RollBack(c), []);
      ReplayNothing(Apply(s, RollBack(c)));
    } else {
      ReplayCons(s, Persist(c), []);
      ReplayNothing(Apply(s, Persist(c)));
    }
  }

  lemma ReplayNothing(s: State)
    ensures Replay(s, []) == s
  {
  }

  /** A launched preview stays launched in every continuation that does not generate it again exactly
      when no request with its owner is creating its job, rolling back or about to bind it. */
  lemma LaunchedForever(s: State, id: PreviewId)
    requires LaunchedAt(s, id)
    ensures (forall c :: !Risks(s, id, c)) <==> forall steps :: Spares(steps, id) ==> LaunchedAt(Replay(s, steps), id)
  {
    if forall c :: !Risks(s, id, c) {
      forall steps | Spares(steps, id) ensures LaunchedAt(Replay(s, steps), id) { SafeRun(s, steps, id); }
    } else {
      var c :| Risks(s, id, c);
      TakenBack(s, id, c);
    }
  }

  lemma ReplayCons(s: State, step: Step, rest: seq<Step>)
    ensures Replay(s, [step] + rest) == Replay(Apply(s, step), rest)
    ensures OrderlyRun(s, [step] + rest) <==> Orderly(s, step) && OrderlyRun(Apply(s, step), rest)
  {
    assert ([step] + rest)[1..] == rest;
  }

  function Four(a: Step, b: Step, c: Step, d: Step): seq<Step> {
    [a] + ([b] + ([c] + ([d] + [])))
  }

  lemma ReplayFour(s: State, a: Step, b: Step, c: Step, d: Step)
    ensures Replay(s, Four(a, b, c, d)) == Apply(Apply(Apply(Apply(s, a), b), c), d)
  {
    ReplayCons(s, a, [b] + ([c] + ([d] + [])));
    ReplayCons(Apply(s, a), b, [c] + ([d] + []));
    ReplayCons(Apply(Apply(s, a), b), c, [d] + []);
    ReplayCons(Apply(Apply(Apply(s, a), b), c), d, []);
  }

  /** What a launch without trouble leaves of preview `id` and of the request. */
  function Finished(s: State, c: CallerId): State
    requires At(s, c) && s.callers[c].preview in s.previews
  {
    var me := s.callers[c];
    var id, job := me.preview, me.stage.job;
    s.(previews := s.previews[id := s.previews[id].(launch := Launched, bound := Some(job), internal := Some(job))], jobs := s.jobs + {job},
       published := s.published + multiset{job}, callers := s.callers[c := me.(stage := Ended(Answered(job)))])
  }

  /** A request that has come to creating the job, first or on a retry, completes the launch. */
  lemma FinishRun(s: State, c: CallerId)
    requires At(s, c) && s.callers[c].stage.Creating? && Visible(s.previews, s.callers[c].preview, s.callers[c].owner)
    ensures Replay(s, Four(Create(c, Created), Persist(c), Publish(c, Sent), Confirm(c))) == Finished(s, c)
  {
    hide Replay, Four, Firm;
    var me := s.callers[c];
    var id, job := me.preview, me.stage.job;
    var p := s.previews[id];
    var s1 := s.(jobs := s.jobs + {job}, callers := s.callers[c := me.(stage := Persisting(job))]);
    var s2 := s1.(previews := s.previews[id := AsBound(p, LaunchPending, job)], callers := s.callers[c := me.(stage := Publishing(job))]);
    var s3 := s2.(published := s.published + multiset{job}, callers := s.callers[c := me.(stage := Confirming(job))]);
    assert Apply(s, Create(c, Created)) == s1;
    assert Apply(s1, Persist(c)) == s2 by { assert s1.callers[c := me.(stage := Publishing(job))] == s2.callers; }
    assert Apply(s2, Publish(c, Sent)) == s3 by { assert s2.callers[c := me.(stage := Confirming(job))] == s3.callers; }
    assert Apply(s3, Confirm(c)) == Finished(s, c) by {
      assert s3.previews[id := AsBound(s3.previews[id], Launched, job)] == Finished(s, c).previews;
      assert s3.callers[c := me.(stage := Ended(Answered(job)))] == Finished(s, c).callers;
    }
    ReplayFour(s, Create(c, Created), Persist(c), Publish(c, Sent), Confirm(c));
  }

  /** The winner of the claim whose job is refused undoes the launch fields, whatever they are by then. */
  lemma UndoRun(s: State, c: CallerId)
    requires Winner(s, c) && s.callers[c].stage.Creating? && Visible(s.previews, s.callers[c].preview, s.callers[c].owner)
    ensures var id := s.callers[c].preview;
            Apply(Apply(s, Create(c, Refused)), RollBack(c))
            == s.(previews := s.previews[id := s.previews[id].(launch := NotLaunched, bound := None, internal := None)], periods := s.periods + Opening(s.previews, id),
                  callers := s.callers[c := s.callers[c].(stage := Ended(CreateFailed))])
  {
    var me := s.callers[c];
    var s1 := s.(callers := s.callers[c := me.(stage := RollingBack(me.stage.job))]);
    assert Apply(s, Create(c, Refused)) == s1;
    assert s1.callers[c := me.(stage := Ended(CreateFailed))] == s.callers[c := me.(stage := Ended(CreateFailed))];
  }

  /** Two requests on one preview: `winner` claimed it, `other` found the launch pending. When `other`
      launches and the job of `winner` is refused, the launched and published preview is not launched again. */
  lemma LaunchedCanBeLost(s: State, winner: CallerId, other: CallerId)
    requires Winner(s, winner) && s.callers[winner].stage.Creating?
    requires winner != other && other in s.callers && s.callers[other].stage.Creating?
    requires s.callers[winner].preview == s.callers[other].preview
    requires Visible(s.previews, s.callers[winner].preview, s.callers[winner].owner)
    ensures var id, launched := s.callers[winner].preview, Finished(s, other);
            var lost := Apply(Apply(launched, Create(winner, Refused)), RollBack(winner));
            && launched.previews[id].launch == Launched && launched.published[s.callers[other].stage.job] >= 1
            && id in lost.previews && lost.previews[id].launch == NotLaunched && lost.previews[id].bound == None
            && lost.jobs == launched.jobs && lost.published == launched.published
  {
    hide Apply;
    UndoRun(Finished(s, other), winner);
  }

  /** Such a pair of requests does come about. */
  lemma TwoUnderWay(id: PreviewId, view: View)
    requires view == View(Some(FingerprintOf(id)), Some(FingerprintOf(id)), false)
    ensures var run := [Generate(id, "owner")]
                       + Four(ReviewWrite(id, Approved), Load(1, id, "owner", view), Claim(1), Load(2, id, "owner", view));
            && OrderlyRun(Empty, run)
            && Replay(Empty, run).callers
               == map[1 := Caller(id, "owner", Creating(JobOf(id), true)), 2 := Caller(id, "owner", Creating(JobOf(id), false))]
            && Visible(Replay(Empty, run).previews, id, "owner")
  {
    hide Apply, FreshPreview, Visible;
    var s1 := Apply(Empty, Generate(id, "owner"));
    ApprovedAndClaimed(id, view);
    SecondLoad(id, view);
    ReplayFour(s1, ReviewWrite(id, Approved), Load(1, id, "owner", view), Claim(1), Load(2, id, "owner", view));
    ReplayCons(Empty, Generate(id, "owner"),
               Four(ReviewWrite(id, Approved), Load(1, id, "owner", view), Claim(1), Load(2, id, "owner", view)));
    OrderlyFour(s1, ReviewWrite(id, Approved), Load(1, id, "owner", view), Claim(1), Load(2, id, "owner", view));
  }

  /** The preview is approved and request 1 has won its claim. */
  function ClaimedByOne(id: PreviewId): State {
    State(map[id := AsClaimed(FreshPreview("owner", id).(review := Approved), JobOf(id))], {}, multiset{},
          map[1 := Caller(id, "owner", Creating(JobOf(id), true))], multiset{id}, multiset{id})
  }

  lemma ApprovedAndClaimed(id: PreviewId, view: View)
    requires view == View(Some(FingerprintOf(id)), Some(FingerprintOf(id)), false)
    ensures Apply(Apply(Apply(Apply(Empty, Generate(id, "owner")), ReviewWrite(id, Approved)), Load(1, id, "owner", view)), Claim(1))
         == ClaimedByOne(id)
  {
    var p := FreshPreview("owner", id).(review := Approved);
    var s1 := Apply(Empty, Generate(id, "owner"));
    var s2 := State(map[id := p], {}, multiset{}, map[], multiset{id}, multiset{});
    var s3 := s2.(callers := map[1 := Caller(id, "owner", Claiming(JobOf(id)))]);
    assert Apply(s1, ReviewWrite(id, Approved)) == s2;
    assert Apply(s2, Load(1, id, "owner", view)) == s3;
    assert Apply(s3, Claim(1)) == ClaimedByOne(id);
  }

  lemma SecondLoad(id: PreviewId, view: View)
    requires view == View(Some(FingerprintOf(id)), Some(FingerprintOf(id)), false)
    ensures var s := Apply(ClaimedByOne(id), Load(2, id, "owner", view));
            && s.callers == map[1 := Caller(id, "owner", Creating(JobOf(id), true)), 2 := Caller(id, "owner", Creating(JobOf(id), false))]
            && Visible(s.previews, id, "owner")
  {
  }

  lemma OrderlyFour(s: State, a: Step, b: Step, c: Step, d: Step)
    requires !a.Generate? && !b.Generate? && !c.Generate? && !d.Generate?
    ensures OrderlyRun(s, Four(a, b, c, d))
  {
    ReplayCons(s, a, [b] + ([c] + ([d] + [])));
    ReplayCons(Apply(s, a), b, [c] + ([d] + []));
    ReplayCons(Apply(Apply(s, a), b), c, [d] + []);
    ReplayCons(Apply(Apply(Apply(s, a), b), c), d, []);
  }

  /** ---- a preview generated again under a winner's hands ---- */

  ghost predicate OneWinnerOf(s: State, id: PreviewId) {
    forall c, d :: Winner(s, c) && Winner(s, d) && s.callers[c].preview == id && s.callers[d].preview == id ==> c == d
  }

  /** A new request on a freshly generated preview: it is approved, loaded and claimed. */
  function Newcomer(id: PreviewId, owner: string, c: CallerId): seq<Step> {
    var view := View(Some(FingerprintOf(id)), Some(FingerprintOf(id)), false);
    [ReviewWrite(id, Approved)] + ([Load(c, id, owner, view)] + ([Claim(c)] + []))
  }

  lemma NewcomerWins(s: State, id: PreviewId, owner: string, c: CallerId)
    requires c !in s.callers
    ensures var t := Apply(s, Generate(id, owner));
            var u := Replay(t, Newcomer(id, owner, c));
            && OrderlyRun(t, Newcomer(id, owner, c))
            && u.callers == s.callers[c := Caller(id, owner, Creating(JobOf(id), true))]
  {
    var view := View(Some(FingerprintOf(id)), Some(FingerprintOf(id)), false);
    var t := Apply(s, Generate(id, owner));
    var approve, load := ReviewWrite(id, Approved), Load(c, id, owner, view);
    var t1 := Apply(t, approve);
    var t2 := Apply(t1, load);
    assert t1.previews[id] == FreshPreview(owner, id).(review := Approved) && t1.callers == s.callers;
    assert t2.callers == s.callers[c := Caller(id, owner, Claiming(JobOf(id)))] && t2.previews == t1.previews;
    ReplayCons(t, approve, [load] + ([Claim(c)] + []));
    ReplayCons(t1, load, [Claim(c)] + []);
    ReplayCons(t2, Claim(c), []);
  }

  /** Generating a preview again keeps its claims exclusive in every orderly continuation exactly
      when no winner of an earlier claim is still before its job. */
  lemma GenerateKeepsOneWinner(s: State, id: PreviewId, owner: string)
    requires Firm(s) && Exclusive(s)
    ensures NoWinner(s, id)
       <==> forall steps :: OrderlyRun(Apply(s, Generate(id, owner)), steps)
              ==> OneWinnerOf(Replay(Apply(s, Generate(id, owner)), steps), id)
  {
    var t := Apply(s, Generate(id, owner));
    GenerateKeepsFirm(s, Generate(id, owner));
    GenerateKeepsExclusive(s, Generate(id, owner));
    if NoWinner(s, id) {
      forall steps | OrderlyRun(t, steps) ensures OneWinnerOf(Replay(t, steps), id) { RunKeeps(t, steps); }
    } else {
      var d :| Winner(s, d) && s.callers[d].preview == id;
      var c := Above(s.callers.Keys);
      NewcomerWins(s, id, owner, c);
      var u := Replay(t, Newcomer(id, owner, c));
      assert Winner(u, c) && Winner(u, d) && c != d;
    }
  }

  /** Two winners at once: when the job of one is refused, its rollback takes the claim of the other,
      who is still under way, and the preview can be claimed a third time. */
  lemma OldWinnerUndoesNewClaim(s: State, first: CallerId, second: CallerId)
    requires first != second && Winner(s, first) && s.callers[first].stage.Creating? && Winner(s, second)
    requires s.callers[first].preview == s.callers[second].preview
    requires Visible(s.previews, s.callers[first].preview, s.callers[first].owner)
    ensures var id, t := s.callers[first].preview, Apply(Apply(s, Create(first, Refused)), RollBack(first));
            && Winner(t, second) && t.callers[second] == s.callers[second]
            && Claimable(t.previews, id, s.callers[first].owner) && t.previews[id].bound == None
  {
    hide Apply;
    UndoRun(s, first);
  }

  /** A request id above all those in use. */
  lemma {:induction false} Above(callers: set<CallerId>) returns (c: CallerId)
    ensures forall d <- callers :: d < c
  {
    c := 0;
    if callers != {} {
      var x :| x in callers;
      var rest := Above(callers - {x});
      c := if x < rest then rest else x + 1;
      forall d <- callers ensures d < c { assert d == x || d in callers - {x}; }
    }
  }
}
