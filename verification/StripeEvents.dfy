/** Claiming Stripe webhook events: the steps that duplicate deliveries interleave. */
module StripeEvents {
  import opened Outcomes

  type DeliveryId = nat

  datatype Kind = Subscription | Invoice | Quote | Unhandled

  /** An event id and the kind its type prefix gives: duplicates agree on both. */
  datatype EventId = EventId(name: string, kind: Kind)

  datatype EventStatus = Claimed | Failed | Processed

  datatype Answer = Duplicate | Handled | Refused | Crashed

  /** Where one delivery of an event stands. From `Holding` to `Unwinding` it holds the event. */
  datatype Stage =
    | Arrived
    | Holding
    | AccountWritten
    | Logged
    | Unwinding
    | Ended(answer: Answer)

  datatype Delivery = Delivery(event: EventId, stage: Stage)

  datatype Step =
    | Arrive(d: DeliveryId, event: EventId)
    | Claim(d: DeliveryId)
    | WriteAccount(d: DeliveryId)
    | Append(d: DeliveryId)
    | Raise(d: DeliveryId)
    | MarkProcessed(d: DeliveryId)
    | MarkFailed(d: DeliveryId)
    | Crash(d: DeliveryId)

  datatype State = State(events: map<EventId, EventStatus>, audit: multiset<EventId>, deliveries: map<DeliveryId, Delivery>)

  const Empty := State(map[], multiset{}, map[])

  /** claim_event: unseen events and failed ones only. */
  predicate Claimable(events: map<EventId, EventStatus>, e: EventId) {
    e !in events || events[e] == Failed
  }

  predicate Holds(stage: Stage) {
    stage.Holding? || stage.AccountWritten? || stage.Logged? || stage.Unwinding?
  }

  function Moved(s: State, d: DeliveryId, stage: Stage): State
    requires d in s.deliveries
  {
    s.(deliveries := s.deliveries[d := s.deliveries[d].(stage := stage)])
  }

  /** One step of anybody. A step its delivery is not ready for changes nothing. */
  function Apply(s: State, step: Step): State {
    if step.Arrive? then
      if step.d in s.deliveries then s else s.(deliveries := s.deliveries[step.d := Delivery(step.event, Arrived)])
    else if step.d in s.deliveries && !s.deliveries[step.d].stage.Ended?
    then ApplyOwn(s, step, s.deliveries[step.d])
    else s
  }

  /** The audit entry is the last act of a handler; the steps around it can raise. */
  function ApplyOwn(s: State, step: Step, me: Delivery): State
    requires !step.Arrive? && step.d in s.deliveries
  {
    var d, e := step.d, me.event;
    match step
    case Claim(_) =>
      if !me.stage.Arrived? then s
      else if Claimable(s.events, e) then Moved(s.(events := s.events[e := Claimed]), d, Holding)
      else Moved(s, d, Ended(Duplicate))
    case WriteAccount(_) =>
      if !me.stage.Holding? then s
      else Moved(s, d, if e.kind.Unhandled? then Logged else AccountWritten)
    case Append(_) =>
      if !me.stage.AccountWritten? then s
      else Moved(s.(audit := s.audit + multiset{e}), d, Logged)
    case Raise(_) =>
      if me.stage.Holding? || me.stage.AccountWritten? then Moved(s, d, Unwinding) else s
    case MarkProcessed(_) =>
      if !me.stage.Logged? then s else Moved(s.(events := s.events[e := Processed]), d, Ended(Handled))
    case MarkFailed(_) =>
      if !me.stage.Unwinding? then s else Moved(s.(events := s.events[e := Failed]), d, Ended(Refused))
    case Crash(_) =>
      Moved(s, d, Ended(Crashed))
  }

  function Replay(s: State, steps: seq<Step>): State
    decreases steps
  {
    if steps == [] then s else Replay(Apply(s, steps[0]), steps[1..])
  }

  /** ---- the invariant ---- */

  predicate Holder(s: State, d: DeliveryId, e: EventId) {
    d in s.deliveries && s.deliveries[d].event == e && Holds(s.deliveries[d].stage)
  }

  /** How many audit entries a finished handler owes. */
  function Entries(e: EventId): nat {
    if e.kind.Unhandled? then 0 else 1
  }

  predicate EventSound(s: State, e: EventId) {
    && s.audit[e] <= Entries(e)
    && (Claimable(s.events, e) ==> s.audit[e] == 0)
    && (e in s.events && s.events[e] == Processed ==> s.audit[e] == Entries(e))
  }

  predicate DeliverySound(s: State, d: DeliveryId)
    requires d in s.deliveries
  {
    var e, stage := s.deliveries[d].event, s.deliveries[d].stage;
    && (Holds(stage) ==> e in s.events && s.events[e] == Claimed && s.audit[e] == if stage.Logged? then Entries(e) else 0)
    && (stage.AccountWritten? ==> !e.kind.Unhandled?)
  }

  ghost predicate OneHolder(s: State) {
    forall c, d, e :: Holder(s, c, e) && Holder(s, d, e) ==> c == d
  }

  ghost predicate Sound(s: State) {
    && (forall e :: EventSound(s, e))
    && (forall d <- s.deliveries :: DeliverySound(s, d))
    && OneHolder(s)
  }

  /** What soundness says about the acting delivery and any other. */
  lemma Facts(s: State, actor: DeliveryId, d: DeliveryId)
    requires Sound(s)
    ensures actor in s.deliveries ==> DeliverySound(s, actor) && EventSound(s, s.deliveries[actor].event)
    ensures d in s.deliveries ==> DeliverySound(s, d)
    ensures forall e :: Holder(s, actor, e) && Holder(s, d, e) ==> d == actor
  {
  }

  lemma StepKeepsEvent(s: State, step: Step, e: EventId)
    requires Sound(s)
    ensures EventSound(Apply(s, step), e)
  {
    Facts(s, step.d, step.d);
    assert EventSound(s, e);
    hide Sound;
  }

  lemma StepKeepsDelivery(s: State, step: Step, d: DeliveryId)
    requires Sound(s) && d in Apply(s, step).deliveries
    ensures DeliverySound(Apply(s, step), d)
  {
    hide Sound;
    Facts(s, step.d, d);
    if d != step.d && step.d in s.deliveries {
      var e := s.deliveries[step.d].event;
      assert !(Holder(s, step.d, e) && Holder(s, d, e));
    }
  }

  lemma StepKeepsHolder(s: State, step: Step, d: DeliveryId, e: EventId)
    requires Sound(s)
    ensures Holder(Apply(s, step), step.d, e) && Holder(Apply(s, step), d, e) ==> d == step.d
  {
    hide Sound;
    Facts(s, step.d, d);
    OthersHold(s, step, d, e);
    assert Holder(Apply(s, step), step.d, e) ==> Holder(s, step.d, e) || (step.Claim? && Claimable(s.events, e));
  }

  lemma OthersHold(s: State, step: Step, d: DeliveryId, e: EventId)
    ensures d != step.d ==> (Holder(Apply(s, step), d, e) <==> Holder(s, d, e))
  {
  }

  lemma StepKeeps(s: State, step: Step)
    requires Sound(s)
    ensures Sound(Apply(s, step))
  {
    hide Apply, EventSound, DeliverySound, Holder;
    var t := Apply(s, step);
    forall e ensures EventSound(t, e) { StepKeepsEvent(s, step, e); }
    forall d <- t.deliveries ensures DeliverySound(t, d) { StepKeepsDelivery(s, step, d); }
    forall c, d, e | Holder(t, c, e) && Holder(t, d, e) ensures c == d {
      OthersHold(s, step, c, e);
      OthersHold(s, step, d, e);
      StepKeepsHolder(s, step, c, e);
      StepKeepsHolder(s, step, d, e);
    }
  }

  lemma {:induction false} RunKeeps(s: State, steps: seq<Step>)
    requires Sound(s)
    ensures Sound(Replay(s, steps))
    decreases steps
  {
    if steps != [] {
      StepKeeps(s, steps[0]);
      RunKeeps(Apply(s, steps[0]), steps[1..]);
    }
  }

  /** Any interleaving of duplicate deliveries, failures and crashes: at most one holder of
      an event at a time and at most one audit entry for it, exactly one once it is processed. */
  lemma EventsSucceedAtMostOnce(steps: seq<Step>)
    ensures var s := Replay(Empty, steps);
            && (forall e :: s.audit[e] <= 1)
            && (forall e <- s.events :: s.events[e] == Processed ==> s.audit[e] == Entries(e))
            && (forall e <- s.events :: s.events[e] == Failed ==> s.audit[e] == 0)
            && (forall c, d, e :: Holder(s, c, e) && Holder(s, d, e) ==> c == d)
  {
    RunKeeps(Empty, steps);
    var s := Replay(Empty, steps);
    forall e ensures EventSound(s, e) && s.audit[e] <= 1 {}
    forall e <- s.events ensures (s.events[e] == Processed ==> s.audit[e] == Entries(e)) && (s.events[e] == Failed ==> s.audit[e] == 0) {
      assert EventSound(s, e);
    }
  }

  /** ---- settled events ---- */

  /** Processed, or claimed by a delivery that crashed: nobody holds the event. */
  ghost predicate Settled(s: State, e: EventId) {
    e in s.events && (s.events[e] == Processed || s.events[e] == Claimed) && (forall d :: !Holder(s, d, e))
  }

  lemma SettledStep(s: State, step: Step, e: EventId)
    requires Settled(s, e)
    ensures var t := Apply(s, step); Settled(t, e) && t.events[e] == s.events[e] && t.audit[e] == s.audit[e]
  {
    var t := Apply(s, step);
    forall d ensures !Holder(t, d, e) { assert !Holder(s, d, e); }
    assert !Holder(s, step.d, e);
  }

  /** A processed event stays processed, and an event whose holder crashed stays claimed: every
      later delivery is a duplicate, so it is never retried. */
  lemma {:induction false} SettledForever(s: State, steps: seq<Step>, e: EventId)
    requires Settled(s, e)
    ensures var t := Replay(s, steps); e in t.events && t.events[e] == s.events[e] && t.audit[e] == s.audit[e]
    decreases steps
  {
    if steps != [] {
      SettledStep(s, steps[0], e);
      SettledForever(Apply(s, steps[0]), steps[1..], e);
    }
  }

  /** Only a failure opens an event again; a processed one has no holder left. */
  lemma ProcessedSettles(s: State, e: EventId)
    requires Sound(s) && e in s.events && s.events[e] == Processed
    ensures Settled(s, e)
  {
    forall d ensures !Holder(s, d, e) {
      if d in s.deliveries { assert DeliverySound(s, d); }
    }
  }

  /** ---- which events can still be retried ---- */

  /** A delivery whose handler can still raise, or has raised. */
  predicate CanFail(s: State, d: DeliveryId, e: EventId) {
    d in s.deliveries && s.deliveries[d].event == e
    && (s.deliveries[d].stage.Holding? || s.deliveries[d].stage.AccountWritten? || s.deliveries[d].stage.Unwinding?)
  }

  /** Claimed or processed, and nobody is left whose handler could fail. A holder that has
      logged its audit entry is beyond failing. */
  ghost predicate Beyond(s: State, e: EventId) {
    !Claimable(s.events, e) && forall d :: !CanFail(s, d, e)
  }

  lemma BeyondStep(s: State, step: Step, e: EventId)
    requires Beyond(s, e)
    ensures Beyond(Apply(s, step), e)
  {
    var t := Apply(s, step);
    assert !CanFail(s, step.d, e);
    forall d ensures !CanFail(t, d, e) { assert !CanFail(s, d, e); }
  }

  lemma {:induction false} BeyondRun(s: State, steps: seq<Step>, e: EventId)
    requires Beyond(s, e)
    ensures !Claimable(Replay(s, steps).events, e)
    decreases steps
  {
    if steps != [] {
      BeyondStep(s, steps[0], e);
      BeyondRun(Apply(s, steps[0]), steps[1..], e);
    }
  }

  /** How a delivery that can fail gives its event back. */
  function GiveUp(stage: Stage, d: DeliveryId): seq<Step> {
    if stage.Unwinding? then [MarkFailed(d)] else [Raise(d), MarkFailed(d)]
  }

  lemma GivenUp(s: State, d: DeliveryId, e: EventId)
    requires CanFail(s, d, e)
    ensures Claimable(Replay(s, GiveUp(s.deliveries[d].stage, d)).events, e)
  {
    if s.deliveries[d].stage.Unwinding? {
      assert [MarkFailed(d)][1..] == [];
    } else {
      var t := Apply(s, Raise(d));
      assert t.deliveries[d] == Delivery(e, Unwinding);
      assert [Raise(d), MarkFailed(d)][1..] == [MarkFailed(d)] && [MarkFailed(d)][1..] == [];
      assert Replay(t, [MarkFailed(d)]) == Apply(t, MarkFailed(d));
    }
  }

  ghost predicate OpenAfter(s: State, steps: seq<Step>, e: EventId) {
    Claimable(Replay(s, steps).events, e)
  }

  /** Some continuation opens the event to a delivery again exactly when it is open now, or a
      delivery of it can still fail. */
  lemma RetriedAgain(s: State, e: EventId)
    ensures (exists steps :: OpenAfter(s, steps, e))
       <==> Claimable(s.events, e) || exists d :: CanFail(s, d, e)
  {
    if Claimable(s.events, e) {
      assert OpenAfter(s, [], e);
    } else if exists d :: CanFail(s, d, e) {
      var d :| CanFail(s, d, e);
      var steps := GiveUp(s.deliveries[d].stage, d);
      GivenUp(s, d, e);
      assert OpenAfter(s, steps, e);
    } else {
      forall steps ensures !OpenAfter(s, steps, e) { BeyondRun(s, steps, e); }
    }
  }

  /** An event whose holder crashed: claimed for good, not logged, and every later delivery is a duplicate. */
  lemma CrashedForever(e: EventId, steps: seq<Step>)
    ensures var s := Replay(Empty, [Arrive(0, e), Claim(0), Crash(0)]);
            && s == State(map[e := Claimed], multiset{}, map[0 := Delivery(e, Ended(Crashed))])
            && e in Replay(s, steps).events && Replay(s, steps).events[e] == Claimed
            && Replay(s, steps).audit[e] == 0
  {
    var s1, s2 := Apply(Empty, Arrive(0, e)), Apply(Apply(Empty, Arrive(0, e)), Claim(0));
    var s := State(map[e := Claimed], multiset{}, map[0 := Delivery(e, Ended(Crashed))]);
    assert s1.deliveries == map[0 := Delivery(e, Arrived)];
    assert s2.deliveries == map[0 := Delivery(e, Holding)] && s2.events == map[e := Claimed];
    assert Apply(s2, Crash(0)) == s;
    assert [Arrive(0, e), Claim(0), Crash(0)][1..] == [Claim(0), Crash(0)];
    assert [Claim(0), Crash(0)][1..] == [Crash(0)] && [Crash(0)][1..] == [];
    assert Replay(s2, [Crash(0)]) == s;
    SettledForever(s, steps, e);
  }
}
