/** process_event over the memory store: one delivery from claim to answer. */
module StripeWebhooks {
  import opened Outcomes
  import opened StripeEvents
  import opened RecentInvoices

  /** Where the handler of a delivery raises. An organisation that cannot be resolved raises before the account write. */
  datatype Fault = NoFault | BeforeAccount | BeforeAudit

  datatype Account = Account(owner: string, synced: nat, recent: seq<InvoiceRow>)

  datatype AuditEntry = AuditEntry(event: EventId, org: string)

  function EventsOf(audit: seq<AuditEntry>): multiset<EventId> {
    if audit == [] then multiset{} else EventsOf(audit[..|audit| - 1]) + multiset{audit[|audit| - 1].event}
  }

  function RecentOf(accounts: map<string, Account>, org: string): seq<InvoiceRow> {
    if org in accounts then accounts[org].recent else []
  }

  /** The first owner of an account stays. */
  function OwnerAfter(accounts: map<string, Account>, org: string, owner: string): string {
    if org in accounts && accounts[org].owner != "" then accounts[org].owner else owner
  }

  /** The protocol steps of a delivery nobody interrupts. */
  function Solo(d: DeliveryId, e: EventId, fault: Fault): seq<Step> {
    [Arrive(d, e)] + ([Claim(d)] + AfterClaim(d, e, fault))
  }

  function AfterClaim(d: DeliveryId, e: EventId, fault: Fault): seq<Step> {
    if fault.NoFault? || e.kind.Unhandled? then [WriteAccount(d)] + ([Append(d)] + ([MarkProcessed(d)] + []))
    else if fault.BeforeAudit? then [WriteAccount(d)] + ([Raise(d)] + ([MarkFailed(d)] + []))
    else [Raise(d)] + ([MarkFailed(d)] + [])
  }

  class Service {
    var events: map<EventId, EventStatus>
    var accounts: map<string, Account>
    var audit: seq<AuditEntry>
    /** The invoices whose account write happened, per organisation, oldest first. */
    ghost var history: map<string, seq<InvoiceRow>>

    constructor ()
      ensures Valid() && events == map[] && accounts == map[] && audit == [] && history == map[]
    {
      events, accounts, audit, history := map[], map[], [], map[];
    }

    ghost function HistoryOf(org: string): seq<InvoiceRow>
      reads this`history
    {
      if org in history then history[org] else []
    }

    /** Every stored list is the first ten of the organisation's whole invoice history. */
    ghost predicate Valid()
      reads this`accounts, this`history
    {
      forall org :: RecentOf(accounts, org) == Top(Recency(HistoryOf(org)))
    }

    /** What the stored list of an organisation shows of its invoice history: at most ten invoices, each
        as last seen, and one is missing only when ten others were seen after it. */
    lemma StoredInvoices(org: string, x: InvoiceRow)
      requires Valid()
      ensures |RecentOf(accounts, org)| == Min(|IdsOf(HistoryOf(org))|, 10)
      ensures x in RecentOf(accounts, org)
         <==> LastSeen(HistoryOf(org), x.id) >= 0 && x == HistoryOf(org)[SeenAt(HistoryOf(org), x.id)]
              && |IdsOf(HistoryOf(org)[SeenAt(HistoryOf(org), x.id) + 1..])| < 10
    {
      TenAreKept(HistoryOf(org));
      KeptMeaning(HistoryOf(org), x);
    }

    /** Unseen and failed events are claimed, everything else is a duplicate. */
    method ClaimEvent(e: EventId) returns (claimed: bool)
      modifies this`events
      ensures claimed <==> Claimable(old(events), e)
      ensures events == if claimed then old(events)[e := Claimed] else old(events)
    {
      if e in events && events[e] != Failed {
        return false;
      }
      events := events[e := Claimed];
      claimed := true;
    }

    /** upsert_by_org: the first owner stays. */
    method UpsertAccount(org: string, owner: string, synced: nat, recent: seq<InvoiceRow>)
      modifies this`accounts
      ensures accounts == old(accounts)[org := Account(OwnerAfter(old(accounts), org, owner), synced, recent)]
    {
      var kept := if org in accounts && accounts[org].owner != "" then accounts[org].owner else owner;
      accounts := accounts[org := Account(kept, synced, recent)];
    }

    /** The account write of a handler; an invoice goes to the front of the list. */
    method WriteAccountOf(e: EventId, org: string, owner: string, synced: nat, row: InvoiceRow)
      requires Valid()
      modifies this`accounts, this`history
      ensures Valid()
      ensures org in accounts && accounts == old(accounts)[org := accounts[org]]
      ensures accounts[org].synced == synced && accounts[org].owner == OwnerAfter(old(accounts), org, owner)
      ensures RecentOf(accounts, org) == if e.kind.Invoice? then Touched(RecentOf(old(accounts), org), row) else RecentOf(old(accounts), org)
      ensures history == if e.kind.Invoice? then old(history)[org := old(HistoryOf(org)) + [row]] else old(history)
    {
      hide Touched, Top, Recency;
      var existing := RecentOf(accounts, org);
      var updated := if e.kind.Invoice? then Touched(existing, row) else existing;
      UpsertAccount(org, owner, synced, updated);
      if e.kind.Invoice? {
        TouchedIsRecent(HistoryOf(org), row);
        history := history[org := HistoryOf(org) + [row]];
        assert forall other :: other != org ==> HistoryOf(other) == old(HistoryOf(other));
      }
    }

    /** The handler of a claimed event: account first, audit entry last. */
    method Handle(e: EventId, org: Option<string>, owner: string, synced: nat, row: InvoiceRow, fault: Fault) returns (ok: bool)
      requires Valid()
      modifies this`accounts, this`audit, this`history
      ensures Valid()
      ensures ok <==> e.kind.Unhandled? || (org.Some? && fault.NoFault?)
      ensures audit == if ok && !e.kind.Unhandled? then old(audit) + [AuditEntry(e, org.value)] else old(audit)
      ensures EventsOf(audit) == if ok && !e.kind.Unhandled? then EventsOf(old(audit)) + multiset{e} else EventsOf(old(audit))
      ensures history == if Written(e, org, fault) then old(history)[org.value := old(HistoryOf(org.value)) + [row]] else old(history)
      ensures if e.kind.Unhandled? || org.None? || fault.BeforeAccount? then accounts == old(accounts)
              else accounts == old(accounts)[org.value := Account(OwnerAfter(old(accounts), org.value, owner), synced, RecentOf(accounts, org.value))]
      ensures forall x <- old(accounts) :: x in accounts && (old(accounts)[x].owner != "" ==> accounts[x].owner == old(accounts)[x].owner)
    {
      if e.kind.Unhandled? {
        return true;
      }
      if org.None? || fault.BeforeAccount? {
        return false;
      }
      WriteAccountOf(e, org.value, owner, synced, row);
      if fault.BeforeAudit? {
        return false;
      }
      audit := audit + [AuditEntry(e, org.value)];
      assert audit[..|audit| - 1] == old(audit);
      ok := true;
    }

    /** An invoice event whose account write happens, even if the handler then raises. */
    static predicate Written(e: EventId, org: Option<string>, fault: Fault) {
      e.kind.Invoice? && org.Some? && !fault.BeforeAccount?
    }

    /** process_event is a run of the claim protocol, and every stored list stays the first ten
        of its organisation's history. */
    method ProcessEvent(e: EventId, org: Option<string>, owner: string, synced: nat, row: InvoiceRow, fault: Fault) returns (answer: Answer)
      requires Valid()
      modifies this
      ensures Valid()
      ensures var t := Replay(State(old(events), EventsOf(old(audit)), map[]), Solo(0, e, if org.None? then BeforeAccount else fault));
              && events == t.events && EventsOf(audit) == t.audit && t.deliveries == map[0 := Delivery(e, Ended(answer))]
      ensures answer.Duplicate? <==> e in old(events) && old(events)[e] != Failed
      ensures answer.Handled? <==> !answer.Duplicate? && (e.kind.Unhandled? || (org.Some? && fault.NoFault?))
      ensures events == if answer.Duplicate? then old(events) else old(events)[e := if answer.Handled? then Processed else Failed]
      ensures answer.Handled? && !e.kind.Unhandled? ==> org.Some? && audit == old(audit) + [AuditEntry(e, org.value)]
      ensures !answer.Handled? || e.kind.Unhandled? ==> audit == old(audit)
      ensures if answer.Duplicate? || e.kind.Unhandled? || org.None? || fault.BeforeAccount? then accounts == old(accounts)
              else accounts == old(accounts)[org.value := Account(OwnerAfter(old(accounts), org.value, owner), synced, RecentOf(accounts, org.value))]
      ensures forall x <- old(accounts) :: x in accounts && (old(accounts)[x].owner != "" ==> accounts[x].owner == old(accounts)[x].owner)
      ensures history == if Claimable(old(events), e) && Written(e, org, fault)
                         then old(history)[org.value := old(HistoryOf(org.value)) + [row]] else old(history)
    {
      hide Replay, Apply, Solo, EventsOf, Valid, OwnerAfter, RecentOf;
      SoloRun(State(events, EventsOf(audit), map[]), e, if org.None? then BeforeAccount else fault);
      var claimed := ClaimEvent(e);
      if !claimed {
        return Duplicate;
      }
      var ok := Handle(e, org, owner, synced, row, fault);
      events := events[e := if ok then Processed else Failed];
      answer := if ok then Handled else Refused;
    }
  }

  lemma ReplayCons(s: State, step: Step, rest: seq<Step>)
    ensures Replay(s, [step] + rest) == Replay(Apply(s, step), rest)
  {
    assert ([step] + rest)[1..] == rest;
  }

  lemma ReplayThree(s: State, a: Step, b: Step, c: Step)
    ensures Replay(s, [a] + ([b] + ([c] + []))) == Apply(Apply(Apply(s, a), b), c)
  {
    ReplayCons(s, a, [b] + ([c] + []));
    ReplayCons(Apply(s, a), b, [c] + []);
    ReplayCons(Apply(Apply(s, a), b), c, []);
  }

  /** What a delivery on its own leaves: the event's status, the audit entry, the answer. */
  function SoloResult(s: State, e: EventId, fault: Fault): State {
    var ok := e.kind.Unhandled? || fault.NoFault?;
    if !Claimable(s.events, e) then s.(deliveries := map[0 := Delivery(e, Ended(Duplicate))])
    else State(s.events[e := if ok then Processed else Failed],
               if ok && !e.kind.Unhandled? then s.audit + multiset{e} else s.audit,
               map[0 := Delivery(e, Ended(if ok then Handled else Refused))])
  }

  function With(s: State, e: EventId, stage: Stage): State {
    s.(deliveries := map[0 := Delivery(e, stage)])
  }

  lemma FinishedRun(s: State, e: EventId)
    ensures Replay(With(s, e, Holding), [WriteAccount(0)] + ([Append(0)] + ([MarkProcessed(0)] + [])))
         == State(s.events[e := Processed], if e.kind.Unhandled? then s.audit else s.audit + multiset{e},
                  map[0 := Delivery(e, Ended(Handled))])
  {
    hide Replay;
    var logged := With(s.(audit := if e.kind.Unhandled? then s.audit else s.audit + multiset{e}), e, Logged);
    ReplayThree(With(s, e, Holding), WriteAccount(0), Append(0), MarkProcessed(0));
    LoggedAfterTwo(s, e);
    assert Apply(logged, MarkProcessed(0)) == State(s.events[e := Processed], logged.audit, map[0 := Delivery(e, Ended(Handled))]);
  }

  lemma LoggedAfterTwo(s: State, e: EventId)
    ensures Apply(Apply(With(s, e, Holding), WriteAccount(0)), Append(0))
         == With(s.(audit := if e.kind.Unhandled? then s.audit else s.audit + multiset{e}), e, Logged)
  {
    if e.kind.Unhandled? {
      assert Apply(With(s, e, Holding), WriteAccount(0)) == With(s, e, Logged);
      assert Apply(With(s, e, Logged), Append(0)) == With(s, e, Logged);
    } else {
      assert Apply(With(s, e, Holding), WriteAccount(0)) == With(s, e, AccountWritten);
    }
  }

  lemma UnwoundRun(s: State, e: EventId, from: Stage)
    requires from.Holding? || from.AccountWritten?
    ensures Replay(With(s, e, from), [Raise(0)] + ([MarkFailed(0)] + []))
         == State(s.events[e := Failed], s.audit, map[0 := Delivery(e, Ended(Refused))])
  {
    hide Replay;
    ReplayCons(With(s, e, from), Raise(0), [MarkFailed(0)] + []);
    assert Apply(With(s, e, from), Raise(0)) == With(s, e, Unwinding);
    ReplayCons(With(s, e, Unwinding), MarkFailed(0), []);
    ReplayNothing(Apply(With(s, e, Unwinding), MarkFailed(0)));
  }

  lemma FailedRun(s: State, e: EventId, written: bool)
    requires !e.kind.Unhandled?
    ensures var tail := [Raise(0)] + ([MarkFailed(0)] + []);
            Replay(With(s, e, Holding), if written then [WriteAccount(0)] + tail else tail)
              == State(s.events[e := Failed], s.audit, map[0 := Delivery(e, Ended(Refused))])
  {
    hide Replay;
    ReplayCons(With(s, e, Holding), WriteAccount(0), [Raise(0)] + ([MarkFailed(0)] + []));
    assert Apply(With(s, e, Holding), WriteAccount(0)) == With(s, e, AccountWritten);
    UnwoundRun(s, e, if written then AccountWritten else Holding);
  }

  lemma ReplayNothing(s: State)
    ensures Replay(s, []) == s
  {
  }

  lemma {:induction false} EndedRun(s: State, e: EventId, answer: Answer, steps: seq<Step>)
    requires s.deliveries == map[0 := Delivery(e, Ended(answer))]
    requires forall step <- steps :: !step.Arrive? && step.d == 0
    ensures Replay(s, steps) == s
  {
    if steps != [] {
      assert forall step <- steps[1..] :: step in steps;
      EndedRun(s, e, answer, steps[1..]);
    }
  }

  lemma AfterClaimIsOwn(e: EventId, fault: Fault)
    ensures forall step <- AfterClaim(0, e, fault) :: !step.Arrive? && step.d == 0
  {
  }

  lemma SoloRun(s: State, e: EventId, fault: Fault)
    requires s.deliveries == map[]
    ensures Replay(s, Solo(0, e, fault)) == SoloResult(s, e, fault)
  {
    hide Replay;
    var rest := AfterClaim(0, e, fault);
    var s1 := Apply(s, Arrive(0, e));
    assert s1 == With(s, e, Arrived);
    var s2 := Apply(s1, Claim(0));
    ReplayCons(s, Arrive(0, e), [Claim(0)] + rest);
    ReplayCons(s1, Claim(0), rest);
    if !Claimable(s.events, e) {
      assert s2 == With(s, e, Ended(Duplicate));
      AfterClaimIsOwn(e, fault);
      EndedRun(s2, e, Duplicate, rest);
    } else {
      ClaimedRun(s, e, fault);
      assert s2 == With(s.(events := s.events[e := Claimed]), e, Holding);
    }
  }

  lemma ClaimedRun(s: State, e: EventId, fault: Fault)
    requires Claimable(s.events, e)
    ensures Replay(With(s.(events := s.events[e := Claimed]), e, Holding), AfterClaim(0, e, fault)) == SoloResult(s, e, fault)
  {
    hide Replay;
    var claimed := s.(events := s.events[e := Claimed]);
    if fault.NoFault? || e.kind.Unhandled? {
      FinishedRun(claimed, e);
    } else {
      FailedRun(claimed, e, fault.BeforeAudit?);
    }
    assert claimed.events[e := Processed] == s.events[e := Processed] && claimed.events[e := Failed] == s.events[e := Failed];
  }
}
