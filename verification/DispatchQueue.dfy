/** The in-memory dispatch queue: one sorted list that behaves as a FIFO per plan tier. */
module DispatchQueue {
  import opened Outcomes
  import opened Bags

  /** A lower-cased plan tier; anything unknown queues behind the others. */
  datatype Tier = Museum | Pro | Hobbyist | Other(name: string)

  datatype Message = Message(job: string, tier: Tier, source: string, stamp: nat)

  datatype Entry = Entry(priority: nat, sequence: nat, message: Message)

  function Priority(tier: Tier): nat {
    match tier
    case Museum => 0
    case Pro => 1
    case Hobbyist => 2
    case Other(_) => 99
  }

  /** Museum before Pro before Hobbyist before everything else; unknown tiers rank alike. */
  lemma TierOrder(a: Tier, b: Tier)
    ensures Priority(a) < Priority(b)
       <==> (a == Museum && b != Museum) || (a == Pro && b != Museum && b != Pro) || (a == Hobbyist && b.Other?)
    ensures Priority(a) == Priority(b) <==> a == b || (a.Other? && b.Other?)
  {
  }

  /** Tuples compare by priority, then by sequence number. */
  predicate Before(a: Entry, b: Entry) {
    a.priority < b.priority || (a.priority == b.priority && a.sequence < b.sequence)
  }

  ghost predicate Sorted(queue: seq<Entry>) {
    forall i, j :: 0 <= i < j < |queue| ==> Before(queue[i], queue[j])
  }

  function Insert(queue: seq<Entry>, e: Entry): seq<Entry> {
    if queue == [] then [e]
    else if Before(e, queue[0]) then [e] + queue
    else [queue[0]] + Insert(queue[1..], e)
  }

  /** list.sort(): any ordering algorithm gives this list when no two entries compare equal. */
  function Sort(queue: seq<Entry>): seq<Entry>
    decreases |queue|
  {
    if queue == [] then [] else Insert(Sort(queue[..|queue| - 1]), queue[|queue| - 1])
  }

  function Messages(queue: seq<Entry>): seq<Message> {
    seq(|queue|, i requires 0 <= i < |queue| => queue[i].message)
  }

  /** The queue of one tier, oldest first. */
  function Fifo(queue: seq<Entry>, priority: nat): seq<Message> {
    if queue == [] then []
    else (if queue[0].priority == priority then [queue[0].message] else []) + Fifo(queue[1..], priority)
  }

  ghost predicate WellFormed(queue: seq<Entry>, next: nat) {
    Sorted(queue) && forall e <- queue :: e.sequence < next && e.priority == Priority(e.message.tier)
  }

  lemma {:induction false} InsertMembers(queue: seq<Entry>, e: Entry)
    ensures multiset(Insert(queue, e)) == multiset(queue) + multiset{e}
  {
    if queue != [] {
      SplitFirst(queue);
      if !Before(e, queue[0]) {
        InsertMembers(queue[1..], e);
      }
    }
  }

  lemma {:induction false} InsertSorted(queue: seq<Entry>, e: Entry)
    requires Sorted(queue) && forall x <- queue :: x.sequence < e.sequence
    ensures Sorted(Insert(queue, e))
  {
    if queue != [] && !Before(e, queue[0]) {
      var tail := queue[1..];
      assert forall i :: 0 <= i < |tail| ==> tail[i] == queue[i + 1];
      InsertSorted(tail, e);
      InsertMembers(tail, e);
      forall x <- Insert(tail, e) ensures Before(queue[0], x) {
        assert x in multiset(Insert(tail, e));
        assert x == e || x in tail;
      }
    }
  }

  /** A new entry joins the back of its own tier and leaves the others alone. */
  lemma {:induction false} InsertFifo(queue: seq<Entry>, e: Entry, priority: nat)
    requires Sorted(queue) && forall x <- queue :: x.sequence < e.sequence
    ensures Fifo(Insert(queue, e), priority)
         == if priority == e.priority then Fifo(queue, priority) + [e.message] else Fifo(queue, priority)
  {
    if queue == [] {
    } else if Before(e, queue[0]) {
      NoneLeft(queue, e.priority);
    } else {
      var tail := queue[1..];
      assert forall i :: 0 <= i < |tail| ==> tail[i] == queue[i + 1];
      InsertFifo(tail, e, priority);
    }
  }

  lemma {:induction false} NoneLeft(queue: seq<Entry>, priority: nat)
    requires forall x <- queue :: x.priority > priority
    ensures Fifo(queue, priority) == []
  {
    if queue != [] { NoneLeft(queue[1..], priority); }
  }

  /** Two sorted lists of the same entries are the same list, so the sort used does not matter. */
  lemma {:induction false} SortedIsUnique(a: seq<Entry>, b: seq<Entry>)
    requires Sorted(a) && Sorted(b) && multiset(a) == multiset(b)
    ensures a == b
  {
    if a == [] {
      assert |b| == |multiset(b)| == 0;
    } else {
      assert |b| == |multiset(b)| > 0;
      hide Sorted;
      SameHead(a, b);
      SplitFirst(a);
      SplitFirst(b);
      SortedTail(a);
      SortedTail(b);
      SortedIsUnique(a[1..], b[1..]);
    }
  }

  lemma SortedTail(a: seq<Entry>)
    requires Sorted(a) && a != []
    ensures Sorted(a[1..])
  {
  }

  lemma SameHead(a: seq<Entry>, b: seq<Entry>)
    requires Sorted(a) && Sorted(b) && multiset(a) == multiset(b) && a != [] && b != []
    ensures a[0] == b[0]
  {
    assert a[0] in multiset(b) && b[0] in multiset(a);
    var k :| 0 <= k < |b| && b[k] == a[0];
    var i :| 0 <= i < |a| && a[i] == b[0];
  }

  lemma {:induction false} SortSorted(queue: seq<Entry>)
    requires Sorted(queue)
    ensures Sort(queue) == queue
    decreases |queue|
  {
    if queue != [] {
      var front, last := queue[..|queue| - 1], queue[|queue| - 1];
      SortSorted(front);
      InsertLast(front, last);
      assert front + [last] == queue;
    }
  }

  lemma {:induction false} InsertLast(queue: seq<Entry>, e: Entry)
    requires forall x <- queue :: Before(x, e)
    ensures Insert(queue, e) == queue + [e]
  {
    if queue != [] {
      assert queue[0] in queue && Before(queue[0], e);
      InsertLast(queue[1..], e);
    }
  }

  /** Appending and sorting again is inserting. */
  lemma AppendAndSort(queue: seq<Entry>, next: nat, message: Message)
    requires WellFormed(queue, next)
    ensures var e := Entry(Priority(message.tier), next, message);
            && Sort(queue + [e]) == Insert(queue, e)
            && WellFormed(Insert(queue, e), next + 1)
            && multiset(Messages(Insert(queue, e))) == multiset(Messages(queue)) + multiset{message}
            && forall p :: Fifo(Insert(queue, e), p) == if p == e.priority then Fifo(queue, p) + [message] else Fifo(queue, p)
  {
    var e := Entry(Priority(message.tier), next, message);
    assert (queue + [e])[..|queue|] == queue;
    SortSorted(queue);
    InsertSorted(queue, e);
    InsertMembers(queue, e);
    InsertMessages(queue, e);
    forall p ensures Fifo(Insert(queue, e), p) == if p == e.priority then Fifo(queue, p) + [message] else Fifo(queue, p) {
      InsertFifo(queue, e, p);
    }
    forall x <- Insert(queue, e) ensures x.sequence < next + 1 && x.priority == Priority(x.message.tier) {
      assert x in multiset(Insert(queue, e));
      assert x == e || x in queue;
    }
  }

  lemma {:induction false} InsertMessages(queue: seq<Entry>, e: Entry)
    ensures multiset(Messages(Insert(queue, e))) == multiset(Messages(queue)) + multiset{e.message}
  {
    if queue == [] {
      assert Messages([e]) == [e.message];
    } else {
      MessagesCons(queue[0], queue[1..]);
      assert [queue[0]] + queue[1..] == queue;
      if Before(e, queue[0]) {
        MessagesCons(e, queue);
      } else {
        InsertMessages(queue[1..], e);
        MessagesCons(queue[0], Insert(queue[1..], e));
      }
    }
  }

  lemma MessagesCons(e: Entry, rest: seq<Entry>)
    ensures Messages([e] + rest) == [e.message] + Messages(rest)
  {
  }

  /** Popping serves the oldest message of the best tier that has one. */
  lemma HeadIsBest(queue: seq<Entry>, next: nat)
    requires WellFormed(queue, next) && queue != []
    ensures WellFormed(queue[1..], next)
    ensures var p := queue[0].priority;
            && Fifo(queue, p) == [queue[0].message] + Fifo(queue[1..], p)
            && (forall better :: 0 <= better < p ==> Fifo(queue, better) == [])
            && (forall other :: other != p ==> Fifo(queue[1..], other) == Fifo(queue, other))
    ensures Messages(queue) == [queue[0].message] + Messages(queue[1..])
    ensures forall m <- Messages(queue) :: Priority(queue[0].message.tier) <= Priority(m.tier)
  {
    var tail := queue[1..];
    forall m <- Messages(queue) ensures Priority(queue[0].message.tier) <= Priority(m.tier) {
      var i :| 0 <= i < |queue| && Messages(queue)[i] == m;
      assert queue[i] in queue && queue[0] in queue;
      assert i > 0 ==> Before(queue[0], queue[i]);
    }
    assert forall i :: 0 <= i < |tail| ==> tail[i] == queue[i + 1];
    forall better | 0 <= better < queue[0].priority ensures Fifo(queue, better) == [] { NoneLeft(queue, better); }
    MessagesCons(queue[0], tail);
    assert [queue[0]] + tail == queue;
  }

  /** What each run of a worker does: it may enqueue messages, and it may raise. */
  datatype Run = Run(tokenRaises: bool, enqueues: seq<Message>, raises: bool)

  /** Workers that are not listed do neither: a drain meets finitely many new messages. */
  function RunAt(runs: seq<Run>, k: nat): Run {
    if k < |runs| then runs[k] else Run(false, [], false)
  }

  /** How many messages the workers from the k-th on would still enqueue. */
  function StillToCome(runs: seq<Run>, k: nat): nat
    decreases |runs| - k
  {
    if k >= |runs| then 0 else |runs[k].enqueues| + StillToCome(runs, k + 1)
  }

  /** What the first `made` runs enqueued; the token is looked up before the worker starts. */
  function Enqueued(runs: seq<Run>, made: nat): multiset<Message> {
    if made == 0 then multiset{}
    else Enqueued(runs, made - 1) + Spawned(RunAt(runs, made - 1))
  }

  function Spawned(run: Run): multiset<Message> {
    if run.tokenRaises then multiset{} else multiset(run.enqueues)
  }

  lemma EnqueuedMore(runs: seq<Run>, made: nat)
    ensures Enqueued(runs, made + 1) == Enqueued(runs, made) + Spawned(RunAt(runs, made))
  {
  }

  lemma Regroup<T>(before: multiset<T>, after: multiset<T>, done: multiset<T>, gone: multiset<T>,
                   start: multiset<T>, enqueued: multiset<T>, spawned: multiset<T>)
    requires before + done == start + enqueued && after + gone == before + spawned
    ensures after + done + gone == start + (enqueued + spawned)
  {
    assert after + done + gone == (after + gone) + done;
    assert (before + spawned) + done == (before + done) + spawned;
    assert (start + enqueued) + spawned == start + (enqueued + spawned);
  }

  /** Serving a message moves it from the queue to the served ones; what was spawned joins the queue. */
  lemma Balance(before: multiset<Message>, after: multiset<Message>, done: seq<Message>, served: Option<Message>,
                start: multiset<Message>, enqueued: multiset<Message>, spawned: multiset<Message>)
    requires before + multiset(done) == start + enqueued
    requires after + (if served.Some? then multiset{served.value} else multiset{}) == before + spawned
    ensures served.Some? ==> after + multiset(done + [served.value]) == start + (enqueued + spawned)
    ensures after + multiset(done) + (if served.Some? then multiset{served.value} else multiset{}) == start + (enqueued + spawned)
  {
    var gone := if served.Some? then multiset{served.value} else multiset{};
    Regroup(before, after, multiset(done), gone, start, enqueued, spawned);
    if served.Some? {
      assert multiset(done + [served.value]) == multiset(done) + multiset{served.value};
      assert after + (multiset(done) + gone) == after + multiset(done) + gone;
    }
  }

  /** One round: the message is served, or back in the queue, or lost with its token; what was spawned is queued. */
  ghost predicate Round(before: seq<Message>, after: seq<Message>, message: Message, ok: bool, run: Run) {
    && ok == (!run.tokenRaises && !run.raises)
    && multiset(after) + (if ok || run.tokenRaises then multiset{message} else multiset{}) == multiset(before) + Spawned(run)
    && (ok && run.enqueues == [] ==> before == [message] + after)
  }

  /** So far every message is served or queued, no run raised, and without new messages they keep their order. */
  ghost predicate Served(start: seq<Message>, done: seq<Message>, queued: seq<Message>, runs: seq<Run>) {
    && multiset(queued) + multiset(done) == multiset(start) + Enqueued(runs, |done|)
    && NoneRaised(runs, |done|)
    && (NothingSpawned(runs) ==> start == done + queued)
  }

  ghost predicate NoneRaised(runs: seq<Run>, n: nat) {
    forall k :: 0 <= k < n ==> !RunAt(runs, k).tokenRaises && !RunAt(runs, k).raises
  }

  ghost predicate NothingSpawned(runs: seq<Run>) {
    forall k :: RunAt(runs, k).enqueues == []
  }

  lemma OneMoreRan(runs: seq<Run>, n: nat)
    requires NoneRaised(runs, n) && !RunAt(runs, n).tokenRaises && !RunAt(runs, n).raises
    ensures NoneRaised(runs, n + 1) && (NothingSpawned(runs) ==> RunAt(runs, n).enqueues == [])
  {
  }

  lemma ServedNone(start: seq<Message>, runs: seq<Run>)
    ensures Served(start, [], start, runs)
  {
    assert [] + start == start;
  }

  lemma ServedOneMore(start: seq<Message>, done: seq<Message>, before: seq<Message>, after: seq<Message>, message: Message, runs: seq<Run>)
    requires Served(start, done, before, runs) && Round(before, after, message, true, RunAt(runs, |done|))
    ensures Served(start, done + [message], after, runs)
  {
    hide Spawned, Enqueued, NoneRaised, NothingSpawned, RunAt;
    OneMoreRan(runs, |done|);
    EnqueuedMore(runs, |done|);
    Balance(multiset(before), multiset(after), done, Some(message), multiset(start), Enqueued(runs, |done|), Spawned(RunAt(runs, |done|)));
    NextServed(done, message, after);
  }

  lemma ServedThenRaised(start: seq<Message>, done: seq<Message>, before: seq<Message>, after: seq<Message>, message: Message, runs: seq<Run>)
    requires Served(start, done, before, runs) && Round(before, after, message, false, RunAt(runs, |done|))
    ensures multiset(after) + multiset(done) + (if RunAt(runs, |done|).tokenRaises then multiset{message} else multiset{})
         == multiset(start) + Enqueued(runs, |done| + 1)
  {
    hide Spawned, Enqueued, NoneRaised, NothingSpawned, RunAt;
    var run := RunAt(runs, |done|);
    EnqueuedMore(runs, |done|);
    Balance(multiset(before), multiset(after), done, if run.tokenRaises then Some(message) else None,
            multiset(start), Enqueued(runs, |done|), Spawned(run));
  }

  lemma ServedMeans(start: seq<Message>, done: seq<Message>, queued: seq<Message>, runs: seq<Run>)
    requires Served(start, done, queued, runs)
    ensures multiset(queued) + multiset(done) == multiset(start) + Enqueued(runs, |done|)
    ensures forall k :: 0 <= k < |done| ==> !RunAt(runs, k).tokenRaises && !RunAt(runs, k).raises
    ensures (forall k :: RunAt(runs, k).enqueues == []) ==> start == done + queued
  {
  }

  function JobsOf(messages: seq<Message>): seq<string> {
    seq(|messages|, i requires 0 <= i < |messages| => messages[i].job)
  }

  lemma JobsOfNone()
    ensures JobsOf([]) == []
  {
  }

  lemma JobsSnoc(done: seq<Message>, message: Message)
    ensures |JobsOf(done)| == |done| && JobsOf(done + [message]) == JobsOf(done) + [message.job]
  {
  }

  lemma NextServed(done: seq<Message>, message: Message, rest: seq<Message>)
    ensures (done + [message]) + rest == done + ([message] + rest)
  {
  }

  lemma StillToComeStep(runs: seq<Run>, k: nat)
    ensures StillToCome(runs, k) == |RunAt(runs, k).enqueues| + StillToCome(runs, k + 1)
  {
  }

  class Dispatcher {
    var queue: seq<Entry>
    var sequence: nat

    constructor ()
      ensures Valid() && queue == [] && sequence == 0
    {
      queue, sequence := [], 0;
    }

    ghost predicate Valid()
      reads this
    {
      WellFormed(queue, sequence)
    }

    /** The queued messages in the order they will be served. */
    function Queued(): seq<Message>
      reads this
    {
      Messages(queue)
    }

    /** publish, and requeue_dispatch_message alike: the back of the tier, whatever was there before. */
    method Publish(message: Message)
      requires Valid()
      modifies this
      ensures Valid()
      ensures forall p :: Fifo(queue, p) == if p == Priority(message.tier) then Fifo(old(queue), p) + [message] else Fifo(old(queue), p)
      ensures multiset(Queued()) == multiset(old(Queued())) + multiset{message}
      ensures |queue| == |old(queue)| + 1
    {
      AppendAndSort(queue, sequence, message);
      InsertMembers(queue, Entry(Priority(message.tier), sequence, message));
      queue := queue + [Entry(Priority(message.tier), sequence, message)];
      sequence := sequence + 1;
      queue := Sort(queue);
      assert |queue| == |multiset(queue)|;
    }

    method Pop() returns (message: Option<Message>)
      requires Valid()
      modifies this
      ensures Valid()
      ensures message.None? <==> old(queue) == []
      ensures message.None? ==> queue == old(queue)
      ensures message.Some? ==> var p := Priority(message.value.tier);
                && Fifo(old(queue), p) == [message.value] + Fifo(queue, p)
                && (forall better :: 0 <= better < p ==> Fifo(old(queue), better) == [])
                && (forall other :: other != p ==> Fifo(queue, other) == Fifo(old(queue), other))
      ensures message.Some? ==> old(Queued()) == [message.value] + Queued() && |queue| == |old(queue)| - 1
      ensures message.Some? ==> forall m <- old(Queued()) ::
                && (m.tier == Museum ==> message.value.tier == Museum)
                && (m.tier == Pro ==> message.value.tier in {Museum, Pro})
                && (m.tier == Hobbyist ==> !message.value.tier.Other?)
    {
      if queue == [] {
        return None;
      }
      HeadIsBest(queue, sequence);
      message := Some(queue[0].message);
      queue := queue[1..];
    }

    method PublishAll(messages: seq<Message>)
      requires Valid()
      modifies this
      ensures Valid()
      ensures multiset(Queued()) == multiset(old(Queued())) + multiset(messages)
      ensures |queue| == |old(queue)| + |messages|
      ensures messages == [] ==> queue == old(queue)
    {
      for i := 0 to |messages|
        invariant Valid()
        invariant multiset(Queued()) == multiset(old(Queued())) + multiset(messages[..i])
        invariant |queue| == |old(queue)| + i
        invariant i == 0 ==> queue == old(queue)
      {
        assert messages[..i + 1] == messages[..i] + [messages[i]];
        Publish(messages[i]);
      }
      assert messages[..|messages|] == messages;
    }

    /** Start the worker on a popped message; false when it raised and the message went back. */
    method Serve(message: Message, run: Run) returns (ok: bool)
      requires Valid() && !run.tokenRaises
      modifies this
      ensures Valid() && ok == !run.raises
      ensures multiset(Queued()) == multiset(old(Queued())) + Spawned(run) + if ok then multiset{} else multiset{message}
      ensures ok ==> |queue| == |old(queue)| + |run.enqueues|
      ensures ok && run.enqueues == [] ==> queue == old(queue)
    {
      PublishAll(run.enqueues);
      if run.raises {
        Publish(message);
      }
      ok := !run.raises;
    }

    /** One round of the drain: pop, look the token up, start the worker. */
    method ServeNext(run: Run) returns (message: Option<Message>, ok: bool)
      requires Valid()
      modifies this
      ensures Valid() && (message.None? <==> old(queue) == [])
      ensures message.None? ==> queue == old(queue)
      ensures message.Some? ==> Round(old(Queued()), Queued(), message.value, ok, run)
      ensures message.Some? ==> ok == (!run.tokenRaises && !run.raises)
      ensures message.Some? && ok ==> |queue| == |old(queue)| - 1 + |run.enqueues|
    {
      ok := false;
      message := Pop();
      assert message.Some? ==> multiset(old(Queued())) == multiset{message.value} + multiset(Queued());
      if message.Some? && !run.tokenRaises {
        ok := Serve(message.value, run);
      }
    }

    /** drain_job_queue against the runs its workers make. Every message is processed or still
        queued, except the one popped when the token lookup raises: that one is lost. */
    method Drain(maxJobs: Option<int>, runs: seq<Run>)
      returns (r: Result<seq<string>>, ghost done: seq<Message>, ghost lost: Option<Message>)
      requires Valid()
      modifies this
      ensures Valid()
      ensures r.Ok? ==> r.value == JobsOf(done) && lost.None?
      ensures multiset(Queued()) + multiset(done) + (if lost.Some? then multiset{lost.value} else multiset{})
           == multiset(old(Queued())) + Enqueued(runs, if r.Ok? then |done| else |done| + 1)
      ensures forall k :: 0 <= k < |done| ==> !RunAt(runs, k).tokenRaises && !RunAt(runs, k).raises
      ensures r.Raised? ==> RunAt(runs, |done|).tokenRaises || RunAt(runs, |done|).raises
      ensures lost.Some? <==> r.Raised? && RunAt(runs, |done|).tokenRaises
      ensures r.Ok? ==> queue == [] || (maxJobs.Some? && |done| >= maxJobs.value)
      ensures maxJobs.Some? ==> |done| <= Max(maxJobs.value, 0)
      ensures r.Ok? && (forall k :: RunAt(runs, k).enqueues == []) ==> old(Queued()) == done + Queued()
    {
      hide WellFormed, Messages, Enqueued, JobsOf, StillToCome, Served, Round, RunAt;
      ghost var start := Queued();
      ServedNone(start, runs);
      JobsOfNone();
      done, lost := [], None;
      var processed: seq<string> := [];
      while maxJobs.None? || |processed| < maxJobs.value
        invariant Valid() && processed == JobsOf(done) && |processed| == |done|
        invariant Served(start, done, Queued(), runs)
        invariant maxJobs.Some? ==> |done| <= Max(maxJobs.value, 0)
        decreases |queue| + StillToCome(runs, |done|)
      {
        ghost var before := Queued();
        var run := RunAt(runs, |processed|);
        var message, ok := ServeNext(run);
        if message.None? {
          break;
        }
        if !ok {
          ServedMeans(start, done, before, runs);
          ServedThenRaised(start, done, before, Queued(), message.value, runs);
          lost := if run.tokenRaises then message else None;
          return Raised, done, lost;
        }
        ServedOneMore(start, done, before, Queued(), message.value, runs);
        JobsSnoc(done, message.value);
        StillToComeStep(runs, |done|);
        processed := processed + [message.value.job];
        done := done + [message.value];
      }
      ServedMeans(start, done, Queued(), runs);
      r := Ok(processed);
    }
  }
}
