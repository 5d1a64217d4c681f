/** The per-user, per-route limiter: pruned stamp lists against the full log of admissions. */
module RateLimits {
  import opened Outcomes

  const WINDOW: real := 60.0

  datatype Key = Key(user: string, route: string)

  /** An admitted request: when, and under which limit. */
  datatype Admission = Admission(stamp: real, limit: int)

  /** The stamps less than a window old. */
  function Recent(stamps: seq<real>, now: real): seq<real> {
    if stamps == [] then []
    else (if now - stamps[0] < WINDOW then [stamps[0]] else []) + Recent(stamps[1..], now)
  }

  function Stamps(log: seq<Admission>): seq<real> {
    seq(|log|, i requires 0 <= i < |log| => log[i].stamp)
  }

  lemma {:induction false} RecentConcat(a: seq<real>, b: seq<real>, now: real)
    ensures Recent(a + b, now) == Recent(a, now) + Recent(b, now)
  {
    if a == [] {
      assert a + b == b;
    } else {
      assert (a + b)[1..] == a[1..] + b;
      RecentConcat(a[1..], b, now);
    }
  }

  /** Pruning earlier loses nothing that still counts later. */
  lemma {:induction false} PruneTwice(stamps: seq<real>, now: real, later: real)
    requires now <= later
    ensures Recent(Recent(stamps, now), later) == Recent(stamps, later)
  {
    if stamps != [] {
      PruneTwice(stamps[1..], now, later);
      if now - stamps[0] < WINDOW {
        assert Recent(stamps, now) == [stamps[0]] + Recent(stamps[1..], now);
      } else {
        assert Recent(stamps, now) == Recent(stamps[1..], now);
        assert Recent(stamps, later) == Recent(stamps[1..], later);
      }
    }
  }

  /** Admissions in time order, each within its limit counting all of the full log. */
  ghost predicate Lawful(log: seq<Admission>) {
    forall i :: 0 <= i < |log| ==>
      && |Recent(Stamps(log[..i]), log[i].stamp)| < log[i].limit
      && forall j :: 0 <= j < i ==> log[j].stamp <= log[i].stamp
  }

  /** Inside [start, start + 60), or (start, start + 60] when `afterStart`. */
  predicate Inside(stamp: real, start: real, afterStart: bool) {
    if afterStart then start < stamp <= start + 60.0 else start <= stamp < start + 60.0
  }

  function CountInside(stamps: seq<real>, start: real, afterStart: bool): nat {
    if stamps == [] then 0
    else (if Inside(stamps[0], start, afterStart) then 1 else 0) + CountInside(stamps[1..], start, afterStart)
  }

  /** Recent are exactly the stamps of the last sixty seconds. */
  lemma {:induction false} RecentIsLastMinute(stamps: seq<real>, now: real)
    requires forall s <- stamps :: s <= now
    ensures |Recent(stamps, now)| == CountInside(stamps, now - 60.0, true)
  {
    if stamps != [] {
      assert stamps[0] in stamps && forall s <- stamps[1..] :: s in stamps;
      RecentIsLastMinute(stamps[1..], now);
    }
  }

  lemma {:induction false} CountInsideConcat(a: seq<real>, b: seq<real>, start: real, afterStart: bool)
    ensures CountInside(a + b, start, afterStart) == CountInside(a, start, afterStart) + CountInside(b, start, afterStart)
  {
    if a == [] {
      assert a + b == b;
    } else {
      assert (a + b)[1..] == a[1..] + b;
      CountInsideConcat(a[1..], b, start, afterStart);
    }
  }

  /** What shares a window with a later stamp is recent at that stamp. */
  lemma {:induction false} InsideIsRecent(stamps: seq<real>, last: real, start: real, afterStart: bool)
    requires Inside(last, start, afterStart)
    requires forall s <- stamps :: s <= last
    ensures CountInside(stamps, start, afterStart) <= |Recent(stamps, last)|
  {
    if stamps != [] {
      assert forall s <- stamps[1..] :: s in stamps;
      InsideIsRecent(stamps[1..], last, start, afterStart);
    }
  }

  /** Any half-open window of sixty seconds, anywhere in any run, admits at most `limit` requests. */
  lemma {:induction false} WindowBound(log: seq<Admission>, limit: nat, start: real, afterStart: bool)
    requires Lawful(log) && forall a <- log :: a.limit <= limit
    ensures CountInside(Stamps(log), start, afterStart) <= limit
  {
    if log != [] {
      var n := |log| - 1;
      var front, last := log[..n], log[n];
      assert Stamps(log) == Stamps(front) + [last.stamp];
      CountInsideConcat(Stamps(front), [last.stamp], start, afterStart);
      assert CountInside([last.stamp], start, afterStart) == (if Inside(last.stamp, start, afterStart) then 1 else 0) by {
        assert [last.stamp][1..] == [];
      }
      if Inside(last.stamp, start, afterStart) {
        InsideIsRecent(Stamps(front), last.stamp, start, afterStart);
      } else {
        LawfulPrefix(log);
        WindowBound(front, limit, start, afterStart);
      }
    }
  }

  lemma LawfulPrefix(log: seq<Admission>)
    requires log != [] && Lawful(log)
    ensures Lawful(log[..|log| - 1])
  {
    var front := log[..|log| - 1];
    assert forall i :: 0 <= i < |front| ==> front[..i] == log[..i] && front[i] == log[i];
  }

  class Limiter {
    var buckets: map<Key, seq<real>>
    /** Every admission ever made, and the latest clock reading. */
    ghost var log: map<Key, seq<Admission>>
    ghost var clock: real

    constructor ()
      ensures Valid() && log == map[] && clock == 0.0
    {
      buckets, log, clock := map[], map[], 0.0;
    }

    function Bucket(k: Key): seq<real>
      reads this`buckets
    {
      if k in buckets then buckets[k] else []
    }

    ghost function Log(k: Key): seq<Admission>
      reads this`log
    {
      if k in log then log[k] else []
    }

    /** At any time from now on the pruned list counts what the full log counts. */
    ghost predicate Valid()
      reads this
    {
      forall k :: Sound(k)
    }

    ghost predicate Sound(k: Key)
      reads this
    {
      && Lawful(Log(k)) && (forall a <- Log(k) :: a.stamp <= clock)
      && forall now :: now >= clock ==> Recent(Bucket(k), now) == Recent(Stamps(Log(k)), now)
    }

    /** enforce_rate_limit: admitted exactly when fewer than `limit` requests of this user on this
        route were admitted in the last sixty seconds, counting the full log. */
    method Enforce(k: Key, limit: int, now: real) returns (admitted: bool)
      requires Valid() && now >= clock
      modifies this
      ensures Valid() && clock == now
      ensures admitted <==> CountInside(Stamps(old(Log(k))), now - 60.0, true) < limit
      ensures Log(k) == if admitted then old(Log(k)) + [Admission(now, limit)] else old(Log(k))
      ensures forall other :: other != k ==> Log(other) == old(Log(other)) && Bucket(other) == old(Bucket(other))
    {
      hide Lawful, Recent, Stamps, CountInside;
      assert Sound(k);
      StampsUpTo(Log(k), now);
      RecentIsLastMinute(Stamps(Log(k)), now);
      var stamps := Recent(Bucket(k), now);
      clock := now;
      if |stamps| >= limit {
        assert forall x :: Log(x) == old(Log(x)) && Bucket(x) == old(Bucket(x)) && old(Sound(x));
        return false;
      }
      buckets := buckets[k := stamps + [now]];
      log := log[k := Log(k) + [Admission(now, limit)]];
      AdmittedSound(old(Bucket(k)), old(Log(k)), now, limit);
      assert forall x :: x != k ==> Log(x) == old(Log(x)) && Bucket(x) == old(Bucket(x)) && old(Sound(x));
      admitted := true;
    }
  }

  lemma StampsUpTo(log: seq<Admission>, now: real)
    requires forall a <- log :: a.stamp <= now
    ensures forall s <- Stamps(log) :: s <= now
  {
  }

  lemma AdmittedSound(bucket: seq<real>, log: seq<Admission>, now: real, limit: int)
    requires Lawful(log) && (forall a <- log :: a.stamp <= now) && |Recent(Stamps(log), now)| < limit
    requires forall t :: t >= now ==> Recent(bucket, t) == Recent(Stamps(log), t)
    ensures Lawful(log + [Admission(now, limit)])
    ensures forall t :: t >= now ==> Recent(Recent(bucket, now) + [now], t) == Recent(Stamps(log + [Admission(now, limit)]), t)
  {
    var longer := log + [Admission(now, limit)];
    assert forall i :: 0 <= i <= |log| ==> longer[..i] == log[..i];
    assert log[..|log|] == log;
    assert Stamps(longer) == Stamps(log) + [now];
    forall t | t >= now ensures Recent(Recent(bucket, now) + [now], t) == Recent(Stamps(longer), t) {
      PruneTwice(bucket, now, t);
      RecentConcat(Recent(bucket, now), [now], t);
      RecentConcat(Stamps(log), [now], t);
    }
  }
}
