/**
 * The fixed-window request limiter of the chat endpoint
 * (src/app/api/chat/route.ts). Each client key owns one entry: how many
 * requests it made in its current window and when that window began. The clock
 * is not read here: every operation receives `now` in milliseconds.
 */
module RateLimit {

  /** The window length in milliseconds. */
  const WindowMs: int := 60 * 1000
  /** The most requests one key may make in one window. */
  const MaxRequests: int := 20

  datatype Entry = Entry(count: int, timestamp: int)

  /** What the check answers: whether the request may go on, and how long to wait if not. */
  datatype Decision = Decision(isAllowed: bool, timeRemaining: int)

  /** A decision together with the request log after it. */
  datatype Outcome = Outcome(decision: Decision, log: map<string, Entry>)

  /** A window is over once strictly more than `WindowMs` has passed since it began. */
  predicate Expired(e: Entry, now: int)
  {
    now - e.timestamp > WindowMs
  }

  /** Every stored count lies between 1 and `MaxRequests`. */
  ghost predicate CountsBounded(log: map<string, Entry>)
  {
    forall k :: k in log ==> 1 <= log[k].count <= MaxRequests
  }

  /**
   * One check-and-consume step for key `ip` at time `now`: a new key or an
   * expired window starts a fresh window holding this request; an open window
   * below the cap takes one more request; an open window at the cap refuses and
   * leaves the log as it was.
   */
  function Consume(log: map<string, Entry>, ip: string, now: int): (r: Outcome)
    ensures ip in r.log
    ensures forall k :: k != ip ==> (k in r.log <==> k in log)
    ensures forall k :: k != ip && k in log ==> r.log[k] == log[k]
    ensures r.decision.isAllowed ==> r.decision.timeRemaining == 0
    ensures !r.decision.isAllowed ==> r.log == log && 0 <= r.decision.timeRemaining
    ensures !r.decision.isAllowed && now >= log[ip].timestamp ==> r.decision.timeRemaining <= WindowMs
  {
    if ip !in log then
      Outcome(Decision(true, 0), log[ip := Entry(1, now)])
    else
      var e := log[ip];
      var timeDiff := now - e.timestamp;
      if timeDiff > WindowMs then
        Outcome(Decision(true, 0), log[ip := Entry(1, now)])
      else if e.count >= MaxRequests then
        Outcome(Decision(false, WindowMs - timeDiff), log)
      else
        Outcome(Decision(true, 0), log[ip := Entry(e.count + 1, e.timestamp)])
  }

  /** The log after the expiry sweep at time `now`: exactly the entries whose window is still open. */
  function Swept(log: map<string, Entry>, now: int): (r: map<string, Entry>)
    ensures forall k :: k in r <==> k in log && !Expired(log[k], now)
    ensures forall k :: k in r ==> r[k] == log[k]
  {
    map k | k in log && !Expired(log[k], now) :: log[k]
  }

  /** The in-memory request log of the chat route. */
  class RateLimiter {
    var log: map<string, Entry>

    ghost predicate Valid()
      reads this
    {
      CountsBounded(log)
    }

    constructor ()
      ensures Valid() && log == map[]
    {
      log := map[];
    }

    /** `getRateLimitInfo`: decides on the request and records it. */
    method Check(ip: string, now: int) returns (info: Decision)
      requires Valid()
      modifies this
      ensures Valid()
      ensures info == Consume(old(log), ip, now).decision
      ensures log == Consume(old(log), ip, now).log
    {
      ConsumeKeepsCountsBounded(log, ip, now);
      if ip !in log {
        log := log[ip := Entry(1, now)];
        return Decision(true, 0);
      }
      var userRequests := log[ip];
      var timeDiff := now - userRequests.timestamp;
      if timeDiff > WindowMs {
        log := log[ip := Entry(1, now)];
        return Decision(true, 0);
      }
      if userRequests.count >= MaxRequests {
        return Decision(false, WindowMs - timeDiff);
      }
      log := log[ip := Entry(userRequests.count + 1, userRequests.timestamp)];
      info := Decision(true, 0);
    }

    /** The periodic cleanup: walks the entries and deletes each one whose window is over. */
    method Sweep(now: int)
      requires Valid()
      modifies this
      ensures Valid()
      ensures log == Swept(old(log), now)
    {
      var pending := log.Keys;
      while pending != {}
        invariant pending <= log.Keys <= old(log).Keys
        invariant forall k :: k in log ==> log[k] == old(log)[k]
        invariant forall k :: k in old(log) && k !in pending ==> (k in log <==> !Expired(old(log)[k], now))
        decreases pending
      {
        var ip :| ip in pending;
        if now - log[ip].timestamp > WindowMs {
          log := log - {ip};
        }
        pending := pending - {ip};
      }
      assert log == Swept(old(log), now);
    }
  }

  /** Stored counts stay within 1..MaxRequests whatever requests arrive. */
  lemma {:induction false} ConsumeKeepsCountsBounded(log: map<string, Entry>, ip: string, now: int)
    requires CountsBounded(log)
    ensures CountsBounded(Consume(log, ip, now).log)
  {
  }

  /** A key seen for the first time is let through and opens a window at `now` holding one request. */
  lemma {:induction false} FirstRequestOpensWindow(log: map<string, Entry>, ip: string, now: int)
    requires ip !in log
    ensures Consume(log, ip, now) == Outcome(Decision(true, 0), log[ip := Entry(1, now)])
  {
  }

  /**
   * Once strictly more than the window has passed, the next request is let
   * through and restarts the window whatever the count was; at exactly
   * `WindowMs` the old window still applies.
   */
  lemma {:induction false} ExpiredWindowRestarts(log: map<string, Entry>, ip: string, now: int)
    requires ip in log
    ensures now - log[ip].timestamp > WindowMs ==>
      Consume(log, ip, now) == Outcome(Decision(true, 0), log[ip := Entry(1, now)])
    ensures now - log[ip].timestamp == WindowMs && log[ip].count >= MaxRequests ==>
      Consume(log, ip, now) == Outcome(Decision(false, 0), log)
  {
  }

  /** Inside an open window below the cap, the count rises by exactly one and the window start is kept. */
  lemma {:induction false} OpenWindowCounts(log: map<string, Entry>, ip: string, now: int)
    requires ip in log && !Expired(log[ip], now) && log[ip].count < MaxRequests
    ensures Consume(log, ip, now).decision.isAllowed
    ensures Consume(log, ip, now).log[ip] == Entry(log[ip].count + 1, log[ip].timestamp)
  {
  }

  /** A refusal names the time left in the window, and that time shrinks strictly as the clock advances. */
  lemma {:induction false} RefusalWaitShrinks(log: map<string, Entry>, ip: string, t1: int, t2: int)
    requires ip in log && log[ip].count >= MaxRequests
    requires log[ip].timestamp <= t1 < t2 && !Expired(log[ip], t2)
    ensures !Consume(log, ip, t1).decision.isAllowed && !Consume(log, ip, t2).decision.isAllowed
    ensures Consume(log, ip, t1).decision.timeRemaining == WindowMs - (t1 - log[ip].timestamp)
    ensures 0 <= Consume(log, ip, t2).decision.timeRemaining < Consume(log, ip, t1).decision.timeRemaining <= WindowMs
  {
  }

  /** Requests under one key never change the decision for another key. */
  lemma {:induction false} KeysIndependent(log: map<string, Entry>, a: string, b: string, ta: int, tb: int)
    requires a != b
    ensures Consume(Consume(log, a, ta).log, b, tb).decision == Consume(log, b, tb).decision
  {
    var after := Consume(log, a, ta).log;
    assert (b in after <==> b in log) && (b in log ==> after[b] == log[b]);
  }

  /** The decisions for successive requests under one key at the given times. */
  function Decisions(log: map<string, Entry>, ip: string, times: seq<int>): (r: seq<bool>)
    ensures |r| == |times|
    decreases |times|
  {
    if times == [] then []
    else
      var step := Consume(log, ip, times[0]);
      [step.decision.isAllowed] + Decisions(step.log, ip, times[1..])
  }

  /**
   * Within one window that already holds `c` requests, the requests that follow
   * are let through while the total stays at most `MaxRequests` and refused after.
   */
  lemma {:induction false} DecisionsInWindow(log: map<string, Entry>, ip: string, times: seq<int>, c: int, t0: int)
    requires ip in log && log[ip] == Entry(c, t0) && 1 <= c <= MaxRequests
    requires forall i :: 0 <= i < |times| ==> times[i] - t0 <= WindowMs
    ensures forall i :: 0 <= i < |times| ==> Decisions(log, ip, times)[i] == (c + i < MaxRequests)
  {
    if times != [] {
      var step := Consume(log, ip, times[0]);
      var c' := if c < MaxRequests then c + 1 else c;
      assert step.log[ip] == Entry(c', t0);
      DecisionsInWindow(step.log, ip, times[1..], c', t0);
      forall i | 0 <= i < |times|
        ensures Decisions(log, ip, times)[i] == (c + i < MaxRequests)
      {
        if i > 0 {
          assert Decisions(log, ip, times)[i] == Decisions(step.log, ip, times[1..])[i - 1];
        }
      }
    }
  }

  /**
   * A new key sending requests within one window of its first: the first
   * `MaxRequests` are let through and every later one is refused.
   */
  lemma {:induction false} BurstFromNewKey(log: map<string, Entry>, ip: string, times: seq<int>)
    requires ip !in log && |times| >= 1
    requires forall i :: 0 <= i < |times| ==> times[i] - times[0] <= WindowMs
    ensures forall i :: 0 <= i < |times| ==> Decisions(log, ip, times)[i] == (i < MaxRequests)
  {
    var step := Consume(log, ip, times[0]);
    DecisionsInWindow(step.log, ip, times[1..], 1, times[0]);
    forall i | 0 <= i < |times|
      ensures Decisions(log, ip, times)[i] == (i < MaxRequests)
    {
      if i > 0 {
        assert Decisions(log, ip, times)[i] == Decisions(step.log, ip, times[1..])[i - 1];
      }
    }
  }

  /**
   * The sweep never changes what a later request is told: an entry it removed
   * had an expired window, so the request would have restarted it anyway.
   */
  lemma {:induction false} SweepKeepsDecisions(log: map<string, Entry>, sweepTime: int, ip: string, now: int)
    requires sweepTime <= now
    ensures Consume(Swept(log, sweepTime), ip, now).decision == Consume(log, ip, now).decision
    ensures Consume(Swept(log, sweepTime), ip, now).log[ip] == Consume(log, ip, now).log[ip]
  {
    var s := Swept(log, sweepTime);
    if ip in log && ip !in s {
      assert Expired(log[ip], now);
    }
  }

  /** The sweep keeps an entry that a request has just created or counted in. */
  lemma {:induction false} SweepKeepsFreshEntry(log: map<string, Entry>, ip: string, now: int)
    requires Consume(log, ip, now).decision.isAllowed
    ensures ip in Swept(Consume(log, ip, now).log, now)
  {
  }

  /** The sweep keeps the counts within 1..MaxRequests. */
  lemma {:induction false} SweptKeepsCountsBounded(log: map<string, Entry>, now: int)
    requires CountsBounded(log)
    ensures CountsBounded(Swept(log, now))
  {
  }
}
