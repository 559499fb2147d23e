/** The login manager as the object it is, and its device-code polling loop. */
module XaiLoginManagers {
  import opened Prelude
  import opened XaiTypes
  import opened XaiLogin

  class XaiLoginManager {
    var sessions: Sessions

    constructor ()
      ensures sessions == map[]
    {
      sessions := map[];
    }

    method StartLogin(x: string, expiresIn: int, now: int)
      modifies this
      ensures sessions == Opened(old(sessions), x, now + Clamped(expiresIn))
      ensures now < sessions[x].expiresAt <= now + 1800
    {
      var seconds := expiresIn;
      if seconds < 1 {
        seconds := 1;
      } else if seconds > 30 * 60 {
        seconds := 30 * 60;
      }
      sessions := sessions[x := Session(Waiting, None, None, now + seconds, false, None, false)];
    }

    /** Marks a session whose time is up, unless its account is being saved. */
    method ExpireIfDue(x: string, now: int)
      requires x in sessions
      modifies this
      ensures sessions == old(sessions)[x := Aged(old(sessions)[x], now)]
    {
      var ses := sessions[x];
      if ses.phase == Waiting && !ses.saving && !ses.committing && ses.pending.None? && now >= ses.expiresAt {
        ses := ses.(phase := Error, error := Some("xAI device login expired."));
      }
      sessions := sessions[x := ses];
    }

    /** The final answer is given once: it takes the session out of the map. */
    method PollLogin(x: string, now: int) returns (r: Option<PollClaim>)
      modifies this
      ensures sessions == Polled(old(sessions), x, now) && r == PollAnswer(old(sessions), x, now)
      ensures r.Some? <==> x in old(sessions)
      ensures r.Some? ==> Tells(r.value, old(sessions)[x], now)
    {
      if x !in sessions {
        return None;
      }
      ExpireIfDue(x, now);
      var ses := sessions[x];
      r := Some(Told(ses.phase, ses.error, ses.account));
      if ses.phase != Waiting && !ses.committing && ses.pending.None? {
        sessions := sessions - {x};
      }
    }

    method ClaimPreparedLogin(x: string, now: int) returns (r: Option<PollClaim>)
      modifies this
      ensures sessions == Claimed(old(sessions), x, now) && r == ClaimAnswer(old(sessions), x, now)
      ensures r.Some? <==> x in old(sessions)
      ensures r.Some? && old(sessions)[x].pending.None? ==> Tells(r.value, old(sessions)[x], now)
      ensures r.Some? && old(sessions)[x].pending.Some?
              ==> r.value == PreparedLogin(old(sessions)[x].pending.value)
                  && x in sessions && sessions[x].pending == old(sessions)[x].pending
                  && sessions[x].committing && sessions[x].saving
    {
      if x !in sessions {
        return None;
      }
      ExpireIfDue(x, now);
      var ses := sessions[x];
      if ses.pending.Some? {
        sessions := sessions[x := ses.(committing := true, saving := true)];
        return Some(PreparedLogin(ses.pending.value));
      }
      r := Some(Told(ses.phase, ses.error, ses.account));
      if ses.phase != Waiting && !ses.committing {
        sessions := sessions - {x};
      }
    }

    method CompleteLoginCommit(x: string, account: Id)
      modifies this
      ensures sessions == Completed(old(sessions), x, account)
    {
      if x in sessions {
        sessions := sessions[x := sessions[x].(phase := Success, error := None, account := Some(account),
                                               pending := None, committing := false, saving := false)];
      }
    }

    method FailLoginCommit(x: string, message: string)
      modifies this
      ensures sessions == Ruined(old(sessions), x, message)
    {
      if x in sessions {
        sessions := sessions[x := sessions[x].(phase := Error, error := Some(message), account := None,
                                               pending := None, committing := false, saving := false)];
      }
    }

    /** Refused once the account is being saved; cancelling an unknown session succeeds. */
    method CancelLogin(x: string) returns (ok: bool)
      modifies this
      ensures ok <==> CancelResult(old(sessions), x).Some?
      ensures sessions == if ok then CancelResult(old(sessions), x).value else old(sessions)
    {
      if x in sessions && (sessions[x].saving || sessions[x].committing || sessions[x].pending.Some?) {
        return false;
      }
      sessions := sessions - {x};
      return true;
    }

    method ClaimAccountSave(x: string, now: int, deadline: int) returns (claim: SaveClaim)
      modifies this
      ensures claim == SaveClaimOf(old(sessions), x, now, deadline)
      ensures sessions == SaveClaimed(old(sessions), x, now, deadline)
    {
      if x !in sessions {
        return Inactive;
      }
      if sessions[x].phase != Waiting || sessions[x].saving {
        return Inactive;
      }
      if now >= deadline || now >= sessions[x].expiresAt {
        return Late;
      }
      sessions := sessions[x := sessions[x].(saving := true)];
      return Acquired;
    }

    method PrepareSession(x: string, record: Record)
      modifies this
      ensures sessions == Prepared(old(sessions), x, record)
    {
      if x in sessions {
        sessions := sessions[x := sessions[x].(pending := Some(record), phase := Waiting, error := None,
                                               account := None, committing := false)];
      }
    }

    method SweepTerminalSession(x: string)
      modifies this
      ensures sessions == Swept(old(sessions), x)
    {
      if x in sessions && sessions[x].phase != Waiting {
        sessions := sessions - {x};
      }
    }
  }

  // ---------- polling the device endpoint ----------

  const DEFAULT_INTERVAL := 5
  const SLOW_DOWN_INCREMENT := 5
  const MAX_U64 := 0xFFFF_FFFF_FFFF_FFFF

  function SaturatingAdd(a: nat, b: nat): (r: nat)
    ensures r <= MAX_U64
  {
    if a + b > MAX_U64 then MAX_U64 else a + b
  }

  /** How many of the first `n` answers were slow_down. */
  function SlowDowns(answers: nat -> Answer, n: nat): nat {
    if n == 0 then 0 else SlowDowns(answers, n - 1) + if answers(n - 1).SlowDown? then 1 else 0
  }

  lemma SlowDownsBound(answers: nat -> Answer, n: nat)
    ensures SlowDowns(answers, n) <= n
  {
  }

  datatype End = Stopped | TimedOut | Denied(message: string) | Granted(record: Record)

  /** An answer that makes the loop go on. */
  predicate GoesOn(a: Answer) {
    a.Pending? || a.SlowDown?
  }

  /**
   The least distance of the next poll after `n` answers: 5 s, the provider's own interval, 5 s more per
   slow_down.
   */
  function Gap(answers: nat -> Answer, n: nat, deviceInterval: nat): nat {
    var asked := DEFAULT_INTERVAL + SLOW_DOWN_INCREMENT * SlowDowns(answers, n);
    if deviceInterval > asked then deviceInterval else asked
  }

  /** The times at which requests were sent are far enough apart and lie before the deadline. */
  ghost predicate PollsOk(
    polls: seq<real>, answers: nat -> Answer, deviceInterval: nat, started: real, deadline: real)
  {
    && (forall k: nat :: k < |polls| ==> started <= polls[k] < deadline)
    && (forall k: nat :: k + 1 < |polls| ==>
          polls[k + 1] - polls[k] >= Gap(answers, k + 1, deviceInterval) as real && GoesOn(answers(k)))
  }

  lemma PollsAscend(
    polls: seq<real>, answers: nat -> Answer, deviceInterval: nat, started: real, deadline: real, k: nat)
    requires PollsOk(polls, answers, deviceInterval, started, deadline) && k < |polls|
    ensures polls[k] >= started + (5 * k) as real
  {
    if k > 0 {
      PollsAscend(polls, answers, deviceInterval, started, deadline, k - 1);
      assert polls[k - 1 + 1] - polls[k - 1] >= Gap(answers, k, deviceInterval) as real;
    }
  }

  /** At 5 s and more apart, and all before the deadline, there are few of them. */
  lemma PollsAreFew(polls: seq<real>, answers: nat -> Answer, deviceInterval: nat, started: real, expiresIn: int)
    requires PollsOk(polls, answers, deviceInterval, started, started + Clamped(expiresIn) as real)
    ensures |polls| <= (Clamped(expiresIn) + 4) / 5 <= 360
  {
    if |polls| > 0 {
      PollsAscend(polls, answers, deviceInterval, started, started + Clamped(expiresIn) as real, |polls| - 1);
      assert 5 * (|polls| - 1) < Clamped(expiresIn);
    }
  }

  lemma AppendPoll(
    polls: seq<real>, answers: nat -> Answer, deviceInterval: nat, started: real, deadline: real, now: real)
    requires PollsOk(polls, answers, deviceInterval, started, deadline) && started <= now < deadline
    requires polls != [] ==> now - polls[|polls| - 1] >= Gap(answers, |polls|, deviceInterval) as real
                             && GoesOn(answers(|polls| - 1))
    ensures PollsOk(polls + [now], answers, deviceInterval, started, deadline)
  {
  }

  /**
   What a device login meets.  Times are in seconds.  The k-th request takes `latency(k)`, a sleep may last
   `jitter(k)` longer than asked for, and `alive(k)` tells whether the session still waits at the k-th look; there
   is one look before every request and one after it.
   */
  datatype Polling = Polling(
    expiresIn: int,
    deviceInterval: nat,
    started: real,
    answers: nat -> Answer,
    latency: nat -> real,
    jitter: nat -> real,
    alive: nat -> bool)
  {
    function Deadline(): real {
      started + Clamped(expiresIn) as real
    }

    /** The pause after `n` answers: the provider's interval, at least 5 s, and 5 s more per slow_down. */
    function Interval(n: nat): nat {
      var least := if deviceInterval > 5 then deviceInterval else 5;
      if least + 5 * SlowDowns(answers, n) > MAX_U64 then MAX_U64 else least + 5 * SlowDowns(answers, n)
    }

    /** When the loop comes round for the k-th time: after the pause, which never reaches past the deadline. */
    function Round(k: nat): real
      decreases k, 0
    {
      if k == 0 then started
      else
        var remaining := Deadline() - Replied(k - 1);
        Replied(k - 1) + (if remaining < Interval(k) as real then remaining else Interval(k) as real) + jitter(k - 1)
    }

    function Replied(k: nat): real
      decreases k, 1
    {
      Round(k) + latency(k)
    }

    /** The loop comes round for the k-th time with the session waiting and the deadline ahead. */
    predicate Sends(k: nat) {
      alive(2 * k) && Round(k) < Deadline()
    }

    /** After the k-th answer the session still waits, the deadline is ahead and nothing is decided. */
    predicate Goes(k: nat) {
      alive(2 * k + 1) && Replied(k) < Deadline() && GoesOn(answers(k))
    }
  }

  /** A request is sent each time the loop comes round with the session waiting and the deadline ahead. */
  ghost predicate EveryRound(c: Polling, polls: seq<real>) {
    && (forall k: nat :: k < |polls| ==> polls[k] == c.Round(k) && c.Sends(k))
    && (forall k: nat :: k + 1 < |polls| ==> c.Goes(k))
  }

  /** After `n` requests the loop ends for a reason, and for that one only. */
  predicate EndsRightly(c: Polling, n: nat, end: End) {
    match end
    case Stopped => (n > 0 && !c.alive(2 * n - 1)) || ((n > 0 ==> c.Goes(n - 1)) && !c.alive(2 * n))
    case TimedOut =>
      (n > 0 && c.alive(2 * n - 1) && c.Replied(n - 1) >= c.Deadline())
      || ((n > 0 ==> c.Goes(n - 1)) && c.alive(2 * n) && c.Round(n) >= c.Deadline())
    case Granted(record) =>
      n > 0 && c.alive(2 * n - 1) && c.Replied(n - 1) < c.Deadline() && c.answers(n - 1) == Authorized(record)
    case Denied(message) =>
      n > 0 && c.alive(2 * n - 1) && c.Replied(n - 1) < c.Deadline() && c.answers(n - 1) == Refused(message)
  }

  /**
   `run_device_login`.  `polls` are the times at which requests are sent: exactly one each time the loop comes
   round with the session waiting and the deadline ahead.  With s slow_down answers so far they are at least
   5 + 5 s seconds apart, none is sent at or after the deadline, and there are at most 360 of them.  The loop ends
   where a look finds that the session waits no longer, where the deadline has come, or with a final answer.
   */
  method RunDeviceLogin(c: Polling) returns (polls: seq<real>, end: End)
    requires c.deviceInterval <= MAX_U64
    requires forall k: nat :: c.latency(k) >= 0.0 && c.jitter(k) >= 0.0
    ensures PollsOk(polls, c.answers, c.deviceInterval, c.started, c.Deadline())
    ensures |polls| <= (Clamped(c.expiresIn) + 4) / 5 <= 360
    ensures EveryRound(c, polls) && EndsRightly(c, |polls|, end)
  {
    hide PollsOk, Gap, GoesOn, SaturatingAdd, Clamped, EveryRound, Polling.Round, Polling.Interval;
    var deadline := c.started + Clamped(c.expiresIn) as real;
    var now := c.started;
    var interval: nat := if c.deviceInterval > DEFAULT_INTERVAL then c.deviceInterval else DEFAULT_INTERVAL;
    polls := [];
    NothingPolled(c.answers, c.deviceInterval, c.started, deadline);
    PollsAreFew(polls, c.answers, c.deviceInterval, c.started, c.expiresIn);
    FirstRound(c);
    NoRound(c);
    var looks: nat := 0;
    while true
      invariant c.started <= now == c.Round(|polls|) && interval == c.Interval(|polls|) && looks == 2 * |polls|
      invariant PollsOk(polls, c.answers, c.deviceInterval, c.started, deadline)
      invariant |polls| <= (Clamped(c.expiresIn) + 4) / 5 <= 360
      invariant EveryRound(c, polls) && (polls != [] ==> c.Goes(|polls| - 1))
      invariant polls != [] ==> now >= deadline || now - polls[|polls| - 1] >= interval as real
      decreases 360 - |polls|
    {
      if !c.alive(looks) {
        return polls, Stopped;
      }
      if now >= deadline {
        return polls, TimedOut;
      }
      var k := |polls|;
      IntervalIsLongEnough(c, k);
      AppendPoll(polls, c.answers, c.deviceInterval, c.started, deadline, now);
      OneMoreRound(c, polls);
      polls := polls + [now];
      PollsAreFew(polls, c.answers, c.deviceInterval, c.started, c.expiresIn);
      now := now + c.latency(k);
      if !c.alive(looks + 1) {
        return polls, Stopped;
      }
      if now >= deadline {
        return polls, TimedOut;
      }
      GoingOn(c.answers(k));
      NextInterval(c, k);
      match c.answers(k) {
        case Pending =>
        case SlowDown =>
          interval := SaturatingAdd(interval, SLOW_DOWN_INCREMENT);
        case Authorized(record) =>
          return polls, Granted(record);
        case Refused(message) =>
          return polls, Denied(message);
      }
      var remaining := deadline - now;
      NextRound(c, k);
      now := now + (if remaining < interval as real then remaining else interval as real) + c.jitter(k);
      looks := looks + 2;
    }
  }

  lemma NoRound(c: Polling)
    ensures EveryRound(c, [])
  {
  }

  lemma OneMoreRound(c: Polling, polls: seq<real>)
    requires EveryRound(c, polls) && (polls != [] ==> c.Goes(|polls| - 1))
    requires c.Sends(|polls|)
    ensures EveryRound(c, polls + [c.Round(|polls|)])
  {
    hide Polling.Round, Polling.Goes, Polling.Sends;
    var next := polls + [c.Round(|polls|)];
    forall k: nat | k < |next| ensures next[k] == c.Round(k) && c.Sends(k) {
      assert k < |polls| ==> next[k] == polls[k];
    }
    forall k: nat | k + 1 < |next| ensures c.Goes(k) {
      assert k + 1 < |polls| || k == |polls| - 1;
    }
  }

  lemma FirstRound(c: Polling)
    ensures c.Round(0) == c.started
    ensures c.deviceInterval <= MAX_U64
            ==> c.Interval(0) == if c.deviceInterval > DEFAULT_INTERVAL then c.deviceInterval else DEFAULT_INTERVAL
  {
  }

  lemma NextRound(c: Polling, k: nat)
    ensures var remaining := c.Deadline() - c.Replied(k);
            c.Round(k + 1)
            == c.Replied(k) + (if remaining < c.Interval(k + 1) as real then remaining else c.Interval(k + 1) as real)
               + c.jitter(k)
  {
  }

  lemma NextInterval(c: Polling, k: nat)
    ensures c.Interval(k + 1)
            == if c.answers(k).SlowDown? then SaturatingAdd(c.Interval(k), SLOW_DOWN_INCREMENT) else c.Interval(k)
  {
  }

  /** No poll comes sooner than the slow_down rule allows. */
  lemma IntervalIsLongEnough(c: Polling, n: nat)
    requires n <= 360 && c.deviceInterval <= MAX_U64
    ensures Gap(c.answers, n, c.deviceInterval) <= c.Interval(n)
  {
    SlowDownsBound(c.answers, n);
  }

  lemma NothingPolled(answers: nat -> Answer, deviceInterval: nat, started: real, deadline: real)
    ensures PollsOk([], answers, deviceInterval, started, deadline)
    ensures Gap(answers, 0, deviceInterval)
            == if deviceInterval > DEFAULT_INTERVAL then deviceInterval else DEFAULT_INTERVAL
  {
  }

  lemma GoingOn(a: Answer)
    ensures GoesOn(a) <==> a.Pending? || a.SlowDown?
  {
  }
}
