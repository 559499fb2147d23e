/**
 Device login sessions of xAI.  Start, poll, claim, commit, cancel, expiry and cleanup share one map of
 sessions; every section below runs under its write lock.  A background task per session polls the
 provider and prepares the credential; a worker that serves one request at a time commits it.
 */
module XaiLogin {
  import opened Prelude
  import opened XaiTypes

  datatype Phase = Waiting | Success | Error

  datatype Session = Session(
    phase: Phase,
    error: Option<string>,
    account: Option<Id>,
    expiresAt: int,
    saving: bool,
    pending: Option<Record>,
    committing: bool)

  type Sessions = map<string, Session>

  const EXPIRED := "xAI device login expired."
  const MAX_LOGIN := 30 * 60

  function Clamped(expiresIn: int): int {
    if expiresIn < 1 then 1 else if expiresIn > MAX_LOGIN then MAX_LOGIN else expiresIn
  }

  /** What a poll is answered: how the login stands, or the credential prepared for the caller to commit. */
  datatype PollClaim = Told(phase: Phase, error: Option<string>, account: Option<Id>) | PreparedLogin(record: Record)

  // ---------- the sections, as functions of the session map ----------

  function Opened(m: Sessions, x: string, expiresAt: int): Sessions {
    m[x := Session(Waiting, None, None, expiresAt, false, None, false)]
  }

  /** A session nobody is saving or committing expires at its deadline. */
  function Aged(ses: Session, now: int): Session {
    if ses.phase == Waiting && !ses.saving && !ses.committing && ses.pending.None? && now >= ses.expiresAt
    then ses.(phase := Error, error := Some(EXPIRED)) else ses
  }

  function Polled(m: Sessions, x: string, now: int): Sessions {
    if x !in m then m
    else
      var ses := Aged(m[x], now);
      if ses.phase != Waiting && !ses.committing && ses.pending.None? then m - {x} else m[x := ses]
  }

  /** The claim copies the prepared credential; only complete or fail take it out. */
  function Claimed(m: Sessions, x: string, now: int): Sessions {
    if x !in m then m
    else
      var ses := Aged(m[x], now);
      if ses.pending.Some? then m[x := ses.(committing := true, saving := true)]
      else if ses.phase != Waiting && !ses.committing then m - {x}
      else m[x := ses]
  }

  /** The answer of a poll; None is the error for a session that is not there. */
  function PollAnswer(m: Sessions, x: string, now: int): Option<PollClaim> {
    if x !in m then None
    else
      var ses := Aged(m[x], now);
      Some(Told(ses.phase, ses.error, ses.account))
  }

  function ClaimAnswer(m: Sessions, x: string, now: int): Option<PollClaim> {
    if x in m && m[x].pending.Some? then Some(PreparedLogin(m[x].pending.value)) else PollAnswer(m, x, now)
  }

  /**
   The answer tells how the session stands, over its fields: a session that waits, with nobody saving or
   committing and nothing prepared, has failed once its time is up; any other is told exactly as it is.
   */
  predicate Tells(told: PollClaim, ses: Session, now: int) {
    told.Told? &&
    if ses.phase == Waiting && !ses.saving && !ses.committing && ses.pending.None? && ses.expiresAt <= now then
      told.phase == Error && told.error == Some("xAI device login expired.") && told.account == ses.account
    else
      told.phase == ses.phase && told.error == ses.error && told.account == ses.account
  }

  lemma AnswersTell(m: Sessions, x: string, now: int)
    ensures PollAnswer(m, x, now).Some? <==> x in m
    ensures ClaimAnswer(m, x, now).Some? <==> x in m
    ensures x in m ==> Tells(PollAnswer(m, x, now).value, m[x], now)
    ensures x in m && m[x].pending.None? ==> Tells(ClaimAnswer(m, x, now).value, m[x], now)
    ensures x in m && m[x].pending.Some? ==> ClaimAnswer(m, x, now) == Some(PreparedLogin(m[x].pending.value))
  {
  }

  /** `m'` is `m`, but for the phase and error of the session `x`, which are those told. */
  predicate Keeps(m: Sessions, m': Sessions, x: string, told: PollClaim) {
    told.Told? && x in m && x in m' && m' == m[x := m[x].(phase := told.phase, error := told.error)]
  }

  /** A poll that tells the end removes the session, unless its commit is under way; any other keeps it as told. */
  lemma PollsRemove(m: Sessions, x: string, now: int)
    requires x in m
    ensures var told := PollAnswer(m, x, now).value;
            if told.phase != Waiting && !m[x].committing && m[x].pending.None? then Polled(m, x, now) == m - {x}
            else Keeps(m, Polled(m, x, now), x, told)
    ensures m[x].pending.None? ==>
              var told := ClaimAnswer(m, x, now).value;
              if told.phase != Waiting && !m[x].committing then Claimed(m, x, now) == m - {x}
              else Keeps(m, Claimed(m, x, now), x, told)
    ensures m[x].pending.Some? ==> Claimed(m, x, now) == m[x := m[x].(committing := true, saving := true)]
  {
  }

  function Completed(m: Sessions, x: string, account: Id): Sessions {
    if x in m then m[x := Session(Success, None, Some(account), m[x].expiresAt, false, None, false)] else m
  }

  /** `fail_login_commit` and `fail_session`. */
  function Ruined(m: Sessions, x: string, message: string): Sessions {
    if x in m then m[x := Session(Error, Some(message), None, m[x].expiresAt, false, None, false)] else m
  }

  /** None when the login is already completing. */
  function CancelResult(m: Sessions, x: string): Option<Sessions> {
    if x in m && (m[x].saving || m[x].committing || m[x].pending.Some?) then None else Some(m - {x})
  }

  datatype SaveClaim = Acquired | Inactive | Late

  function SaveClaimOf(m: Sessions, x: string, now: int, deadline: int): SaveClaim {
    if x !in m || m[x].phase != Waiting || m[x].saving then Inactive
    else if now >= deadline || now >= m[x].expiresAt then Late
    else Acquired
  }

  function SaveClaimed(m: Sessions, x: string, now: int, deadline: int): Sessions {
    if SaveClaimOf(m, x, now, deadline) == Acquired then m[x := m[x].(saving := true)] else m
  }

  function Prepared(m: Sessions, x: string, record: Record): Sessions {
    if x in m
    then m[x := m[x].(pending := Some(record), phase := Waiting, error := None, account := None, committing := false)]
    else m
  }

  function Swept(m: Sessions, x: string): Sessions {
    if x in m && m[x].phase != Waiting then m - {x} else m
  }

  // ---------- the machine ----------

  datatype Answer = Pending | SlowDown | Authorized(record: Record) | Refused(message: string)

  /** The background task of one session, between its awaits. */
  datatype Device =
    | Checking
    | Asking
    | Answered(answer: Answer)
    | Saving(record: Record)
    | Preparing(record: Record)
    | Failing(message: string)
    | Sleeping
    | Ended

  datatype Worker = Idle | Committing(x: string, record: Record)

  datatype State = State(
    sessions: Sessions,
    devices: map<string, Device>,
    deadlines: map<string, int>,
    worker: Worker,
    now: int)

  datatype Label =
    | Start(x: string, expiresIn: int)
    | Poll(x: string, told: Option<PollClaim>)
    | Claim(x: string, told: Option<PollClaim>)
    | Complete(account: Id)
    | Fail(message: string)
    | Abandon
    | Cancel(x: string)
    | Sweep(x: string)
    | Device(x: string)
    | Reply(x: string, answer: Answer)
    | Die(x: string)
    | Tick(seconds: nat)

  predicate IsWaiting(m: Sessions, x: string) {
    x in m && m[x].phase == Waiting
  }

  function DeviceAfter(s: State, x: string): Device
    requires x in s.devices && x in s.deadlines
  {
    var late := s.now >= s.deadlines[x];
    match s.devices[x]
    case Checking => if !IsWaiting(s.sessions, x) then Ended else if late then Failing(EXPIRED) else Asking
    case Answered(answer) =>
      if !IsWaiting(s.sessions, x) then Ended
      else if late then Failing(EXPIRED)
      else (match answer
            case Pending => Sleeping
            case SlowDown => Sleeping
            case Authorized(record) => Saving(record)
            case Refused(message) => Failing(message))
    case Saving(record) =>
      (match SaveClaimOf(s.sessions, x, s.now, s.deadlines[x])
       case Acquired => Preparing(record)
       case Inactive => Ended
       case Late => Failing(EXPIRED))
    case Sleeping => if late then Failing(EXPIRED) else Checking
    case Preparing(_) => Ended
    case Failing(_) => Ended
    case d => d
  }

  function SessionsAfter(s: State, x: string): Sessions
    requires x in s.devices && x in s.deadlines
  {
    match s.devices[x]
    case Saving(_) => SaveClaimed(s.sessions, x, s.now, s.deadlines[x])
    case Preparing(record) => Prepared(s.sessions, x, record)
    case Failing(message) => Ruined(s.sessions, x, message)
    case _ => s.sessions
  }

  /** Names of sessions are random and never used twice. */
  predicate Next(s: State, l: Label, s': State) {
    match l
    case Start(x, expiresIn) =>
      x !in s.devices && x !in s.sessions
      && s' == s.(sessions := Opened(s.sessions, x, s.now + Clamped(expiresIn)),
                  devices := s.devices[x := Checking],
                  deadlines := s.deadlines[x := s.now + Clamped(expiresIn)])
    case Poll(x, told) =>
      told == PollAnswer(s.sessions, x, s.now) && s' == s.(sessions := Polled(s.sessions, x, s.now))
    // whoever is handed a credential goes on to commit it
    case Claim(x, told) =>
      s.worker.Idle? && told == ClaimAnswer(s.sessions, x, s.now)
      && s' == s.(sessions := Claimed(s.sessions, x, s.now),
                  worker := if told.Some? && told.value.PreparedLogin? then Committing(x, told.value.record) else Idle)
    case Complete(account) =>
      s.worker.Committing? && s' == s.(sessions := Completed(s.sessions, s.worker.x, account), worker := Idle)
    case Fail(message) =>
      s.worker.Committing? && s' == s.(sessions := Ruined(s.sessions, s.worker.x, message), worker := Idle)
    // the claimer is dropped before it completes or fails
    case Abandon => s.worker.Committing? && s' == s.(worker := Idle)
    case Cancel(x) =>
      CancelResult(s.sessions, x).Some? && s' == s.(sessions := CancelResult(s.sessions, x).value)
    case Sweep(x) => s' == s.(sessions := Swept(s.sessions, x))
    case Device(x) =>
      x in s.devices && x in s.deadlines && !s.devices[x].Asking?
      && s' == s.(sessions := SessionsAfter(s, x), devices := s.devices[x := DeviceAfter(s, x)])
    case Reply(x, answer) =>
      x in s.devices && s.devices[x].Asking? && s' == s.(devices := s.devices[x := Answered(answer)])
    // aborted, which may happen at any await
    case Die(x) => x in s.devices && s' == s.(devices := s.devices[x := Ended])
    case Tick(seconds) => s' == s.(now := s.now + seconds)
  }

  predicate Init(s: State) {
    s.sessions == map[] && s.devices == map[] && s.deadlines == map[] && s.worker.Idle?
  }

  predicate IsRun(states: seq<State>, labels: seq<Label>) {
    |states| == |labels| + 1 && Init(states[0])
    && forall i :: 0 <= i < |labels| ==> Next(states[i], labels[i], states[i + 1])
  }

  // ---------- the invariant ----------

  predicate SessionOk(s: State, x: string)
    requires x in s.sessions
  {
    var ses := s.sessions[x];
    && x in s.devices && x in s.deadlines && ses.expiresAt == s.deadlines[x]
    && (ses.phase == Waiting ==> ses.error.None? && ses.account.None?)
    && (ses.phase != Waiting ==> !ses.saving && ses.pending.None? && !ses.committing && s.devices[x].Ended?)
    && (ses.pending.Some? ==> ses.saving && s.devices[x].Ended?)
    && (ses.committing ==> ses.pending.Some?)
    && (ses.saving && ses.pending.None? ==> s.devices[x].Preparing? || s.devices[x].Ended?)
  }

  /** All that concerns the session `x`. */
  ghost predicate OkFor(s: State, x: string) {
    && (x in s.sessions ==> SessionOk(s, x))
    && (x in s.devices ==> x in s.deadlines)
    && (x in s.devices && s.devices[x].Preparing? ==> x in s.sessions && s.sessions[x].saving)
    && (s.worker.Committing? && s.worker.x == x ==>
          x in s.sessions && s.sessions[x].committing && s.sessions[x].pending == Some(s.worker.record))
  }

  ghost predicate Inv(s: State) {
    forall x :: OkFor(s, x)
  }

  /** A step that concerns `x` only. */
  ghost predicate Elsewhere(s: State, s': State, x: string) {
    && (s'.worker == s.worker || s'.worker.Idle? || s'.worker.x == x)
    && forall y :: y != x ==> Get(s'.sessions, y) == Get(s.sessions, y) && Get(s'.devices, y) == Get(s.devices, y)
                              && Get(s'.deadlines, y) == Get(s.deadlines, y)
  }

  lemma FrameKeepsInv(s: State, s': State, x: string)
    requires Inv(s) && Elsewhere(s, s', x) && OkFor(s', x)
    ensures Inv(s')
  {
    forall y ensures OkFor(s', y) {
      if y != x {
        assert OkFor(s, y);
        assert Get(s'.sessions, y) == Get(s.sessions, y) && Get(s'.devices, y) == Get(s.devices, y);
      }
    }
  }

  lemma RequestsKeepOk(s: State, l: Label, s': State, x: string)
    requires OkFor(s, x) && Next(s, l, s')
    requires (l.Poll? && l.x == x) || (l.Claim? && l.x == x) || l == Cancel(x) || l == Sweep(x)
             || ((l.Complete? || l.Fail?) && s.worker == Committing(x, s.worker.record))
    ensures OkFor(s', x) && Elsewhere(s, s', x)
  {
    hide Opened, SaveClaimed, Prepared, DeviceAfter, SessionsAfter, Clamped;
  }

  lemma DevicesKeepOk(s: State, l: Label, s': State, x: string)
    requires OkFor(s, x) && Next(s, l, s') && (l == Device(x) || (l.Reply? && l.x == x) || l == Die(x))
    ensures OkFor(s', x) && Elsewhere(s, s', x)
  {
    hide Opened, Polled, Claimed, Completed, CancelResult, Swept, Aged, Clamped;
  }

  lemma StartsKeepOk(s: State, l: Label, s': State, x: string)
    requires OkFor(s, x) && Next(s, l, s') && l.Start? && l.x == x
    ensures OkFor(s', x) && Elsewhere(s, s', x)
  {
  }

  function Concerns(s: State, l: Label): Option<string> {
    match l
    case Tick(_) => None
    case Abandon => None
    case Complete(_) => if s.worker.Committing? then Some(s.worker.x) else None
    case Fail(_) => if s.worker.Committing? then Some(s.worker.x) else None
    case _ => Some(l.x)
  }

  lemma StepKeepsInv(s: State, l: Label, s': State)
    requires Inv(s) && Next(s, l, s')
    ensures Inv(s') && (Concerns(s, l).Some? ==> Elsewhere(s, s', Concerns(s, l).value))
  {
    hide Opened, Polled, Claimed, Completed, Ruined, CancelResult, Swept, Aged, SaveClaimed, Prepared, DeviceAfter,
      SessionsAfter, Clamped;
    match Concerns(s, l)
    case None =>
      forall x ensures OkFor(s', x) {
        assert OkFor(s, x);
      }
    case Some(x) =>
      assert OkFor(s, x);
      if l.Start? {
        StartsKeepOk(s, l, s', x);
      } else if l.Device? || l.Reply? || l.Die? {
        DevicesKeepOk(s, l, s', x);
      } else {
        RequestsKeepOk(s, l, s', x);
      }
      FrameKeepsInv(s, s', x);
  }

  lemma {:induction false} RunKeepsInv(states: seq<State>, labels: seq<Label>, i: nat)
    requires IsRun(states, labels) && i < |states|
    ensures Inv(states[i])
  {
    hide Next;
    if i > 0 {
      RunKeepsInv(states, labels, i - 1);
      assert Next(states[i - 1], labels[i - 1], states[i - 1 + 1]);
      StepKeepsInv(states[i - 1], labels[i - 1], states[i]);
    }
  }
}
