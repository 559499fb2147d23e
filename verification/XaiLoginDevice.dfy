/**
 The life of one xAI device login: what its background task decides at each turn, what starting, cancelling
 and cleaning up do to its session, and a run in which a login goes from start to end.
 */
module XaiLoginDevice {
  import opened Prelude
  import opened XaiLogin
  import opened XaiTypes

  predicate Waits(s: State, x: string) {
    x in s.sessions && s.sessions[x].phase == Waiting
  }

  /** The step moves the background task of `x`, and leaves the sessions alone. */
  predicate Turns(s: State, s': State, x: string, next: Device) {
    s' == s.(devices := s.devices[x := next])
  }

  /** Before it asks, after it is answered and before it sleeps on, the task looks at the session and the clock. */
  lemma LooksDecide(s: State, s': State, x: string)
    requires Next(s, Device(x), s') && (s.devices[x].Checking? || s.devices[x].Answered? || s.devices[x].Sleeping?)
    ensures var late := s.deadlines[x] <= s.now;
            match s.devices[x]
            case Checking =>
              Turns(s, s', x, if !Waits(s, x) then Ended
                              else if late then Failing("xAI device login expired.") else Asking)
            case Sleeping => Turns(s, s', x, if late then Failing("xAI device login expired.") else Checking)
            case Answered(answer) =>
              if !Waits(s, x) then Turns(s, s', x, Ended)
              else if late then Turns(s, s', x, Failing("xAI device login expired."))
              else (match answer
                    case Authorized(record) => Turns(s, s', x, Saving(record))
                    case Refused(message) => Turns(s, s', x, Failing(message))
                    case _ => Turns(s, s', x, Sleeping))
  {
    hide Polled, Claimed, Completed, Ruined, CancelResult, Swept, Aged, SaveClaimed, Prepared, Opened;
  }

  /**
   An authorized task may save exactly when its session waits, nobody has claimed the save yet and neither
   deadline has come; it is told that the login expired exactly when only time stands in its way.
   */
  lemma SaveDecides(s: State, s': State, x: string, record: Record)
    requires Next(s, Device(x), s') && s.devices[x] == Saving(record)
    ensures if !Waits(s, x) || s.sessions[x].saving then Turns(s, s', x, Ended)
            else if s.deadlines[x] <= s.now || s.sessions[x].expiresAt <= s.now then
              Turns(s, s', x, Failing("xAI device login expired."))
            else
              s' == s.(devices := s.devices[x := Preparing(record)],
                       sessions := s.sessions[x := s.sessions[x].(saving := true)])
  {
    hide Polled, Claimed, Completed, Ruined, CancelResult, Swept, Aged, Prepared, Opened;
  }

  /** The task leaves the credential, or its error, in the session and ends. */
  lemma EndsDecide(s: State, s': State, x: string)
    requires Next(s, Device(x), s') && (s.devices[x].Preparing? || s.devices[x].Failing?)
    ensures s' == s.(devices := s.devices[x := Ended], sessions := s'.sessions)
    ensures x !in s.sessions ==> s'.sessions == s.sessions
    ensures x in s.sessions && s.devices[x].Preparing? ==>
              var ses := s.sessions[x];
              s'.sessions == s.sessions[x := Session(Waiting, None, None, ses.expiresAt, ses.saving,
                                                     Some(s.devices[x].record), false)]
    ensures x in s.sessions && s.devices[x].Failing? ==>
              s'.sessions == s.sessions[x := Session(Error, Some(s.devices[x].message), None,
                                                     s.sessions[x].expiresAt, false, None, false)]
  {
    hide Polled, Claimed, Completed, CancelResult, Swept, Aged, SaveClaimed, Opened;
  }

  /** A new session waits for as long as the provider says, but at least a second and at most half an hour. */
  lemma StartDecides(s: State, s': State, x: string, expiresIn: int)
    requires Next(s, Start(x, expiresIn), s')
    ensures x in s'.sessions && x in s'.deadlines && x in s'.devices && s'.devices[x].Checking?
    ensures var until := s'.deadlines[x];
            && s'.sessions == s.sessions[x := Session(Waiting, None, None, until, false, None, false)]
            && (1 <= expiresIn <= 1800 ==> until == s.now + expiresIn)
            && (expiresIn < 1 ==> until == s.now + 1) && (expiresIn > 1800 ==> until == s.now + 1800)
  {
  }

  /** A login can be cancelled exactly as long as no account of it is being saved. */
  lemma CancelDecides(s: State, x: string)
    ensures CancelResult(s.sessions, x).Some? <==>
              !(x in s.sessions
                && (s.sessions[x].saving || s.sessions[x].committing || s.sessions[x].pending.Some?))
    ensures CancelResult(s.sessions, x).Some? ==>
              Next(s, Cancel(x), s.(sessions := s.sessions - {x}))
  {
    hide Polled, Claimed, Completed, Ruined, Swept, Aged, SaveClaimed, Prepared, Opened, DeviceAfter, SessionsAfter;
  }

  /** The clean-up takes a session away exactly when it is finished. */
  lemma SweepDecides(s: State, s': State, x: string)
    requires Next(s, Sweep(x), s')
    ensures s'.sessions == if x in s.sessions && !Waits(s, x) then s.sessions - {x} else s.sessions
  {
    hide Polled, Claimed, Completed, Ruined, CancelResult, Aged, SaveClaimed, Prepared, Opened, DeviceAfter,
      SessionsAfter;
  }

  // ---------- a login from start to end ----------

  /** One login: its name, how long it may take, what the provider grants, and the account it becomes. */
  datatype Login = Login(x: string, expiresIn: int, record: Record, account: Id, now: int) {
    function Until(): int {
      now + Clamped(expiresIn)
    }

    function At(sessions: Sessions, device: Device, worker: Worker): State {
      State(sessions, map[x := device], map[x := Until()], worker, now)
    }

    function Opened(device: Device): State {
      At(map[x := Session(Waiting, None, None, Until(), false, None, false)], device, Idle)
    }

    function Claimed(device: Device): State {
      At(map[x := Session(Waiting, None, None, Until(), true, None, false)], device, Idle)
    }

    function Prepared(committing: bool, worker: Worker): State {
      At(map[x := Session(Waiting, None, None, Until(), true, Some(record), committing)], Ended, worker)
    }

    function Finished(): State {
      At(map[x := Session(Success, None, Some(account), Until(), false, None, false)], Ended, Idle)
    }
  }

  lemma Opens(l: Login)
    ensures Next(State(map[], map[], map[], Idle, l.now), Start(l.x, l.expiresIn), l.Opened(Checking))
    ensures Next(l.Opened(Checking), Device(l.x), l.Opened(Asking))
  {
  }

  lemma IsAuthorized(l: Login)
    ensures Next(l.Opened(Asking), Reply(l.x, Authorized(l.record)), l.Opened(Answered(Authorized(l.record))))
    ensures Next(l.Opened(Answered(Authorized(l.record))), Device(l.x), l.Opened(Saving(l.record)))
  {
  }

  lemma IsPrepared(l: Login)
    ensures Next(l.Opened(Saving(l.record)), Device(l.x), l.Claimed(Preparing(l.record)))
    ensures Next(l.Claimed(Preparing(l.record)), Device(l.x), l.Prepared(false, Idle))
  {
    assert l.Opened(Saving(l.record)).sessions[l.x := Session(Waiting, None, None, l.Until(), true, None, false)]
           == l.Claimed(Preparing(l.record)).sessions;
  }

  lemma IsCommitted(l: Login)
    ensures var told := Some(PreparedLogin(l.record));
            Next(l.Prepared(false, Idle), Claim(l.x, told), l.Prepared(true, Committing(l.x, l.record)))
    ensures Next(l.Prepared(true, Committing(l.x, l.record)), Complete(l.account), l.Finished())
    ensures Next(l.Finished(), Poll(l.x, Some(Told(Success, None, Some(l.account)))),
                 l.Finished().(sessions := map[]))
  {
  }

  /**
   For every credential the provider may grant and every account it may become, a login can run from its start to
   the poll that is told of the success and the account.
   */
  lemma LoginSucceeds(l: Login) returns (states: seq<State>, labels: seq<Label>)
    ensures IsRun(states, labels) && |labels| == 9
    ensures labels[0] == Start(l.x, l.expiresIn) && labels[2] == Reply(l.x, Authorized(l.record))
    ensures labels[6] == Claim(l.x, Some(PreparedLogin(l.record))) && labels[7] == Complete(l.account)
    ensures labels[8] == Poll(l.x, Some(Told(Success, None, Some(l.account))))
  {
    hide Next;
    Opens(l);
    IsAuthorized(l);
    IsPrepared(l);
    IsCommitted(l);
    states := [State(map[], map[], map[], Idle, l.now), l.Opened(Checking), l.Opened(Asking),
               l.Opened(Answered(Authorized(l.record))), l.Opened(Saving(l.record)), l.Claimed(Preparing(l.record)),
               l.Prepared(false, Idle), l.Prepared(true, Committing(l.x, l.record)), l.Finished(),
               l.Finished().(sessions := map[])];
    labels := [Start(l.x, l.expiresIn), Device(l.x), Reply(l.x, Authorized(l.record)), Device(l.x), Device(l.x),
               Device(l.x), Claim(l.x, Some(PreparedLogin(l.record))), Complete(l.account),
               Poll(l.x, Some(Told(Success, None, Some(l.account))))];
  }
}
