/**
 What daemon/connection.cpp promises case by case, with the intervals and limits
 written out: when it tries again, how often before it calls itself slow, what it
 makes of each report and error, and when it gives up the process it has.
 */
module ConnectionPromises {
  import opened Common
  import opened ConnectionProtocol
  import CR = ConnectionRuns

  // ---------- When the next attempt comes ----------

  /** One attempt is to come: the given time after the last launch, or at once if that time has passed. */
  predicate TriesAgain(c: Conn, d: Conn, now: int, nanoseconds: int) {
    if now < c.lastLaunch + nanoseconds
    then d.interval == Some(c.lastLaunch + nanoseconds) && d.posted == c.posted
    else d.interval == c.interval && d.posted == c.posted + 1
  }

  /** After an exit the next attempt is spaced by 30 seconds while the connection is slow, else by one second. */
  lemma ExitTriesAgain(c: Conn, now: int, pid: nat)
    requires c.process == Some(pid)
    ensures var d := OnOpenVPNExited(c, now, pid);
      && d.process.None? && d.lastLaunch == c.lastLaunch
      && (c.state == STILL_CONNECTING || c.state == STILL_RECONNECTING ==>
            d.state == c.state && TriesAgain(c, d, now, 30_000_000_000))
      && (c.state == CONNECTING || c.state == RECONNECTING ==>
            d.state == c.state && TriesAgain(c, d, now, 1_000_000_000))
      && (c.state == INTERRUPTED ==> d.state == RECONNECTING && TriesAgain(c, d, now, 1_000_000_000))
      && (c.state == DISCONNECTING_TO_RECONNECT ==> d.state == CONNECTING && TriesAgain(c, d, now, 1_000_000_000))
      && (c.state == CONNECTED ==> d.state == INTERRUPTED && d.posted == c.posted + 1 && d.interval == c.interval)
      && (c.state == DISCONNECTING ==> d.state == DISCONNECTED && d.posted == c.posted && d.interval.None?)
      && (c.state == DISCONNECTED ==> d.state == DISCONNECTED && d.posted == c.posted && d.interval == c.interval)
  {
  }

  /** The exit of a process that is not owned any more does nothing. */
  lemma OtherExitIgnored(c: Conn, now: int, pid: nat)
    requires c.process != Some(pid)
    ensures OnOpenVPNExited(c, now, pid) == c
  {
  }

  /** Between two processes only; a second after the last launch while the connection is not slow. */
  predicate TimerFits(c: Conn) {
    c.interval.Some? ==>
      match c.state
      case CONNECTING | RECONNECTING => c.interval.value == c.lastLaunch + 1_000_000_000
      case STILL_CONNECTING | STILL_RECONNECTING =>
        c.interval.value == c.lastLaunch + 1_000_000_000 || c.interval.value == c.lastLaunch + 30_000_000_000
      case _ => false
  }

  lemma ReportFits(c: Conn, now: int, o: OpenVPNState)
    requires TimerFits(c)
    ensures TimerFits(SetOpenVPNState(c, now, o))
  {
  }

  lemma UserFits(c: Conn, force: bool, mismatch: bool)
    requires TimerFits(c)
    ensures TimerFits(Connect(c, force, mismatch).0) && TimerFits(Disconnect(c))
  {
  }

  lemma DoConnectFits(c: Conn, now: int, changed: bool)
    requires TimerFits(c)
    ensures TimerFits(DoConnect(c, now, changed))
  {
    hide Resume, Launch;
    CR.ResumeOutcome(c);
    if Resume(c).Some? {
      ResumeFits(c);
      LaunchDisarms(Resume(c).value, now, changed);
    }
  }

  lemma ResumeFits(c: Conn)
    requires TimerFits(c) && Resume(c).Some?
    ensures TimerFits(Resume(c).value)
  {
  }

  lemma LaunchDisarms(c: Conn, now: int, changed: bool)
    ensures Launch(c, now, changed).interval.None?
  {
  }

  lemma StepFits(c: Conn, e: Event)
    requires TimerFits(c) && Enabled(c, e)
    ensures TimerFits(Step(c, e))
  {
    hide Connect, Disconnect, DoConnect, SetOpenVPNState;
    match e
    case UserConnect(force, mismatch) => UserFits(c, force, mismatch);
    case UserDisconnect => UserFits(c, false, false);
    case PostedRuns(now, changed) => DoConnectFits(c.(posted := c.posted - 1), now, changed);
    case StateLine(now, _, o, _) => ReportFits(c, now, o);
    case ProcessExits(now, _) => ReportFits(c.(process := None, exits := c.exits + 1), now, OPENVPN_EXITED);
    case _ =>
  }

  lemma {:induction false} RunFits(c: Conn, es: seq<Event>)
    requires TimerFits(c) && ValidRun(c, es)
    ensures TimerFits(Run(c, es))
    decreases |es|
  {
    if es != [] {
      hide Step, Enabled;
      StepFits(c, es[0]);
      RunFits(Step(c, es[0]), es[1..]);
    }
  }

  /** Over every run: the timer is armed only in the four trying states, and exactly one second after the last
      launch in CONNECTING and RECONNECTING. */
  lemma TimerOverRuns(es: seq<Event>)
    requires ValidRun(Created, es)
    ensures var c := Run(Created, es);
      && (c.state == CONNECTING || c.state == RECONNECTING ==>
            c.interval.None? || c.interval.value == c.lastLaunch + 1_000_000_000)
      && (c.interval.Some? ==>
            (c.state == CONNECTING || c.state == RECONNECTING
             || c.state == STILL_CONNECTING || c.state == STILL_RECONNECTING))
  {
    RunFits(Created, es);
    hide Run, ValidRun;
  }

  // ---------- What a launch does ----------

  /** A launch is reported with its number, counts from one again after changed settings, times the first
      attempt, and makes the connection slow from the 51st attempt on. */
  lemma LaunchOutcome(c: Conn, now: int, changed: bool)
    requires c.process.None? && c.attempts < 0xFFFF_FFFF
    requires c.state != CONNECTED && c.state != INTERRUPTED
    requires c.state != DISCONNECTED && c.state != DISCONNECTING && c.state != DISCONNECTING_TO_RECONNECT
    ensures var d, n := DoConnect(c, now, changed), if changed then 1 else c.attempts + 1;
      && d.process == Some(c.launches) && d.launches == c.launches + 1 && d.signals == 0
      && d.attempts == n && d.lastLaunch == now && d.interval.None? && !d.needsReconnect
      && d.openvpn == c.openvpn && d.posted == c.posted && d.exits == c.exits
      && |d.log| > |c.log| && d.log[..|c.log|] == c.log && d.log[|c.log|] == Attempt(n)
      && (c.state == CONNECTING ==> d.state == (if n > 50 then STILL_CONNECTING else CONNECTING))
      && (c.state == RECONNECTING ==> d.state == (if n > 50 then STILL_RECONNECTING else RECONNECTING))
      && (c.state == STILL_CONNECTING || c.state == STILL_RECONNECTING ==> d.state == c.state)
      && d.slowWaits == c.slowWaits + (if n == 1 && (c.state == CONNECTING || c.state == RECONNECTING) then 1 else 0)
  {
  }

  /** An attempt that starts over counts from one again; one that is no longer wanted does nothing. */
  lemma AttemptStartsOver(c: Conn, now: int, changed: bool)
    requires c.process.None?
    ensures var d := DoConnect(c, now, changed);
      && (c.state == INTERRUPTED ==> d.state == RECONNECTING && d.attempts == 1 && d.launches == c.launches + 1)
      && (c.state == DISCONNECTING_TO_RECONNECT || c.state == DISCONNECTED ==>
            d.state == CONNECTING && d.attempts == 1 && d.launches == c.launches + 1)
      && (c.state == CONNECTED || c.state == DISCONNECTING ==> d == c)
  {
  }

  /** While a process is owned an attempt launches nothing. */
  lemma AttemptKeepsProcess(c: Conn, now: int, changed: bool)
    requires c.process.Some?
    ensures var d := DoConnect(c, now, changed);
      d.process == c.process && d.launches == c.launches && d.signals == c.signals && d.lastLaunch == c.lastLaunch
  {
  }

  // ---------- What a report does ----------

  /** A process that connects makes the connection CONNECTED and ends the counting; one that nobody wants any
      more is told to shut down. */
  lemma ConnectedReport(c: Conn, now: int)
    requires c.process.Some?
    ensures var d := SetOpenVPNState(c, now, OPENVPN_CONNECTED);
      && d.openvpn == OPENVPN_CONNECTED && d.process == c.process && d.posted == c.posted
      && (c.state == DISCONNECTING || c.state == DISCONNECTED ==>
            d.state == c.state && d.signals == c.signals + 1 && d.log == c.log)
      && (c.state != DISCONNECTING && c.state != DISCONNECTED ==> d.state == CONNECTED && d.signals == c.signals)
      && (c.state != DISCONNECTING && c.state != DISCONNECTED && c.state != CONNECTED ==>
            d.attempts == 0 && d.interval.None? && d.log == c.log + [StateChanged(CONNECTED)])
  {
  }

  /** A process that reconnects by itself counts as one more attempt. */
  lemma ReconnectingReport(c: Conn, now: int)
    requires c.attempts < 0xFFFF_FFFF
    ensures var d := SetOpenVPNState(c, now, OPENVPN_RECONNECTING);
      && d.openvpn == OPENVPN_RECONNECTING && d.attempts == c.attempts + 1
      && d.process == c.process && d.signals == c.signals && d.posted == c.posted && d.interval == c.interval
      && d.state == (if c.state == CONNECTING && c.attempts >= 50 then STILL_CONNECTING
                     else if c.state == RECONNECTING && c.attempts >= 50 then STILL_RECONNECTING else c.state)
  {
  }

  /** A process that is exiting interrupts a connection, and every other report only is remembered. */
  lemma OtherReports(c: Conn, now: int, o: OpenVPNState)
    requires o != OPENVPN_CONNECTED && o != OPENVPN_RECONNECTING && o != OPENVPN_EXITED
    ensures var d := SetOpenVPNState(c, now, o);
      if o == OPENVPN_EXITING && c.state == CONNECTED
      then d == c.(openvpn := o, state := INTERRUPTED, log := c.log + [StateChanged(INTERRUPTED)])
      else d == c.(openvpn := o)
  {
  }

  /** A state line of a process that is not owned changes nothing but for a TLS error. */
  lemma OtherProcessIgnored(c: Conn, now: int, pid: nat, o: OpenVPNState, tls: bool)
    requires c.process != Some(pid) && !(o == OPENVPN_EXITING && tls)
    ensures OnStateLine(c, now, pid, o, tls) == c
  {
  }

  /** The slow timer turns the trying states into their slow forms. */
  lemma SlowTimerPromotes(c: Conn)
    ensures var d := OnSlowConnectionTimeout(c);
      && (c.state == CONNECTING ==> d == c.(state := STILL_CONNECTING, log := c.log + [StateChanged(STILL_CONNECTING)]))
      && (c.state == RECONNECTING ==>
            d == c.(state := STILL_RECONNECTING, log := c.log + [StateChanged(STILL_RECONNECTING)]))
      && (c.state != CONNECTING && c.state != RECONNECTING ==> d == c)
  {
  }

  /** Every error is reported; every error but an unknown one is critical, and ends the process or tries at once. */
  lemma ErrorOutcome(c: Conn, code: ErrorCode)
    ensures var d := SignalError(c, code);
      if code == UNKNOWN_ERROR then d == c.(log := c.log + [Error(code, false)])
      else d == c.(log := c.log + [Error(code, true)],
                   signals := if c.process.Some? then c.signals + 1 else c.signals,
                   posted := if c.process.Some? then c.posted else c.posted + 1)
  {
  }

  /** A TLS error on exit is a critical error, whichever process it comes from. */
  lemma TlsErrorOutcome(c: Conn, now: int, pid: nat)
    ensures var d := OnStateLine(c, now, pid, OPENVPN_EXITING, true);
      && |d.log| > 0 && d.log[|d.log| - 1] == Error(TLS_HANDSHAKE_ERROR, true)
      && (if c.process.Some? then d.signals == c.signals + 1 else d.posted == c.posted + 1)
  {
  }

  // ---------- What the user's calls do ----------

  /** A connect call is refused exactly when an attempt or a connection is under way that need not be replaced. */
  lemma ConnectRefusedExactly(c: Conn, force: bool, mismatch: bool)
    ensures !Connect(c, force, mismatch).1 <==>
      (c.state == CONNECTING || c.state == STILL_CONNECTING || c.state == CONNECTED
       || c.state == RECONNECTING || c.state == STILL_RECONNECTING)
      && !force && !(c.process.Some? && (c.needsReconnect || mismatch))
  {
  }

  /** An accepted connect call replaces the process there is, or posts an attempt; a refused one changes at most
      the note that the settings differ. */
  lemma ConnectCallOutcome(c: Conn, force: bool, mismatch: bool)
    ensures var (d, accepted) := Connect(c, force, mismatch);
      && (!accepted ==> d == c.(needsReconnect := d.needsReconnect) && !d.needsReconnect)
      && (accepted ==>
           && d.process == c.process && d.launches == c.launches
           && d.state == (if c.state == DISCONNECTED || c.state == DISCONNECTING_TO_RECONNECT then CONNECTING
                          else if c.state == INTERRUPTED then INTERRUPTED else DISCONNECTING_TO_RECONNECT)
           && (c.state != INTERRUPTED && c.state != DISCONNECTED && c.state != DISCONNECTING_TO_RECONNECT ==>
                 d.attempts == 0 && d.interval.None?)
           && (var owns := c.process.Some? && c.state != DISCONNECTED && c.state != DISCONNECTING_TO_RECONNECT;
               d.signals == (if owns then c.signals + 1 else c.signals) &&
               d.posted == (if owns then c.posted else c.posted + 1)))
  {
  }

  /** A disconnect call stops trying, and tells a process that has not said that it is exiting. */
  lemma DisconnectCallOutcome(c: Conn)
    ensures var d := Disconnect(c);
      && (c.state == DISCONNECTED ==> d == c)
      && (c.state != DISCONNECTED ==>
           && d.state == (if c.openvpn == OPENVPN_EXITED then DISCONNECTED else DISCONNECTING)
           && d.process == c.process && d.posted == c.posted && d.launches == c.launches
           && (c.state != DISCONNECTING ==> d.attempts == 0 && d.interval.None?)
           && d.signals == (if c.process.Some? && c.openvpn != OPENVPN_EXITING && c.openvpn != OPENVPN_EXITED
                            then c.signals + 1 else c.signals))
  {
  }

  /** A reconnect is needed exactly while a process runs that was launched with other settings. */
  lemma ReconnectNeededExactly(c: Conn, mismatch: bool)
    ensures var (d, needed) := NeedsReconnect(c, mismatch);
      && (needed <==> c.process.Some? && (c.needsReconnect || mismatch)) && d == c.(needsReconnect := needed)
  {
  }
}
