/**
 The VPN connection of daemon/connection.cpp as a protocol on values: the state of
 a Connection object, what each of its handlers does to that state, and the runs
 in which the event loop calls the handlers one at a time in any order.

 The class in Connection.dfy performs the same handlers field by field and is
 proved against the functions of this module.
 */
module ConnectionProtocol {
  import opened Common

  datatype State =
    | DISCONNECTED // the source's CREATED is the same enum value
    | CONNECTING
    | STILL_CONNECTING
    | CONNECTED
    | INTERRUPTED
    | RECONNECTING
    | STILL_RECONNECTING
    | DISCONNECTING_TO_RECONNECT
    | DISCONNECTING

  datatype OpenVPNState =
    | OPENVPN_CONNECTING
    | OPENVPN_TCP_CONNECT
    | OPENVPN_WAIT
    | OPENVPN_AUTH
    | OPENVPN_GET_CONFIG
    | OPENVPN_ASSIGN_IP
    | OPENVPN_ADD_ROUTES
    | OPENVPN_CONNECTED
    | OPENVPN_RECONNECTING
    | OPENVPN_EXITING
    | OPENVPN_EXITED

  datatype ErrorCode = UNKNOWN_CRITICAL_ERROR | TLS_HANDSHAKE_ERROR | AUTHENTICATION_FAILED | UNKNOWN_ERROR

  /** A call made on the ConnectionListener. */
  datatype Notice = StateChanged(state: State) | Attempt(number: nat) | Error(code: ErrorCode, critical: bool)

  const MAX_CONNECTION_ATTEMPTS: nat := 50
  const MAX_RECONNECTION_ATTEMPTS: nat := 50
  const CONNECTION_ATTEMPT_INTERVAL: nat := 1
  const RECONNECTION_ATTEMPT_INTERVAL: nat := 1
  const SLOW_CONNECTION_ATTEMPT_INTERVAL: nat := 30
  const SLOW_RECONNECTION_ATTEMPT_INTERVAL: nat := 30

  /** Clock readings are in nanoseconds. */
  const SECOND: int := 1_000_000_000

  /** The attempt counter is an unsigned int, and wraps. */
  const UINT_MAX: nat := 0xFFFF_FFFF

  function Increment(n: nat): nat {
    if n >= UINT_MAX then 0 else n + 1
  }

  /**
   A Connection object together with what the event loop holds for it.
    - process:   the owned OpenVPN process; processes are numbered in launch order
    - signals:   how often Shutdown was called on the owned process
    - posted:    DoConnect callbacks in the event loop's queue
    - slowWaits: waits on the slow connection timer; a cancelled wait still calls back
    - interval:  the expiry of the interval timer while it is armed
    - launches, exits: processes launched, and exits of owned processes handled
    - log:       the calls made on the listener so far
   */
  datatype Conn = Conn(
    state: State,
    openvpn: OpenVPNState,
    process: Option<nat>,
    signals: nat,
    attempts: nat,
    posted: nat,
    slowWaits: nat,
    interval: Option<int>,
    lastLaunch: int,
    needsReconnect: bool,
    launches: nat,
    exits: nat,
    log: seq<Notice>)

  const Created: Conn :=
    Conn(DISCONNECTED, OPENVPN_EXITED, None, 0, 0, 0, 0, None, 0, false, 0, 0, [])

  // ---------- The handlers ----------

  predicate Settles(s: State) {
    s == CONNECTED || s == DISCONNECTING_TO_RECONNECT || s == DISCONNECTING || s == DISCONNECTED
  }

  function SetState(c: Conn, s: State): Conn {
    if s == c.state then c
    else
      var d := if Settles(s) then c.(attempts := 0, interval := None) else c;
      d.(state := s, log := c.log + [StateChanged(s)])
  }

  function Post(c: Conn): Conn {
    c.(posted := c.posted + 1)
  }

  function Signal(c: Conn): Conn {
    if c.process.Some? then c.(signals := c.signals + 1) else c
  }

  function ShutdownOrPost(c: Conn): Conn {
    if c.process.Some? then Signal(c) else Post(c)
  }

  function ScheduleConnect(c: Conn, now: int, seconds: nat): Conn {
    if now - c.lastLaunch < seconds * SECOND
    then c.(interval := Some(c.lastLaunch + seconds * SECOND))
    else Post(c)
  }

  function CountAttempt(c: Conn): Conn {
    c.(attempts := Increment(c.attempts))
  }

  /** CONNECTING and RECONNECTING turn into their STILL_ forms when the budget is spent. */
  function Promoted(s: State, attempts: nat): State {
    if s == CONNECTING && attempts > MAX_CONNECTION_ATTEMPTS then STILL_CONNECTING
    else if s == RECONNECTING && attempts > MAX_RECONNECTION_ATTEMPTS then STILL_RECONNECTING
    else s
  }

  /** The seconds to leave between two launches, by the state in which a process exits. */
  function RetryInterval(s: State): nat {
    match s
    case STILL_CONNECTING => SLOW_CONNECTION_ATTEMPT_INTERVAL
    case STILL_RECONNECTING => SLOW_RECONNECTION_ATTEMPT_INTERVAL
    case INTERRUPTED | RECONNECTING => RECONNECTION_ATTEMPT_INTERVAL
    case _ => CONNECTION_ATTEMPT_INTERVAL
  }

  /** What the exit of the process does to the connection state. */
  function AfterExit(s: State): State {
    match s
    case CONNECTED => INTERRUPTED
    case DISCONNECTING_TO_RECONNECT => CONNECTING
    case INTERRUPTED => RECONNECTING
    case DISCONNECTING => DISCONNECTED
    case _ => s
  }

  function WakeAfterExit(c: Conn, now: int): Conn {
    match c.state
    case CONNECTED => Post(c)
    case DISCONNECTING | DISCONNECTED => c
    case s => ScheduleConnect(c, now, RetryInterval(s))
  }

  /** What a state reported by the process means: the effects, and the connection state to go to. */
  function Report(c: Conn, now: int, o: OpenVPNState): (r: (Conn, State)) {
    match o
    case OPENVPN_CONNECTED =>
      if (c.state == DISCONNECTING || c.state == DISCONNECTED) then (Signal(c), c.state) else (c, CONNECTED)
    case OPENVPN_RECONNECTING =>
      var counted := CountAttempt(c);
      (counted, Promoted(c.state, counted.attempts))
    case OPENVPN_EXITING => (c, if c.state == CONNECTED then INTERRUPTED else c.state)
    case OPENVPN_EXITED => (WakeAfterExit(c, now), AfterExit(c.state))
    case _ => (c, c.state)
  }

  function SetOpenVPNState(c: Conn, now: int, o: OpenVPNState): Conn {
    var (d, s) := Report(c, now, o);
    SetState(d.(openvpn := o), s)
  }

  function SignalError(c: Conn, code: ErrorCode): Conn {
    var critical := code != UNKNOWN_ERROR;
    var d := c.(log := c.log + [Error(code, critical)]);
    if critical then ShutdownOrPost(d) else d
  }

  function OnStateLine(c: Conn, now: int, pid: nat, o: OpenVPNState, tlsError: bool): Conn {
    var d := if c.process == Some(pid) then SetOpenVPNState(c, now, o) else c;
    if o == OPENVPN_EXITING && tlsError then SignalError(d, TLS_HANDSHAKE_ERROR) else d
  }

  function OnSlowConnectionTimeout(c: Conn): Conn {
    match c.state
    case CONNECTING => SetState(c, STILL_CONNECTING)
    case RECONNECTING => SetState(c, STILL_RECONNECTING)
    case _ => c
  }

  function OnOpenVPNExited(c: Conn, now: int, pid: nat): Conn {
    if c.process == Some(pid)
    then SetOpenVPNState(c.(process := None, exits := c.exits + 1), now, OPENVPN_EXITED)
    else c
  }

  /** mismatch: whether the settings in force differ from the current ones. */
  function NeedsReconnect(c: Conn, mismatch: bool): (r: (Conn, bool)) {
    var needed := c.process.Some? && (c.needsReconnect || mismatch);
    (c.(needsReconnect := needed), needed)
  }

  predicate Attempting(s: State) {
    s == CONNECTING || s == STILL_CONNECTING || s == CONNECTED || s == RECONNECTING || s == STILL_RECONNECTING
  }

  function Connect(c: Conn, force: bool, mismatch: bool): (r: (Conn, bool)) {
    if Attempting(c.state) then
      var (d, needed) := if force then (c, true) else NeedsReconnect(c, mismatch);
      if needed then (ShutdownOrPost(SetState(d, DISCONNECTING_TO_RECONNECT)), true) else (d, false)
    else if c.state == DISCONNECTING then
      (ShutdownOrPost(SetState(c, DISCONNECTING_TO_RECONNECT)), true)
    else if c.state == INTERRUPTED then
      (ShutdownOrPost(c), true)
    else
      (Post(SetState(c, CONNECTING)), true)
  }

  function Disconnect(c: Conn): Conn {
    if c.state == DISCONNECTED then c
    else
      var d := SetState(c, DISCONNECTING);
      var e := if (d.openvpn == OPENVPN_EXITING || d.openvpn == OPENVPN_EXITED) then d else Signal(d);
      if e.openvpn == OPENVPN_EXITED then SetState(e, DISCONNECTED) else e
  }

  /** The first part of DoConnect: the state in which it goes on, if it does. */
  function Resume(c: Conn): Option<Conn> {
    match c.state
    case INTERRUPTED => Some(SetState(c.(attempts := 0), RECONNECTING))
    case DISCONNECTING_TO_RECONNECT | DISCONNECTED => Some(SetState(c.(attempts := 0), CONNECTING))
    case CONNECTED | DISCONNECTING => None
    case _ => Some(c)
  }

  /** The new process is owned, counted and reported. */
  function Launched(c: Conn, now: int, changed: bool): Conn {
    var spent := if changed then 0 else c.attempts;
    var timed := spent == 0 && (c.state == CONNECTING || c.state == RECONNECTING);
    var attempts := Increment(spent);
    Conn(c.state, c.openvpn, Some(c.launches), 0, attempts, c.posted, if timed then c.slowWaits + 1 else c.slowWaits,
         None, now, false, c.launches + 1, c.exits, c.log + [Attempt(attempts)])
  }

  function Launch(c: Conn, now: int, changed: bool): Conn {
    var d := Launched(c, now, changed);
    SetState(d, Promoted(d.state, d.attempts))
  }

  /** changed: whether the settings copied for the launch differ from the last ones. */
  function DoConnect(c: Conn, now: int, changed: bool): Conn {
    match Resume(c)
    case None => c
    case Some(d) => if d.process.Some? then d else Launch(d, now, changed)
  }

  // ---------- Runs ----------

  /** One turn of the event loop, or one call from the daemon. */
  datatype Event =
    | UserConnect(force: bool, mismatch: bool)
    | UserDisconnect
    | QueryReconnect(mismatch: bool)
    | PostedRuns(now: int, changed: bool)
    | IntervalExpires(now: int)
    | SlowTimeout
    | StateLine(now: int, pid: nat, reported: OpenVPNState, tlsError: bool)
    | ErrorLine(pid: nat, code: ErrorCode)
    | ProcessExits(now: int, pid: nat)

  predicate Enabled(c: Conn, e: Event) {
    match e
    case PostedRuns(_, _) => c.posted > 0
    case IntervalExpires(now) => c.interval.Some? && c.interval.value <= now
    case SlowTimeout => c.slowWaits > 0
    case StateLine(_, pid, _, _) => pid < c.launches
    case ErrorLine(pid, _) => pid < c.launches
    case ProcessExits(_, pid) => pid < c.launches
    case _ => true
  }

  /** An expired interval timer leaves its DoConnect in the queue, where no cancel reaches it. */
  function Step(c: Conn, e: Event): Conn
    requires Enabled(c, e)
  {
    match e
    case UserConnect(force, mismatch) => Connect(c, force, mismatch).0
    case UserDisconnect => Disconnect(c)
    case QueryReconnect(mismatch) => NeedsReconnect(c, mismatch).0
    case PostedRuns(now, changed) => DoConnect(c.(posted := c.posted - 1), now, changed)
    case IntervalExpires(now) => Post(c.(interval := None))
    case SlowTimeout => OnSlowConnectionTimeout(c.(slowWaits := c.slowWaits - 1))
    case StateLine(now, pid, o, tls) => OnStateLine(c, now, pid, o, tls)
    case ErrorLine(_, code) => SignalError(c, code)
    case ProcessExits(now, pid) => OnOpenVPNExited(c, now, pid)
  }

  predicate ValidRun(c: Conn, es: seq<Event>)
    decreases |es|
  {
    es == [] || (Enabled(c, es[0]) && ValidRun(Step(c, es[0]), es[1..]))
  }

  function Run(c: Conn, es: seq<Event>): Conn
    requires ValidRun(c, es)
    decreases |es|
  {
    if es == [] then c else Run(Step(c, es[0]), es[1..])
  }
}
