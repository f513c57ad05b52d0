/** What holds over every run of the connection protocol. */
module ConnectionRuns {
  import opened Common
  import opened ConnectionProtocol

  // ---------- The invariant ----------

  /** Something is pending that will call the connection again. */
  predicate HasWakeup(c: Conn) {
    c.process.Some? || c.posted > 0 || c.interval.Some?
  }

  predicate NotStuck(c: Conn) {
    c.state != DISCONNECTED ==> HasWakeup(c)
  }

  predicate ProcessAgrees(c: Conn) {
    && (c.process.None? ==> c.openvpn == OPENVPN_EXITED)
    && (c.state == CONNECTED ==> c.process.Some?)
    && (c.state == DISCONNECTING ==> c.openvpn != OPENVPN_EXITED)
    && (c.state == DISCONNECTING_TO_RECONNECT && c.process.Some? ==> c.signals > 0)
  }

  predicate ProcessCounted(c: Conn) {
    && c.launches == c.exits + (if c.process.Some? then 1 else 0)
    && (c.process.Some? ==> c.process.value + 1 == c.launches)
  }

  /** An armed interval timer expires 1 or 30 seconds after the last launch. */
  predicate Spaced(c: Conn) {
    c.interval.Some? ==> (c.interval.value - c.lastLaunch == SECOND || c.interval.value - c.lastLaunch == 30 * SECOND)
  }

  /** The changes of state that the listener can be told of. */
  predicate Edge(a: State, b: State) {
    match b
    case CONNECTING => (a == DISCONNECTED || a == DISCONNECTING_TO_RECONNECT)
    case STILL_CONNECTING => a == CONNECTING
    case CONNECTED => (a != DISCONNECTED && a != DISCONNECTING && a != CONNECTED)
    case INTERRUPTED => a == CONNECTED
    case RECONNECTING => a == INTERRUPTED
    case STILL_RECONNECTING => a == RECONNECTING
    case DISCONNECTING_TO_RECONNECT => Attempting(a) || a == DISCONNECTING
    case DISCONNECTING => (a != DISCONNECTED && a != DISCONNECTING)
    case DISCONNECTED => a == DISCONNECTING
  }

  function LastState(log: seq<Notice>): State {
    if log == [] then DISCONNECTED
    else if log[|log| - 1].StateChanged? then log[|log| - 1].state
    else LastState(log[..|log| - 1])
  }

  predicate Ordered(log: seq<Notice>) {
    log == [] ||
    var n := |log| - 1;
    && Ordered(log[..n])
    && (log[n].StateChanged? ==> Edge(LastState(log[..n]), log[n].state))
  }

  predicate Logged(c: Conn) {
    Ordered(c.log) && LastState(c.log) == c.state
  }

  predicate Sound(c: Conn) {
    NotStuck(c) && ProcessAgrees(c) && ProcessCounted(c) && Spaced(c)
  }

  predicate Inv(c: Conn) {
    Sound(c) && Logged(c)
  }

  lemma InvMeans(c: Conn)
    requires Inv(c)
    ensures NotStuck(c) && ProcessAgrees(c) && Spaced(c)
  {
  }

  // ---------- Every handler keeps it ----------

  lemma NoticeKeepsLogged(log: seq<Notice>, n: Notice)
    requires Ordered(log) && (n.StateChanged? ==> Edge(LastState(log), n.state))
    ensures Ordered(log + [n])
    ensures LastState(log + [n]) == if n.StateChanged? then n.state else LastState(log)
  {
    assert (log + [n])[..|log|] == log;
  }

  lemma SetStateKeepsLogged(c: Conn, s: State)
    requires Logged(c) && (s == c.state || Edge(c.state, s))
    ensures Logged(SetState(c, s))
  {
    if s != c.state { NoticeKeepsLogged(c.log, StateChanged(s)); }
  }

  lemma ReportIsEdge(c: Conn, now: int, o: OpenVPNState)
    ensures var (d, s) := Report(c, now, o);
      d.state == c.state && d.log == c.log && (s == c.state || Edge(c.state, s))
  {
  }

  lemma SetOpenVPNStateKeepsLogged(c: Conn, now: int, o: OpenVPNState)
    requires Logged(c)
    ensures Logged(SetOpenVPNState(c, now, o))
  {
    hide Report;
    var (d, s) := Report(c, now, o);
    ReportIsEdge(c, now, o);
    SetStateKeepsLogged(d.(openvpn := o), s);
  }

  lemma ReportKeepsSound(c: Conn, now: int, o: OpenVPNState)
    requires Sound(c) && c.process.Some?
    ensures Sound(SetOpenVPNState(c, now, o))
  {
    if o == OPENVPN_EXITED { ExitReportKeepsSound(c, now); }
  }

  /** The process is gone, or reports itself that it exited. */
  lemma ExitReportKeepsSound(c: Conn, now: int)
    requires ProcessCounted(c) && Spaced(c)
    ensures Sound(SetOpenVPNState(c, now, OPENVPN_EXITED))
  {
    WakesAfterExit(c, now);
    ExitOutcomes(c, now);
    hide NotStuck, SetOpenVPNState;
  }

  lemma ExitOutcomes(c: Conn, now: int)
    ensures var d := SetOpenVPNState(c, now, OPENVPN_EXITED);
      && d.openvpn == OPENVPN_EXITED && d.state == AfterExit(c.state)
      && d.process == c.process && d.launches == c.launches && d.exits == c.exits && d.lastLaunch == c.lastLaunch
      && (d.interval.None? || d.interval == c.interval
          || d.interval == Some(c.lastLaunch + SECOND) || d.interval == Some(c.lastLaunch + 30 * SECOND))
  {
  }

  lemma WakesAfterExit(c: Conn, now: int)
    ensures NotStuck(SetOpenVPNState(c, now, OPENVPN_EXITED))
  {
  }

  lemma ExitKeepsInv(c: Conn, now: int, pid: nat)
    requires Inv(c)
    ensures Inv(OnOpenVPNExited(c, now, pid))
  {
    hide SetOpenVPNState;
    if c.process == Some(pid) {
      var d := c.(process := None, exits := c.exits + 1);
      ExitReportKeepsSound(d, now);
      SetOpenVPNStateKeepsLogged(d, now, OPENVPN_EXITED);
    }
  }

  lemma SignalErrorKeepsInv(c: Conn, code: ErrorCode)
    requires Inv(c)
    ensures Inv(SignalError(c, code))
  {
    NoticeKeepsLogged(c.log, Error(code, code != UNKNOWN_ERROR));
  }

  /** What a connect call does to a connection: a state to go to, and a signal or a posted attempt. */
  lemma ConnectOutcome(c: Conn, force: bool, mismatch: bool)
    ensures var d := Connect(c, force, mismatch).0;
      && d.process == c.process && d.openvpn == c.openvpn && d.lastLaunch == c.lastLaunch
      && d.launches == c.launches && d.exits == c.exits && d.posted >= c.posted && d.signals >= c.signals
      && (d.interval == c.interval || d.interval.None?)
      && ((d.state == c.state && d.interval == c.interval) || d.process.Some? || d.posted > 0)
  {
  }

  lemma ConnectStates(c: Conn, force: bool, mismatch: bool)
    ensures var d := Connect(c, force, mismatch).0;
      && d.state != DISCONNECTED && d.state != DISCONNECTING && (d.state == CONNECTED ==> c.state == CONNECTED)
      && (d.state == DISCONNECTING_TO_RECONNECT && d.process.Some? ==> d.signals > 0)
  {
  }

  lemma ConnectIsEdge(c: Conn, force: bool, mismatch: bool)
    ensures var d := Connect(c, force, mismatch).0;
      d.log == SetState(c, d.state).log && (d.state == c.state || Edge(c.state, d.state))
  {
  }

  lemma ConnectKeepsInv(c: Conn, force: bool, mismatch: bool)
    requires Inv(c)
    ensures Inv(Connect(c, force, mismatch).0)
  {
    hide Connect, Ordered, LastState, Edge;
    var (d, accepted) := Connect(c, force, mismatch);
    ConnectOutcome(c, force, mismatch);
    ConnectIsEdge(c, force, mismatch);
    ConnectStates(c, force, mismatch);
    SetStateKeepsLogged(c, d.state);
    assert Logged(d);
    hide Logged;
  }

  lemma DisconnectKeepsInv(c: Conn)
    requires Inv(c)
    ensures Inv(Disconnect(c))
  {
    if c.state != DISCONNECTED {
      SetStateKeepsLogged(c, DISCONNECTING);
      SetStateKeepsLogged(SetState(c, DISCONNECTING), DISCONNECTED);
    }
  }

  lemma LaunchKeepsInv(c: Conn, now: int, changed: bool)
    requires ProcessCounted(c) && Logged(c)
    requires c.process.None? && c.openvpn == OPENVPN_EXITED
    requires (c.state != CONNECTED && c.state != DISCONNECTING && c.state != DISCONNECTING_TO_RECONNECT)
    ensures Inv(Launch(c, now, changed))
  {
    var d := Launch(c, now, changed);
    var attempt := Attempt(CountAttempt(if changed then c.(attempts := 0) else c).attempts);
    NoticeKeepsLogged(c.log, attempt);
    if d.state != c.state { NoticeKeepsLogged(c.log + [attempt], StateChanged(d.state)); }
  }

  lemma ResumeOutcome(c: Conn)
    ensures var r := Resume(c);
      && (r.None? <==> c.state == CONNECTED || c.state == DISCONNECTING)
      && (r.Some? ==> var d := r.value;
        && d.state == (match c.state
                       case INTERRUPTED => RECONNECTING
                       case DISCONNECTING_TO_RECONNECT | DISCONNECTED => CONNECTING
                       case s => s)
        && d == SetState(c.(attempts := d.attempts), d.state).(attempts := d.attempts)
        && d == c.(attempts := d.attempts, state := d.state, log := d.log))
  {
  }

  lemma DoConnectKeepsInv(c: Conn, now: int, changed: bool)
    requires Inv(c.(posted := c.posted + 1))
    ensures Inv(DoConnect(c, now, changed))
  {
    hide Resume, Launch, Ordered, LastState;
    ResumeOutcome(c);
    var resumed := Resume(c);
    if resumed.Some? {
      var d := resumed.value;
      SetStateKeepsLogged(c.(attempts := d.attempts), d.state);
      if d.process.None? { LaunchKeepsInv(d, now, changed); }
    }
  }

  lemma StateLineKeepsInv(c: Conn, now: int, pid: nat, o: OpenVPNState, tls: bool)
    requires Inv(c)
    ensures Inv(OnStateLine(c, now, pid, o, tls))
  {
    hide SetOpenVPNState, Sound, Logged, SignalError;
    if c.process == Some(pid) {
      ReportKeepsSound(c, now, o);
      SetOpenVPNStateKeepsLogged(c, now, o);
    }
    SignalErrorKeepsInv(if c.process == Some(pid) then SetOpenVPNState(c, now, o) else c, TLS_HANDSHAKE_ERROR);
  }

  lemma TimeoutKeepsInv(c: Conn)
    requires Inv(c)
    ensures Inv(OnSlowConnectionTimeout(c))
  {
    SetStateKeepsLogged(c, OnSlowConnectionTimeout(c).state);
  }

  lemma StepKeepsInv(c: Conn, e: Event)
    requires Inv(c) && Enabled(c, e)
    ensures Inv(Step(c, e))
  {
    hide Connect, Disconnect, DoConnect, OnStateLine, SignalError, OnOpenVPNExited, OnSlowConnectionTimeout;
    match e
    case UserConnect(force, mismatch) => ConnectKeepsInv(c, force, mismatch);
    case UserDisconnect => DisconnectKeepsInv(c);
    case QueryReconnect(_) =>
    case PostedRuns(now, changed) => DoConnectKeepsInv(c.(posted := c.posted - 1), now, changed);
    case IntervalExpires(_) =>
    case SlowTimeout => TimeoutKeepsInv(c.(slowWaits := c.slowWaits - 1));
    case StateLine(now, pid, o, tls) => StateLineKeepsInv(c, now, pid, o, tls);
    case ErrorLine(_, code) => SignalErrorKeepsInv(c, code);
    case ProcessExits(now, pid) => ExitKeepsInv(c, now, pid);
  }

  lemma {:induction false} RunKeepsInv(c: Conn, es: seq<Event>)
    requires Inv(c) && ValidRun(c, es)
    ensures Inv(Run(c, es))
    decreases |es|
  {
    if es != [] {
      StepKeepsInv(c, es[0]);
      RunKeepsInv(Step(c, es[0]), es[1..]);
    }
  }

  // ---------- Main results ----------

  /** In every reachable state other than DISCONNECTED something will call the connection again. */
  lemma NeverStuck(es: seq<Event>)
    requires ValidRun(Created, es)
    ensures var c := Run(Created, es); c.state != DISCONNECTED ==> HasWakeup(c)
  {
    RunKeepsInv(Created, es);
  }

  /** At most one process is alive, it is the last one launched, and the reported states fit it. */
  lemma ProcessLifetime(es: seq<Event>)
    requires ValidRun(Created, es)
    ensures var c := Run(Created, es);
      && c.launches - c.exits == (if c.process.Some? then 1 else 0)
      && (c.process.Some? ==> c.process.value == c.launches - 1)
      && (c.process.None? ==> c.openvpn == OPENVPN_EXITED)
      && (c.state == CONNECTED ==> c.process.Some?)
      && (c.state == DISCONNECTING ==> c.process.Some? && c.openvpn != OPENVPN_EXITED)
  {
    RunKeepsInv(Created, es);
  }

  lemma ReportKeepsProcess(c: Conn, now: int, o: OpenVPNState)
    ensures SetOpenVPNState(c, now, o).process == c.process
  {
  }

  /** An owned process is given up only when it exits, and only for no process at all. */
  lemma ProcessNeverReplaced(c: Conn, e: Event)
    requires Enabled(c, e) && c.process.Some?
    ensures Step(c, e).process == c.process || (Step(c, e).process.None? && e.ProcessExits? && e.pid == c.process.value)
  {
    hide Launch, SetOpenVPNState;
    match e
    case StateLine(now, _, o, _) => ReportKeepsProcess(c, now, o);
    case ProcessExits(now, _) => ReportKeepsProcess(c.(process := None, exits := c.exits + 1), now, OPENVPN_EXITED);
    case _ =>
  }

  /** An armed interval timer always expires exactly 1 or 30 seconds after the last launch. */
  lemma RetrySpacing(es: seq<Event>)
    requires ValidRun(Created, es)
    ensures var c := Run(Created, es);
      c.interval.Some? ==> (c.interval.value - c.lastLaunch == SECOND || c.interval.value - c.lastLaunch == 30 * SECOND)
  {
    RunKeepsInv(Created, es);
  }

  // ---------- Phase order ----------

  predicate Reconnecting(s: State) {
    s == INTERRUPTED || s == RECONNECTING || s == STILL_RECONNECTING
  }

  /** Between positions i and j the listener heard of no state outside the reconnecting family. */
  predicate OnlyReconnecting(log: seq<Notice>, i: nat, j: nat)
    requires j <= |log|
  {
    forall k :: i <= k < j && log[k].StateChanged? ==> Reconnecting(log[k].state)
  }

  lemma {:induction false} LastStateFound(log: seq<Notice>) returns (i: nat)
    requires LastState(log) != DISCONNECTED
    ensures i < |log| && log[i] == StateChanged(LastState(log))
    ensures forall k :: i < k < |log| ==> !log[k].StateChanged?
  {
    var n := |log| - 1;
    if log[n].StateChanged? { i := n; } else { i := LastStateFound(log[..n]); }
  }

  /** Every visit to the reconnecting family goes back, without leaving it, to a successful connection. */
  lemma {:induction false} ReconnectingFollowsConnected(log: seq<Notice>) returns (i: nat)
    requires Ordered(log) && Reconnecting(LastState(log))
    ensures i < |log| && log[i] == StateChanged(CONNECTED) && OnlyReconnecting(log, i + 1, |log|)
  {
    var n := |log| - 1;
    var rest := log[..n];
    if !log[n].StateChanged? || log[n].state != INTERRUPTED {
      i := ReconnectingFollowsConnected(rest);
    } else {
      i := LastStateFound(rest);
    }
    assert forall k :: 0 <= k < n ==> log[k] == rest[k];
  }

  lemma {:induction false} OrderedPrefix(log: seq<Notice>, n: nat)
    requires Ordered(log) && n <= |log|
    ensures Ordered(log[..n])
  {
    if n == |log| {
      assert log[..n] == log;
    } else {
      OrderedPrefix(log[..|log| - 1], n);
      assert log[..|log| - 1][..n] == log[..n];
    }
  }

  lemma OrderedFollowsConnected(log: seq<Notice>, k: nat) returns (i: nat)
    requires Ordered(log) && k < |log| && log[k].StateChanged? && Reconnecting(log[k].state)
    ensures i < k && log[i] == StateChanged(CONNECTED) && OnlyReconnecting(log, i + 1, k + 1)
  {
    OrderedPrefix(log, k + 1);
    var upto := log[..k + 1];
    assert upto[k] == log[k];
    i := ReconnectingFollowsConnected(upto);
    assert forall m :: 0 <= m <= k ==> upto[m] == log[m];
  }

  /** Whenever a run reports a state of the reconnecting family, CONNECTED was reported before it,
      and nothing outside the family in between. */
  lemma PhaseOrder(es: seq<Event>, k: nat) returns (i: nat)
    requires ValidRun(Created, es)
    requires var log := Run(Created, es).log;
      k < |log| && log[k].StateChanged? && Reconnecting(log[k].state)
    ensures var log := Run(Created, es).log;
      i < k && log[i] == StateChanged(CONNECTED) && OnlyReconnecting(log, i + 1, k + 1)
  {
    RunKeepsInv(Created, es);
    hide Run, ValidRun, Sound, Ordered, OnlyReconnecting;
    i := OrderedFollowsConnected(Run(Created, es).log, k);
  }

  // ---------- Retry budget ----------

  function ReportCount(e: Event): nat {
    if e.StateLine? && e.reported == OPENVPN_RECONNECTING then 1 else 0
  }

  /** The OPENVPN_RECONNECTING reports in a run. */
  function Reports(es: seq<Event>): nat {
    if es == [] then 0 else ReportCount(es[0]) + Reports(es[1..])
  }

  predicate WithinBudget(c: Conn, r: nat) {
    match c.state
    case CONNECTING | RECONNECTING => c.attempts <= 50 || c.attempts <= r
    case STILL_CONNECTING | STILL_RECONNECTING => true
    case _ => c.attempts <= r
  }

  lemma DoConnectKeepsBudget(c: Conn, now: int, changed: bool, r: nat)
    requires WithinBudget(c, r)
    ensures WithinBudget(DoConnect(c, now, changed), r)
  {
  }

  lemma ReportKeepsBudget(c: Conn, now: int, o: OpenVPNState, r: nat)
    requires WithinBudget(c, r)
    ensures WithinBudget(SetOpenVPNState(c, now, o), if o == OPENVPN_RECONNECTING then r + 1 else r)
  {
  }

  lemma UserKeepsBudget(c: Conn, force: bool, mismatch: bool, r: nat)
    requires WithinBudget(c, r)
    ensures WithinBudget(Connect(c, force, mismatch).0, r) && WithinBudget(Disconnect(c), r)
  {
  }

  lemma StepKeepsBudget(c: Conn, e: Event, r: nat)
    requires WithinBudget(c, r) && Enabled(c, e)
    ensures WithinBudget(Step(c, e), r + ReportCount(e))
  {
    hide Connect, Disconnect, DoConnect, SetOpenVPNState;
    match e
    case UserConnect(force, mismatch) => UserKeepsBudget(c, force, mismatch, r);
    case UserDisconnect => UserKeepsBudget(c, false, false, r);
    case PostedRuns(now, changed) => DoConnectKeepsBudget(c.(posted := c.posted - 1), now, changed, r);
    case StateLine(now, pid, o, tls) => ReportKeepsBudget(c, now, o, r);
    case ProcessExits(now, pid) =>
      ReportKeepsBudget(c.(process := None, exits := c.exits + 1), now, OPENVPN_EXITED, r);
    case _ =>
  }

  lemma {:induction false} RunKeepsBudget(c: Conn, es: seq<Event>, r: nat)
    requires WithinBudget(c, r) && ValidRun(c, es)
    ensures WithinBudget(Run(c, es), r + Reports(es))
    decreases |es|
  {
    if es != [] {
      StepKeepsBudget(c, es[0], r);
      RunKeepsBudget(Step(c, es[0]), es[1..], r + ReportCount(es[0]));
    }
  }

  /** In CONNECTING and RECONNECTING the attempt counter exceeds 50 only as far as the process
      reported reconnecting on its own; without such reports it never does. */
  lemma RetryBudget(es: seq<Event>)
    requires ValidRun(Created, es)
    ensures var c := Run(Created, es);
      (c.state == CONNECTING || c.state == RECONNECTING) ==> c.attempts <= 50 || c.attempts <= Reports(es)
  {
    RunKeepsBudget(Created, es, 0);
  }

  // ---------- Disconnect ----------

  /** Disconnect ends in DISCONNECTED with a live process exactly when it is called while the process
      has not reported any state yet; otherwise it waits for the exit. */
  lemma DisconnectOutcome(c: Conn)
    requires Inv(c) && c.state != DISCONNECTED
    ensures var d := Disconnect(c);
      && d.state == (if c.openvpn == OPENVPN_EXITED then DISCONNECTED else DISCONNECTING)
      && (d.state == DISCONNECTED && d.process.Some? <==> c.openvpn == OPENVPN_EXITED && c.process.Some?)
      && d.process == c.process && d.posted == c.posted
      && (c.state != DISCONNECTING ==> d.interval.None? && d.attempts == 0)
      && (d.state == DISCONNECTING ==> c.openvpn == OPENVPN_EXITING || d.signals == c.signals + 1)
  {
  }

  /** A callback posted before Disconnect still launches a process after it, exactly when the connection
      was waiting between two processes. */
  lemma StaleCallbackLaunches(c: Conn, now: int, changed: bool)
    requires Inv(c) && c.state != DISCONNECTED && c.posted > 0
    ensures var e := PostedRuns(now, changed);
      && Enabled(Disconnect(c), e)
      && Step(Disconnect(c), e).launches == c.launches + (if c.process.None? then 1 else 0)
      && (c.process.None? ==> Step(Disconnect(c), e).state == CONNECTING)
  {
    var d := Disconnect(c);
    DisconnectOutcome(c);
    assert d.launches == c.launches;
    if d.state == DISCONNECTED && d.process.None? {
      DoConnectLaunches(d.(posted := d.posted - 1), now, changed);
    }
  }

  lemma DoConnectLaunches(c: Conn, now: int, changed: bool)
    requires c.process.None? && c.state == DISCONNECTED
    ensures DoConnect(c, now, changed).launches == c.launches + 1 && DoConnect(c, now, changed).state == CONNECTING
  {
  }

  /** A step that ends in DISCONNECTED leaves a process alive exactly in two ways: a disconnect before the
      process has reported any state, and a state line by which the process itself says that it exited. */
  lemma DisconnectedKeepsProcess(c: Conn, e: Event)
    requires Inv(c) && Enabled(c, e) && c.state != DISCONNECTED && Step(c, e).state == DISCONNECTED
    ensures Step(c, e).process.Some? <==>
      (e.UserDisconnect? && c.process.Some?) ||
      (e.StateLine? && c.process == Some(e.pid) && e.reported == OPENVPN_EXITED)
  {
    hide Inv;
    match e
    case UserConnect(force, mismatch) => ConnectStates(c, force, mismatch);
    case PostedRuns(now, changed) => DoConnectNeverDisconnects(c.(posted := c.posted - 1), now, changed);
    case StateLine(now, _, o, _) => ReportKeepsProcess(c, now, o);
    case ProcessExits(now, _) => ReportKeepsProcess(c.(process := None, exits := c.exits + 1), now, OPENVPN_EXITED);
    case _ =>
  }

  lemma DoConnectNeverDisconnects(c: Conn, now: int, changed: bool)
    requires c.state != DISCONNECTED
    ensures DoConnect(c, now, changed).state != DISCONNECTED
  {
    hide Resume;
    ResumeOutcome(c);
  }

  // ---------- Recovery ----------

  lemma {:induction false} RunAppend(c: Conn, es: seq<Event>, e: Event)
    requires ValidRun(c, es) && Enabled(Run(c, es), e)
    ensures ValidRun(c, es + [e]) && Run(c, es + [e]) == Step(Run(c, es), e)
    decreases |es|
  {
    if es == [] {
      assert [e][1..] == [];
    } else {
      assert (es + [e])[1..] == es[1..] + [e];
      RunAppend(Step(c, es[0]), es[1..], e);
    }
  }

  lemma EmptyRun(c: Conn)
    ensures ValidRun(c, []) && Run(c, []) == c
  {
  }

  /** The clock reading at which an event is handled, if it takes one. */
  function At(e: Event): Option<int> {
    match e
    case PostedRuns(now, _) => Some(now)
    case IntervalExpires(now) => Some(now)
    case StateLine(now, _, _, _) => Some(now)
    case ProcessExits(now, _) => Some(now)
    case _ => None
  }

  predicate Environment(e: Event) {
    e.PostedRuns? || e.IntervalExpires? || e.ProcessExits?
  }

  lemma ExitOutcome(c: Conn, now: int)
    requires c.process.Some? && c.state != DISCONNECTED
    ensures var d := OnOpenVPNExited(c, now, c.process.value);
      && d.process.None? && d.launches == c.launches
      && (c.state == DISCONNECTING <==> d.state == DISCONNECTED)
      && (c.state != DISCONNECTING ==>
        d.state != CONNECTED && d.state != DISCONNECTING && (d.posted > 0 || d.interval.Some?))
  {
  }

  lemma DoConnectOutcome(c: Conn, now: int)
    requires c.process.None? && c.state != CONNECTED && c.state != DISCONNECTING
    ensures var d := DoConnect(c, now, false); d.launches == c.launches + 1 && d.process == Some(c.launches)
  {
  }

  /** Whatever happened before, and without any call from the user, at most three more turns of the
      event loop (an exit, a timer, a posted callback) launch a new process from any state that means to
      be connected, and an exit ends DISCONNECTING. */
  lemma Recovers(c: Conn, now: int) returns (es: seq<Event>)
    requires Inv(c)
    requires c.state != DISCONNECTED
    ensures |es| <= 3 && ValidRun(c, es)
    ensures forall i :: 0 <= i < |es| ==> Environment(es[i]) && At(es[i]).Some? && now <= At(es[i]).value
    ensures forall i, j :: 0 <= i < j < |es| ==> At(es[i]).value <= At(es[j]).value
    ensures c.state == DISCONNECTING ==> Run(c, es).state == DISCONNECTED && Run(c, es).process.None?
    ensures c.state != DISCONNECTING ==> Run(c, es).launches == c.launches + 1 && Run(c, es).process == Some(c.launches)
  {
    hide Run, ValidRun, Logged, OnOpenVPNExited, DoConnect;
    es := [];
    EmptyRun(c);
    var d, t := c, now;
    if c.process.Some? {
      var e := ProcessExits(t, c.process.value);
      ExitOutcome(c, t);
      RunAppend(c, es, e);
      es, d := es + [e], Step(d, e);
    }
    if c.state != DISCONNECTING {
      if d.posted == 0 {
        t := if t < d.interval.value then d.interval.value else t;
        var e := IntervalExpires(t);
        RunAppend(c, es, e);
        es, d := es + [e], Step(d, e);
      }
      var e := PostedRuns(t, false);
      DoConnectOutcome(d.(posted := d.posted - 1), t);
      RunAppend(c, es, e);
      es := es + [e];
    }
  }

  /** DISCONNECTED does not mean that no process runs: from any idle connection, disconnecting right
      after the launch ends there with the new process alive. */
  lemma DisconnectedWithProcess(c: Conn, now: int) returns (es: seq<Event>)
    requires Inv(c) && c.state == DISCONNECTED && c.process.None?
    ensures ValidRun(c, es)
    ensures Run(c, es).state == DISCONNECTED && Run(c, es).process == Some(c.launches)
  {
    hide Run, ValidRun, Logged;
    var e0, e1, e2 := UserConnect(false, false), PostedRuns(now, false), UserDisconnect;
    EmptyRun(c);
    RunAppend(c, [], e0);
    RunAppend(c, [] + [e0], e1);
    RunAppend(c, [] + [e0] + [e1], e2);
    es := [] + [e0] + [e1] + [e2];
  }
}
