/**
 The connection of daemon/connection.cpp together with the process object of
 daemon/openvpn.cpp that it owns: when a call of Shutdown reaches the process.
 */
module Supervision {
  import opened Common
  import opened ConnectionProtocol
  import CR = ConnectionRuns
  import M = ManagementProtocol

  /** A connection and the management channel of the process it owns. */
  datatype Joint = Joint(conn: Conn, pump: Option<M.Pump>)

  const START: Joint := Joint(Created, None)

  /** What DoConnect does to a new process object. */
  function Fresh(): M.Pump {
    M.Issue(M.StartInterface(M.START), "state on\nbytecount 5\nhold release")
  }

  function ShutdownTimes(p: M.Pump, n: nat): M.Pump
    decreases n
  {
    if n == 0 then p else ShutdownTimes(M.Shutdown(p), n - 1)
  }

  /** What a handler of the connection does to the process object: none, a new one, or calls of Shutdown. */
  function Follow(p: Option<M.Pump>, was: Conn, now: Conn): Option<M.Pump> {
    if now.process.None? then None
    else if now.process != was.process then Some(Fresh())
    else if p.None? || now.signals < was.signals then p
    else Some(ShutdownTimes(p.value, now.signals - was.signals))
  }

  datatype Move = ConnMoves(event: Event) | ChannelMoves(turn: M.Event)

  /** State lines come over the accepted connection; the process object is called by the connection alone. */
  predicate CanMove(j: Joint, m: Move) {
    match m
    case ConnMoves(e) =>
      && Enabled(j.conn, e)
      && (e.StateLine? && j.conn.process == Some(e.pid) ==> j.pump.Some? && j.pump.value.phase.Accepted?)
    case ChannelMoves(e) =>
      j.pump.Some? && M.CanHappen(j.pump.value, e) && !e.CallStart? && !e.CallStop? && !e.CallShutdown?
  }

  function Do(j: Joint, m: Move): Joint
    requires Inv(j) && CanMove(j, m)
  {
    match m
    case ConnMoves(e) =>
      var c := Step(j.conn, e);
      Joint(c, Follow(j.pump, j.conn, c))
    case ChannelMoves(e) => j.(pump := Some(M.Happen(j.pump.value, e)))
  }

  // ---------- The joint invariant ----------

  /** The process object has been asked to shut down as often as the connection asked it. */
  predicate Counted(j: Joint) {
    && (j.conn.process.Some? <==> j.pump.Some?)
    && (j.pump.Some? ==> M.Inv(j.pump.value) && j.pump.value.started && j.pump.value.shutdowns == j.conn.signals)
  }

  predicate Inv(j: Joint) { CR.Inv(j.conn) && Counted(j) }

  /** A handler signals the owned process at most once, and a new process not at all. */
  predicate SignalsOnce(c: Conn, d: Conn) {
    d.process.Some? ==>
      || (d.process == c.process && c.signals <= d.signals <= c.signals + 1)
      || (c.process.None? && d.signals == 0)
  }

  lemma LaunchSignals(c: Conn, now: int, changed: bool)
    ensures Launch(c, now, changed).signals == 0
  {
  }

  lemma DoConnectSignals(c: Conn, now: int, changed: bool)
    ensures SignalsOnce(c, DoConnect(c, now, changed))
  {
    hide Resume, Launch;
    CR.ResumeOutcome(c);
    if Resume(c).Some? { LaunchSignals(Resume(c).value, now, changed); }
  }

  lemma ReportSignals(c: Conn, now: int, o: OpenVPNState)
    ensures var d := SetOpenVPNState(c, now, o);
      && d.process == c.process && c.signals <= d.signals <= c.signals + 1
      && (o == OPENVPN_EXITING ==> d.signals == c.signals)
  {
  }

  lemma UserSignals(c: Conn, force: bool, mismatch: bool)
    ensures SignalsOnce(c, Connect(c, force, mismatch).0) && SignalsOnce(c, Disconnect(c))
  {
  }

  lemma StepSignals(c: Conn, e: Event)
    requires Enabled(c, e)
    ensures SignalsOnce(c, Step(c, e))
  {
    hide Connect, Disconnect, DoConnect, SetOpenVPNState;
    match e
    case UserConnect(force, mismatch) => UserSignals(c, force, mismatch);
    case UserDisconnect => UserSignals(c, false, false);
    case PostedRuns(now, changed) => DoConnectSignals(c.(posted := c.posted - 1), now, changed);
    case StateLine(now, _, o, _) => ReportSignals(c, now, o);
    case ProcessExits(now, _) => ReportSignals(c.(process := None, exits := c.exits + 1), now, OPENVPN_EXITED);
    case _ =>
  }

  lemma FreshInv()
    ensures M.Inv(Fresh()) && Fresh().started && Fresh().shutdowns == 0 && !Fresh().open_
  {
    var p := M.Happen(M.START, M.CallStart);
    M.HappenKeepsInv(M.START, M.CallStart);
    M.HappenKeepsInv(p, M.CallSend("state on\nbytecount 5\nhold release"));
  }

  lemma ShutdownKeepsInv(p: M.Pump)
    requires M.Inv(p)
    ensures M.Inv(M.Shutdown(p)) && M.Shutdown(p).shutdowns == p.shutdowns + 1 && M.Shutdown(p).started == p.started
  {
    M.HappenKeepsInv(p, M.CallShutdown);
    hide M.Inv;
  }

  lemma ChannelFrame(p: M.Pump, e: M.Event)
    requires M.Inv(p) && M.CanHappen(p, e) && !e.CallStart? && !e.CallShutdown?
    ensures var q := M.Happen(p, e);
      q.started == p.started && q.shutdowns == p.shutdowns && q.kills == p.kills && q.signaled == p.signaled
  {
    hide M.Inv;
  }

  lemma FollowKeepsCounted(j: Joint, d: Conn)
    requires Counted(j) && SignalsOnce(j.conn, d)
    ensures Counted(Joint(d, Follow(j.pump, j.conn, d)))
  {
    hide M.Inv, Fresh, M.Shutdown;
    if j.pump.Some? {
      var p := j.pump.value;
      ShutdownKeepsInv(p);
      assert ShutdownTimes(p, 0) == p && ShutdownTimes(p, 1) == M.Shutdown(p);
    } else {
      FreshInv();
    }
  }

  lemma DoKeepsInv(j: Joint, m: Move)
    requires Inv(j) && CanMove(j, m)
    ensures Inv(Do(j, m))
  {
    match m
    case ConnMoves(e) =>
      CR.StepKeepsInv(j.conn, e);
      StepSignals(j.conn, e);
      hide CR.Inv, Step, Enabled, Follow;
      FollowKeepsCounted(j, Step(j.conn, e));
      hide Counted;
    case ChannelMoves(e) =>
      M.HappenKeepsInv(j.pump.value, e);
      ChannelFrame(j.pump.value, e);
      hide CR.Inv, M.Inv, M.Happen, M.CanHappen;
  }

  predicate CanPlay(j: Joint, ms: seq<Move>)
    requires Inv(j)
    decreases |ms|
  {
    ms == [] || (CanMove(j, ms[0]) && (DoKeepsInv(j, ms[0]); CanPlay(Do(j, ms[0]), ms[1..])))
  }

  function Play(j: Joint, ms: seq<Move>): Joint
    requires Inv(j) && CanPlay(j, ms)
    decreases |ms|
  {
    if ms == [] then j else DoKeepsInv(j, ms[0]); Play(Do(j, ms[0]), ms[1..])
  }

  lemma {:induction false} PlayKeepsInv(j: Joint, ms: seq<Move>)
    requires Inv(j) && CanPlay(j, ms)
    ensures Inv(Play(j, ms))
    decreases |ms|
  {
    if ms != [] {
      DoKeepsInv(j, ms[0]);
      hide Inv, Do, CanMove;
      PlayKeepsInv(Do(j, ms[0]), ms[1..]);
    }
  }

  // ---------- When the process is told ----------

  /**
   Over joint runs: a handler of the connection that goes on owning the same process
   issues the SIGTERM command exactly when it makes the first Shutdown call and the
   process has connected by then; it kills the process exactly when it makes a later
   call; otherwise it leaves the channel alone.
   */
  lemma SigtermExactly(ms: seq<Move>, e: Event)
    requires CanPlay(START, ms) && CanMove(Play(START, ms), ConnMoves(e))
    ensures var j := Play(START, ms);
      var c, d := j.conn, Step(j.conn, e);
      d.process.Some? && d.process == c.process ==>
        && j.pump.Some? && Follow(j.pump, c, d).Some?
        && var p, q := j.pump.value, Follow(j.pump, c, d).value;
           && q.issued == p.issued +
                          (if d.signals > c.signals && c.signals == 0 && p.open_ then ["\nsignal SIGTERM\n\n"] else [])
           && q.kills == (if d.signals > c.signals > 0 then p.kills + 1 else p.kills)
  {
    PlayKeepsInv(START, ms);
    var j := Play(START, ms);
    StepSignals(j.conn, e);
    hide CanPlay, Play, Enabled, CR.Inv;
    if j.conn.process.Some? {
      FollowExactly(j, Step(j.conn, e));
    }
    hide Step, Follow;
  }

  lemma FollowExactly(j: Joint, d: Conn)
    requires Counted(j) && SignalsOnce(j.conn, d) && j.conn.process.Some?
    ensures d.process == j.conn.process ==>
      && Follow(j.pump, j.conn, d).Some?
      && var p, q, n := j.pump.value, Follow(j.pump, j.conn, d).value, j.conn.signals;
         && q.issued == p.issued + (if d.signals > n && n == 0 && p.open_ then ["\nsignal SIGTERM\n\n"] else [])
         && q.kills == (if d.signals > n > 0 then p.kills + 1 else p.kills)
  {
    var p := j.pump.value;
    assert ShutdownTimes(p, 0) == p && ShutdownTimes(p, 1) == M.Shutdown(p);
    assert M.SIGNAL + "\n" == "\nsignal SIGTERM\n\n";
    hide ShutdownTimes;
  }

  /** Over joint runs: a process that is to be replaced was told to shut down, and killed for every further time. */
  lemma ReplacedIsTold(ms: seq<Move>)
    requires CanPlay(START, ms)
    ensures var j := Play(START, ms);
      j.conn.state == DISCONNECTING_TO_RECONNECT && j.conn.process.Some? ==>
        j.pump.Some? && j.pump.value.signaled && j.pump.value.kills == j.conn.signals - 1
  {
    PlayKeepsInv(START, ms);
    hide CanPlay, Play;
  }

  // ---------- A signal that is lost ----------

  lemma {:induction false} PlayAppend(j: Joint, ms: seq<Move>, m: Move)
    requires Inv(j) && CanPlay(j, ms) && CanMove(Play(j, ms), m)
    requires Inv(Play(j, ms))
    ensures CanPlay(j, ms + [m]) && Play(j, ms + [m]) == Do(Play(j, ms), m) && Inv(Play(j, ms + [m]))
    decreases |ms|
  {
    hide Inv, Do, CanMove;
    if ms == [] {
      assert [m][1..] == [];
      DoKeepsInv(j, m);
    } else {
      DoKeepsInv(j, ms[0]);
      assert (ms + [m])[1..] == ms[1..] + [m];
      PlayAppend(Do(j, ms[0]), ms[1..], m);
    }
  }
  lemma IdleConnects(c: Conn)
    requires c.state == DISCONNECTED && c.process.None?
    ensures var d := Step(c, UserConnect(false, false));
      d.state == CONNECTING && d.process.None? && d.posted > 0 && d.launches == c.launches
  {
  }

  lemma ConnectingLaunches(c: Conn, now: int)
    requires c.state == CONNECTING && c.process.None? && c.posted > 0
    ensures var d := Step(c, PostedRuns(now, false));
      && (d.state == CONNECTING || d.state == STILL_CONNECTING)
      && d.process == Some(c.launches) && d.signals == 0 && d.launches == c.launches + 1
  {
  }

  lemma ForcedConnectSignals(c: Conn)
    requires (c.state == CONNECTING || c.state == STILL_CONNECTING) && c.process.Some?
    ensures var d := Step(c, UserConnect(true, false));
      && d.state == DISCONNECTING_TO_RECONNECT && d.process == c.process
      && d.signals == c.signals + 1 && d.launches == c.launches
  {
  }

  lemma ConnectedAfterAll(c: Conn, now: int, pid: nat)
    requires c.state == DISCONNECTING_TO_RECONNECT && c.process == Some(pid) && pid < c.launches
    ensures var e := StateLine(now, pid, OPENVPN_CONNECTED, false);
      && Enabled(c, e) && Step(c, e).state == CONNECTED && Step(c, e).process == c.process
      && Step(c, e).signals == c.signals
  {
  }

  /** A channel whose process connects after the first Shutdown call. */
  lemma ChannelOpensLate(p: M.Pump)
    requires p == M.Shutdown(Fresh())
    ensures M.Inv(p) && M.CanHappen(p, M.TaskRuns)
    ensures var q := M.Happen(p, M.TaskRuns);
      && M.Inv(q) && M.CanHappen(q, M.PeerConnects)
      && var r := M.Happen(q, M.PeerConnects);
         && M.Inv(r) && M.CanHappen(r, M.AcceptEnds(false))
         && var t := M.Happen(r, M.AcceptEnds(false)); t.phase.Accepted? && t.issued == Fresh().issued && t.kills == 0
  {
    FreshInv();
    ShutdownKeepsInv(Fresh());
    M.HappenKeepsInv(p, M.TaskRuns);
    var q := M.Happen(p, M.TaskRuns);
    assert p.posted[0] == M.Listen;
    assert q.phase == M.Listening;
    M.HappenKeepsInv(q, M.PeerConnects);
    hide M.Inv;
  }

  /**
   From any idle connection: a reconnect demanded while the new process has not
   connected yet is lost. Nothing is issued to the process but what DoConnect issued,
   and when it reports success the connection counts as connected with that process.
   */
  lemma EarlyReconnectIsLost(j: Joint, now: int) returns (ms: seq<Move>)
    requires Inv(j) && j.conn.state == DISCONNECTED && j.conn.process.None?
    ensures CanPlay(j, ms)
    ensures var k := Play(j, ms);
      && |ms| > 2 && ms[2] == ConnMoves(UserConnect(true, false))
      && k.conn.state == CONNECTED && k.conn.process == Some(j.conn.launches)
      && k.pump.Some? && k.pump.value.kills == 0
      && k.pump.value.issued == ["\n\n\n", "state on\nbytecount 5\nhold release\n"]
  {
    hide Step, Enabled, CanPlay, Play, CR.Inv, M.Inv, M.Happen, M.CanHappen, Fresh, M.Shutdown, SignalsOnce;
    var e0, e1, e2 := UserConnect(false, false), PostedRuns(now, false), UserConnect(true, false);
    var c0 := j.conn;
    NothingPlayed(j);
    ms := [];

    EnabledUser(c0, e0);
    IdleConnects(c0);
    PlayAppend(j, ms, ConnMoves(e0));
    ms := ms + [ConnMoves(e0)];
    var c1 := Step(c0, e0);
    assert Play(j, ms) == Joint(c1, None);

    EnabledPosted(c1, now);
    ConnectingLaunches(c1, now);
    PlayAppend(j, ms, ConnMoves(e1));
    ms := ms + [ConnMoves(e1)];
    var c2 := Step(c1, e1);
    assert Play(j, ms) == Joint(c2, Some(Fresh()));

    EnabledUser(c2, e2);
    ForcedConnectSignals(c2);
    PlayAppend(j, ms, ConnMoves(e2));
    ms := ms + [ConnMoves(e2)];
    assert ms[2] == ConnMoves(e2);
    var c3, p := Step(c2, e2), M.Shutdown(Fresh());
    assert ShutdownTimes(Fresh(), 1) == p;
    assert Play(j, ms) == Joint(c3, Some(p));

    ChannelOpensLate(p);
    ms := Opens(j, ms, c3, p);
    var t := M.Happen(M.Happen(M.Happen(p, M.TaskRuns), M.PeerConnects), M.AcceptEnds(false));

    var e3 := StateLine(now, c0.launches, OPENVPN_CONNECTED, false);
    ConnectedAfterAll(c3, now, c0.launches);
    PlayAppend(j, ms, ConnMoves(e3));
    ms := ms + [ConnMoves(e3)];
    assert ShutdownTimes(t, 0) == t;
    FreshTexts();
  }

  /** A new process is let go on with reports of its state and traffic. */
  lemma FreshTexts()
    ensures Fresh().issued == ["\n\n\n", "state on\nbytecount 5\nhold release\n"]
  {
    assert "state on\nbytecount 5\nhold release" + "\n" == "state on\nbytecount 5\nhold release\n";
    assert [] + [M.NEWLINES] == ["\n\n\n"];
  }

  lemma NothingPlayed(j: Joint)
    requires Inv(j)
    ensures CanPlay(j, []) && Play(j, []) == j
  {
  }

  lemma EnabledUser(c: Conn, e: Event)
    requires e.UserConnect?
    ensures Enabled(c, e)
  {
  }

  lemma EnabledPosted(c: Conn, now: int)
    requires c.posted > 0
    ensures Enabled(c, PostedRuns(now, false))
  {
  }

  lemma Opens(j: Joint, before: seq<Move>, c: Conn, p: M.Pump) returns (ms: seq<Move>)
    requires Inv(j) && CanPlay(j, before) && Play(j, before) == Joint(c, Some(p)) && Inv(Joint(c, Some(p)))
    requires p == M.Shutdown(Fresh())
    ensures before <= ms && CanPlay(j, ms) && Inv(Play(j, ms))
    ensures M.Inv(p) && M.CanHappen(p, M.TaskRuns)
    ensures var q := M.Happen(p, M.TaskRuns);
      && M.Inv(q) && M.CanHappen(q, M.PeerConnects)
      && var r := M.Happen(q, M.PeerConnects);
         M.Inv(r) && M.CanHappen(r, M.AcceptEnds(false)) &&
         Play(j, ms) == Joint(c, Some(M.Happen(r, M.AcceptEnds(false))))
  {
    hide CanPlay, Play, Inv, M.Inv, M.Happen, M.CanHappen, Fresh, M.Shutdown;
    ChannelOpensLate(p);
    var m0, m1, m2 := ChannelMoves(M.TaskRuns), ChannelMoves(M.PeerConnects), ChannelMoves(M.AcceptEnds(false));
    PlayAppend(j, before, m0);
    PlayAppend(j, before + [m0], m1);
    PlayAppend(j, before + [m0] + [m1], m2);
    ms := before + [m0] + [m1] + [m2];
  }
}
