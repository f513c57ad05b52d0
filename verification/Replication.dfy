/**
 The whole chain of copies, daemon to main process to renderer, and the proof that
 the copies agree once everything under way has arrived.
 */
module Replication {
  import opened Common
  import opened Json
  import opened DaemonProtocol
  import R = DaemonRuns
  import L = DaemonLog
  import opened Mirror

  /** A window: whether its page runs, the page's copy, and how much of what
      the main process sent has reached it. */
  datatype Window = Window(started: bool, page: Renderer, taken: nat)

  /** A daemon, one client application and what is between them. The socket is the
      daemon's number for the application's websocket; received counts the messages
      that reached the application on it. */
  datatype System = System(daemon: Daemon, main: Main, socket: Option<nat>, received: nat, window: Option<Window>)

  function Initial(store: map<Key, Json>, version: string): System {
    System(Started(store), Main(version, false, false, map[], []), None, 0, None)
  }

  datatype Move =
    | DaemonMoves(h: Happening)
    | AppConnects(client: nat)
    | AppReceives
    | AppLosesSocket
    | WindowOpens
    | PageStarts(dropped: nat)
    | PageReceives
    | WindowCloses

  predicate CanMove(s: System, m: Move) {
    match m
    case DaemonMoves(h) => CanHappen(s.daemon, h)
    case AppConnects(c) => s.socket.None? && !s.main.open && !s.main.halted && CanHappen(s.daemon, ClientOpens(c))
    case AppReceives =>
      s.socket.Some? && s.socket.value in s.daemon.sent && s.received < |s.daemon.sent[s.socket.value]|
    case AppLosesSocket => s.socket.Some?
    case WindowOpens => s.window.None?
    case PageStarts(dropped) => s.window.Some? && s.window.value.taken + dropped <= |s.main.toWindow|
    case PageReceives => s.window.Some? && s.window.value.started && s.window.value.taken < |s.main.toWindow|
    case WindowCloses => s.window.Some?
  }

  /** A starting page asks for the data synchronously; messages sent before may be lost, or reach it later. */
  function Do(s: System, m: Move): System
    requires CanMove(s, m)
  {
    match m
    case DaemonMoves(h) => s.(daemon := Happen(s.daemon, h))
    case AppConnects(c) => s.(daemon := Happen(s.daemon, ClientOpens(c)), socket := Some(c), received := 0)
    case AppReceives =>
      var p := AfterPost(s.main, s.daemon.sent[s.socket.value][s.received]);
      s.(main := p, received := s.received + 1, socket := if p.halted then None else s.socket)
    case AppLosesSocket => s.(main := AfterError(s.main), socket := None)
    case WindowOpens =>
      s.(main := NotifyWindow(s.main), window := Some(Window(false, Renderer(false, map[]), |s.main.toWindow|)))
    case PageStarts(dropped) =>
      var blank := Renderer(false, map[]);
      var page := if s.main.open then OnIpc(blank, Up(s.main.mirror)) else blank;
      s.(window := Some(Window(true, page, s.window.value.taken + dropped)))
    case PageReceives =>
      var w := s.window.value;
      s.(window := Some(w.(page := OnIpc(w.page, s.main.toWindow[w.taken]), taken := w.taken + 1)))
    case WindowCloses => s.(window := None)
  }

  predicate CanPlay(s: System, ms: seq<Move>)
    decreases |ms|
  {
    ms == [] || (CanMove(s, ms[0]) && CanPlay(Do(s, ms[0]), ms[1..]))
  }

  function Play(s: System, ms: seq<Move>): System
    requires CanPlay(s, ms)
    decreases |ms|
  {
    if ms == [] then s else Play(Do(s, ms[0]), ms[1..])
  }

  // ---------- The invariant ----------

  predicate Within(m: map<Key, Json>, n: map<Key, Json>) {
    forall k :: k in m ==> k in n && n[k] == m[k]
  }

  /** The application starts a socket with the whole data, and while it is open
      its copy holds all that it received. */
  predicate MainFollows(s: System) {
    && (s.main.open ==> s.socket.Some?) && (s.main.halted ==> s.socket.None?)
    && (s.socket.Some? ==>
      && s.socket.value in s.daemon.sent && s.received <= |s.daemon.sent[s.socket.value]|
      && R.Greeted(s.daemon.sent[s.socket.value])
      && (if s.main.open
          then s.received > 0 && Within(R.Replay(s.daemon.sent[s.socket.value][..s.received]), s.main.mirror)
          else s.received == 0))
  }

  function Values(i: Ipc): map<Key, Json> {
    match i
    case Up(values) => values
    case Down => map[]
    case Post(values) => values
  }

  /** The members that messages to a page set, with the values they set last. */
  function Writes(queue: seq<Ipc>): map<Key, Json> {
    if queue == [] then map[] else Values(queue[0]) + Writes(queue[1..])
  }

  /** The messages under way to a page end in values of the main process; with them
      a running page has every member that the main process has. */
  predicate PageFollows(s: System) {
    s.window.Some? ==>
      var w := s.window.value;
      && w.taken <= |s.main.toWindow|
      && Within(Writes(s.main.toWindow[w.taken..]), s.main.mirror)
      && (s.main.open && w.started ==> Within(s.main.mirror, w.page.mirror + Writes(s.main.toWindow[w.taken..])))
  }

  ghost predicate Inv(s: System) {
    R.Inv(s.daemon) && MainFollows(s) && PageFollows(s)
  }

  lemma {:induction false} WritesAppend(q: seq<Ipc>, i: Ipc)
    ensures Writes(q + [i]) == Writes(q) + Values(i)
  {
    if q == [] {
      assert [i][1..] == [];
    } else {
      assert (q + [i])[1..] == q[1..] + [i];
      WritesAppend(q[1..], i);
    }
  }

  lemma {:induction false} WritesDrop(q: seq<Ipc>, n: nat)
    requires n <= |q|
    ensures Within(Writes(q[n..]), Writes(q))
    decreases |q|
  {
    if n > 0 {
      WritesDrop(q[1..], n - 1);
      assert q[1..][n - 1..] == q[n..];
    } else {
      assert q[0..] == q;
    }
  }

  /** The main process applied a delta, or the whole of its copy, and sent it on. */
  lemma SendKeepsPage(s: System, p: Main, i: Ipc)
    requires PageFollows(s)
    requires p.toWindow == s.main.toWindow + [i] && p.mirror == s.main.mirror + Values(i)
    requires p.open == s.main.open || !p.open || i == Up(s.main.mirror)
    ensures PageFollows(s.(main := p))
  {
    if s.window.Some? {
      var q := s.main.toWindow[s.window.value.taken..];
      assert p.toWindow[s.window.value.taken..] == q + [i];
      WritesAppend(q, i);
    }
  }

  lemma ForwardKeepsPage(s: System, values: map<Key, Json>)
    requires PageFollows(s)
    ensures PageFollows(s.(main := Forward(s.main, values))) && Forward(s.main, values).mirror == s.main.mirror + values
  {
    FilterIsSound(s.main.mirror, values);
    SendKeepsPage(s, Forward(s.main, values), Post(FilterChanges(s.main.mirror, values)));
  }

  lemma DaemonKeeps(s: System, h: Happening)
    requires Inv(s) && CanHappen(s.daemon, h)
    ensures Inv(s.(daemon := Happen(s.daemon, h)))
  {
    hide R.Inv, Happen, CanHappen, PageFollows, R.Replay;
    var e := Happen(s.daemon, h);
    R.HappenKeepsInv(s.daemon, h);
    L.HappenGrows(s.daemon, h);
    if s.socket.Some? {
      var c := s.socket.value;
      assert s.daemon.sent[c] <= e.sent[c];
      assert e.sent[c][..s.received] == s.daemon.sent[c][..s.received];
      assert e.sent[c][0] == s.daemon.sent[c][0];
    }
    PageIgnores(s, s.(daemon := e));
  }

  lemma PageIgnores(s: System, t: System)
    requires PageFollows(s) && t.main == s.main && t.window == s.window
    ensures PageFollows(t)
  {
  }

  /** Handling a message keeps the page in step, and an open copy takes over all its values. */
  lemma PostKeepsPage(s: System, m: Message)
    requires PageFollows(s)
    ensures var p := AfterPost(s.main, m);
      && PageFollows(s.(main := p))
      && (p.open && m.Data? ==> p.mirror == s.main.mirror + m.values)
      && (p.open && m.ErrorPost? ==> p.mirror == s.main.mirror)
  {
    if s.main.open {
      ForwardKeepsPage(s, if m.Data? then m.values else map[]);
    } else if Complete(m) && m.version == Some(s.main.version) {
      var up := s.(main := s.main.(open := true, toWindow := s.main.toWindow + [Up(s.main.mirror)]));
      SendKeepsPage(s, up.main, Up(s.main.mirror));
      ForwardKeepsPage(up, m.values);
    }
  }

  lemma ReceiveKeeps(s: System)
    requires Inv(s) && CanMove(s, AppReceives)
    ensures Inv(Do(s, AppReceives))
  {
    hide CanHappen, Happen, R.Inv;
    var p := AfterPost(s.main, s.daemon.sent[s.socket.value][s.received]);
    PostKeepsPage(s, s.daemon.sent[s.socket.value][s.received]);
    PageIgnores(s.(main := p), Do(s, AppReceives));
    hide PageFollows;
    ReceiveKeepsMain(s);
  }

  lemma ReceiveKeepsMain(s: System)
    requires MainFollows(s) && PageFollows(s) && CanMove(s, AppReceives)
    ensures MainFollows(Do(s, AppReceives))
  {
    hide CanHappen, Happen;
    var log, n := s.daemon.sent[s.socket.value], s.received;
    PostKeepsPage(s, log[n]);
    assert log[..n + 1][..n] == log[..n] && log[..n + 1][n] == log[n];
    assert n == 0 ==> log[..n] == [];
    assert R.Replay(log[..n + 1]) == if log[n].Data? then R.Replay(log[..n]) + log[n].values else R.Replay(log[..n]);
    var p := AfterPost(s.main, log[n]);
    assert p.halted || p.open by {
      if !s.main.open { assert log[n] == log[0] && Complete(log[n]); }
    }
    assert p.open && !p.halted ==> Within(R.Replay(log[..n + 1]), p.mirror);
    hide PageFollows, Forward;
  }

  lemma ConnectKeeps(s: System, c: nat)
    requires Inv(s) && CanMove(s, AppConnects(c))
    ensures Inv(Do(s, AppConnects(c)))
  {
    var e := Happen(s.daemon, ClientOpens(c));
    DaemonKeeps(s, ClientOpens(c));
    assert e.sent[c] == [Snapshot(Welcome(s.daemon, c))];
    hide R.Inv, Happen, CanHappen, PageFollows;
    PageIgnores(s, Do(s, AppConnects(c)));
  }

  lemma WindowKeeps(s: System, m: Move)
    requires MainFollows(s) && PageFollows(s) && CanMove(s, m)
    requires !m.DaemonMoves? && !m.AppConnects? && !m.AppReceives?
    ensures MainFollows(Do(s, m)) && PageFollows(Do(s, m)) && Do(s, m).daemon == s.daemon
  {
    hide CanHappen, Happen, R.Replay, R.Greeted;
    match m
    case AppLosesSocket => SendKeepsPage(s, AfterError(s.main), Down);
    case WindowOpens =>
      var i := if s.main.open then Up(s.main.mirror) else Down;
      assert NotifyWindow(s.main).toWindow[|s.main.toWindow|..] == [i];
      WritesAppend([], i);
      assert [] + [i] == [i];
    case PageStarts(dropped) => StartKeeps(s, dropped);
    case PageReceives =>
      var q := s.main.toWindow[s.window.value.taken..];
      assert q[1..] == s.main.toWindow[s.window.value.taken + 1..];
      WritesDrop(q, 1);
    case WindowCloses =>
  }

  /** Messages sent before the page asked for the data cannot set its copy back. */
  lemma StartKeeps(s: System, dropped: nat)
    requires PageFollows(s) && CanMove(s, PageStarts(dropped))
    ensures PageFollows(Do(s, PageStarts(dropped)))
  {
    var q := s.main.toWindow[s.window.value.taken..];
    assert q[dropped..] == s.main.toWindow[s.window.value.taken + dropped..];
    WritesDrop(q, dropped);
  }

  lemma MoveKeeps(s: System, m: Move)
    requires Inv(s) && CanMove(s, m)
    ensures Inv(Do(s, m))
  {
    hide R.Inv, Happen, CanHappen, MainFollows, PageFollows, R.Replay, R.Greeted, Writes, AfterPost, AfterError,
        NotifyWindow;
    match m
    case DaemonMoves(h) => DaemonKeeps(s, h);
    case AppConnects(c) => ConnectKeeps(s, c);
    case AppReceives => ReceiveKeeps(s);
    case _ => WindowKeeps(s, m);
  }

  lemma {:induction false} PlayKeeps(s: System, ms: seq<Move>)
    requires Inv(s) && CanPlay(s, ms)
    ensures Inv(Play(s, ms))
    decreases |ms|
  {
    if ms != [] {
      MoveKeeps(s, ms[0]);
      PlayKeeps(Do(s, ms[0]), ms[1..]);
    }
  }

  // ---------- Main result ----------

  /** The daemon has told everything, and all of it has arrived at the main process. */
  predicate Settled(s: System) {
    && s.main.open && s.socket.Some? && s.socket.value in s.daemon.clients && s.socket.value in s.daemon.sent
    && s.daemon.pending == {} && s.received == |s.daemon.sent[s.socket.value]|
  }

  /** Over every run of the whole chain, once notifications and messages under way have arrived, the
      main process and a running page agree with the daemon on every member that the daemon holds,
      except the byte counts. */
  lemma MirrorsConverge(store: map<Key, Json>, version: string, ms: seq<Move>, k: Key)
    requires CanPlay(Initial(store, version), ms)
    ensures var s := Play(Initial(store, version), ms);
      Settled(s) && R.Tracked(k) && Lookup(s.daemon, k).Some? ==>
      && k in s.main.mirror && Lookup(s.daemon, k) == Some(s.main.mirror[k])
      && (s.window.Some? && s.window.value.started && s.window.value.taken == |s.main.toWindow| ==>
            k in s.window.value.page.mirror && Lookup(s.daemon, k) == Some(s.window.value.page.mirror[k]))
  {
    InitialInv(store, version);
    PlayKeeps(Initial(store, version), ms);
    var s := Play(Initial(store, version), ms);
    if Settled(s) && R.Tracked(k) && Lookup(s.daemon, k).Some? {
      SettledAgrees(s, k);
    }
  }

  lemma InitialInv(store: map<Key, Json>, version: string)
    ensures Inv(Initial(store, version))
  {
    R.StartedInv(store);
  }

  lemma SettledAgrees(s: System, k: Key)
    requires Inv(s) && Settled(s)
    requires R.Tracked(k) && Lookup(s.daemon, k).Some?
    ensures k in s.main.mirror && Lookup(s.daemon, k) == Some(s.main.mirror[k])
    ensures s.window.Some? && s.window.value.started && s.window.value.taken == |s.main.toWindow| ==>
      k in s.window.value.page.mirror && Lookup(s.daemon, k) == Some(s.window.value.page.mirror[k])
  {
    var c := s.socket.value;
    assert s.daemon.sent[c][..s.received] == s.daemon.sent[c];
    assert R.Agrees(R.Replay(s.daemon.sent[c]), s.daemon);
  }
  // ---------- Everything arrives ----------

  /** The application is connected to a daemon that is not stopped. */
  predicate Online(s: System) {
    && s.main.open && !s.daemon.stopped
    && s.socket.Some? && s.socket.value in s.daemon.clients && s.socket.value in s.daemon.sent
  }

  /** Nothing is left to tell, and nothing is under way, also not to a running page. */
  predicate Quiet(s: System) {
    Settled(s) && (s.window.Some? && s.window.value.started ==> s.window.value.taken == |s.main.toWindow|)
  }

  /** The rounds of notifications that are left: telling one may mark the ping statistics once more. */
  function Rounds(d: Daemon): nat {
    if d.pending == {} then 0 else if d.pending <= {StateKey(PING_STATS)} then 1 else 2
  }

  predicate Draining(m: Move) {
    m == DaemonMoves(NotifyRuns) || m.AppReceives? || m.PageReceives?
  }

  lemma NotifyLeavesPings(d: Daemon)
    requires d.scheduled
    ensures var e := NotifyChanges(d);
      && e.clients == d.clients && e.stopped == d.stopped && e.pending <= {StateKey(PING_STATS)}
      && (d.pending <= {StateKey(PING_STATS)} ==> e.pending == {}) && d.sent.Keys == e.sent.Keys
  {
    var told := SendAll(d.(scheduled := false, pending := {}), Delta(d, d.pending));
    SendAllKeepsClients(d.(scheduled := false, pending := {}), Delta(d, d.pending));
    PingsMarkPings(told);
    hide SendAll, Delta, PingServers, Wanted, FirewallRelevant, Idle;
  }

  lemma SendAllKeepsClients(d: Daemon, m: Message)
    ensures var e := SendAll(d, m);
      e.clients == d.clients && e.stopped == d.stopped && e.pending == d.pending && e.sent.Keys == d.sent.Keys
  {
  }

  lemma PingsMarkPings(d: Daemon)
    ensures var e := PingServers(d);
      && e.clients == d.clients && e.stopped == d.stopped && e.sent == d.sent
      && e.pending <= d.pending + {StateKey(PING_STATS)}
  {
    hide Put, Idle;
  }

  lemma TellDrains(s: System)
    requires Inv(s) && Online(s) && s.daemon.pending != {}
    ensures CanMove(s, DaemonMoves(NotifyRuns))
    ensures var t := Do(s, DaemonMoves(NotifyRuns)); Online(t) && Rounds(t.daemon) < Rounds(s.daemon)
  {
    TellMakesRounds(s.daemon);
    hide MainFollows, PageFollows, NotifyChanges, Rounds;
  }

  lemma TellMakesRounds(d: Daemon)
    requires R.Inv(d) && !d.stopped && d.pending != {}
    ensures CanHappen(d, NotifyRuns)
    ensures var e := Happen(d, NotifyRuns);
      e.clients == d.clients && e.stopped == d.stopped && e.sent.Keys == d.sent.Keys && Rounds(e) < Rounds(d)
  {
    assert d.scheduled && d.postedNotifies > 0;
    NotifyLeavesPings(d.(postedNotifies := d.postedNotifies - 1));
    hide NotifyChanges, R.Inv;
  }

  lemma ReceiveDrains(s: System)
    requires Online(s) && s.received < |s.daemon.sent[s.socket.value]| && !s.main.halted
    ensures CanMove(s, AppReceives)
    ensures var t := Do(s, AppReceives);
      Online(t) && t.daemon == s.daemon && t.socket == s.socket && t.received == s.received + 1
  {
  }

  lemma PageDrains(s: System)
    requires s.window.Some? && s.window.value.started && s.window.value.taken < |s.main.toWindow|
    ensures CanMove(s, PageReceives)
    ensures var t := Do(s, PageReceives);
      && t.daemon == s.daemon && t.main == s.main && t.socket == s.socket && t.received == s.received
      && t.window.Some? && t.window.value.started && t.window.value.taken == s.window.value.taken + 1
  {
  }

  function UnderWay(s: System): nat
    requires Online(s) && s.received <= |s.daemon.sent[s.socket.value]|
  {
    |s.daemon.sent[s.socket.value]| - s.received
  }

  function Unread(s: System): nat {
    if s.window.Some? && s.window.value.taken <= |s.main.toWindow| then |s.main.toWindow| - s.window.value.taken else 0
  }

  /** The next message to be handled, in a system that is not quiet. */
  lemma NextDrains(s: System) returns (m: Move)
    requires Inv(s) && Online(s) && !Quiet(s)
    ensures CanMove(s, m) && Draining(m) && Online(Do(s, m)) && Inv(Do(s, m))
    ensures s.received <= |s.daemon.sent[s.socket.value]|
    ensures var t := Do(s, m);
      && t.received <= |t.daemon.sent[t.socket.value]|
      && (Rounds(t.daemon) < Rounds(s.daemon) ||
          (Rounds(t.daemon) == Rounds(s.daemon) &&
           (UnderWay(t) < UnderWay(s) || (UnderWay(t) == UnderWay(s) && Unread(t) < Unread(s)))))
  {
    hide CanHappen, Happen, R.Inv, R.Replay, R.Greeted, Writes, AfterPost, Rounds;
    if s.daemon.pending != {} {
      m := DaemonMoves(NotifyRuns);
      TellDrains(s);
    } else if s.received < |s.daemon.sent[s.socket.value]| {
      m := AppReceives;
      ReceiveDrains(s);
    } else {
      m := PageReceives;
      PageDrains(s);
    }
    hide CanMove, Do, PageFollows;
    MoveKeeps(s, m);
  }

  /**
   From every reachable state with the application online, handling notifications and
   messages alone makes the whole chain quiet, so that MirrorsConverge applies.
   */
  lemma {:induction false} EverythingArrives(s: System) returns (ms: seq<Move>)
    requires Inv(s) && Online(s)
    ensures CanPlay(s, ms) && Quiet(Play(s, ms))
    ensures forall i :: 0 <= i < |ms| ==> Draining(ms[i])
    decreases Rounds(s.daemon), if s.received <= |s.daemon.sent[s.socket.value]| then UnderWay(s) else 0, Unread(s)
  {
    if Quiet(s) {
      ms := [];
    } else {
      var m := NextDrains(s);
      hide Inv, Do, CanMove, Quiet, Rounds, Unread, UnderWay;
      var rest := EverythingArrives(Do(s, m));
      ms := [m] + rest;
      assert ms[1..] == rest;
    }
  }
  // ---------- The handshake ----------

  /** Until it has the whole data the main process ignores what it is sent; then it takes over the data of its own
      version, and leaves those of any other. */
  lemma HandshakeOutcome(p: Main, m: Message)
    requires !p.open
    ensures var q, whole := AfterPost(p, m),
        m.Data? && CONFIG in m.tables && ACCOUNT in m.tables && SETTINGS in m.tables && STATE_TABLE in m.tables;
      && (!whole ==> q == p)
      && (whole && m.version != Some(p.version) ==> q == p.(halted := true))
      && (whole && m.version == Some(p.version) ==>
           && q.open && q.halted == p.halted && q.version == p.version && q.mirror == p.mirror + m.values
           && |q.toWindow| == |p.toWindow| + 2 && q.toWindow[..|p.toWindow|] == p.toWindow
           && q.toWindow[|p.toWindow|] == Up(p.mirror) && q.toWindow[|p.toWindow| + 1].Post?)
  {
    if m.Data? { FilterIsSound(p.mirror, m.values); }
  }

  /** An open copy belongs to a daemon of the client's version. */
  predicate VersionFits(s: System) { s.main.open ==> s.main.version == "0.9.0-preview" }

  lemma MoveKeepsVersion(s: System, m: Move)
    requires Inv(s) && VersionFits(s) && CanMove(s, m)
    ensures VersionFits(Do(s, m)) && Do(s, m).main.version == s.main.version
  {
    hide R.Inv, Happen, CanHappen, PageFollows, R.Replay, Forward;
    if m.AppReceives? { ReceiveKeepsVersion(s); }
  }

  lemma ReceiveKeepsVersion(s: System)
    requires MainFollows(s) && VersionFits(s) && CanMove(s, AppReceives)
    ensures VersionFits(Do(s, AppReceives)) && Do(s, AppReceives).main.version == s.main.version
  {
    hide R.Replay;
    var log := s.daemon.sent[s.socket.value];
    if !s.main.open {
      assert log[s.received] == log[0];
      HandshakeOutcome(s.main, log[0]);
    }
  }

  lemma {:induction false} PlayKeepsVersion(s: System, ms: seq<Move>)
    requires Inv(s) && VersionFits(s) && CanPlay(s, ms)
    ensures VersionFits(Play(s, ms)) && Play(s, ms).main.version == s.main.version
    decreases |ms|
  {
    if ms != [] {
      MoveKeeps(s, ms[0]);
      MoveKeepsVersion(s, ms[0]);
      hide Inv, Do, CanMove, VersionFits;
      PlayKeepsVersion(Do(s, ms[0]), ms[1..]);
    }
  }

  /** Over every run: a client of another version than the daemon never opens. */
  lemma OnlySameVersionOpens(store: map<Key, Json>, version: string, ms: seq<Move>)
    requires CanPlay(Initial(store, version), ms)
    ensures Play(Initial(store, version), ms).main.open ==> version == "0.9.0-preview"
  {
    InitialInv(store, version);
    PlayKeepsVersion(Initial(store, version), ms);
  }

  /** A first message of another version ends the connection and leaves copy and window alone. */
  lemma OtherVersionRefused(s: System)
    requires Inv(s) && CanMove(s, AppReceives) && !s.main.open && s.main.version != "0.9.0-preview"
    ensures var t := Do(s, AppReceives);
      && t.socket.None? && !t.main.open && t.main.halted
      && t.main.mirror == s.main.mirror && t.main.toWindow == s.main.toWindow
      && t.window == s.window && t.daemon == s.daemon
  {
    hide R.Inv, R.Replay, PageFollows;
    HandshakeOutcome(s.main, s.daemon.sent[s.socket.value][0]);
  }

  /** From then on, in every run, the client stays closed and its copy stays as it is. */
  lemma {:induction false} RefusedForGood(s: System, ms: seq<Move>)
    requires s.main.halted && s.socket.None? && !s.main.open && CanPlay(s, ms)
    ensures var t := Play(s, ms); t.main.halted && t.socket.None? && !t.main.open && t.main.mirror == s.main.mirror
    decreases |ms|
  {
    if ms != [] {
      hide Happen, CanHappen, AfterPost;
      RefusedForGood(Do(s, ms[0]), ms[1..]);
    }
  }

  // ---------- What the window shows ----------

  /** Whether the last news in a list of messages was that the daemon is up. */
  function LastTold(queue: seq<Ipc>): Option<bool> {
    if queue == [] then None
    else
      var n := |queue| - 1;
      if queue[n].Up? then Some(true) else if queue[n].Down? then Some(false) else LastTold(queue[..n])
  }

  predicate HasUp(queue: seq<Ipc>) { exists i :: 0 <= i < |queue| && queue[i].Up? }

  /** A window was told last what is the case, and a running page is up, or will be when it has read its messages. */
  predicate WindowKnows(s: System) {
    s.window.Some? ==>
      && s.window.value.taken <= |s.main.toWindow|
      && LastTold(s.main.toWindow) == Some(s.main.open)
      && (s.main.open && s.window.value.started ==>
            s.window.value.page.isOpen || HasUp(s.main.toWindow[s.window.value.taken..]))
  }

  lemma LastToldAppend(queue: seq<Ipc>, i: Ipc)
    ensures LastTold(queue + [i]) == if i.Up? then Some(true) else if i.Down? then Some(false) else LastTold(queue)
  {
    assert (queue + [i])[..|queue|] == queue;
  }

  lemma HasUpAppend(queue: seq<Ipc>, i: Ipc)
    ensures HasUp(queue + [i]) <==> HasUp(queue) || i.Up?
  {
    var all := queue + [i];
    if HasUp(queue) {
      var k :| 0 <= k < |queue| && queue[k].Up?;
      assert all[k].Up?;
    }
    assert all[|queue|] == i;
  }

  lemma TellKeepsWindow(s: System, p: Main, i: Ipc)
    requires WindowKnows(s) && p.toWindow == s.main.toWindow + [i]
    requires (i.Up? ==> p.open) && (i.Down? ==> !p.open) && (i.Post? ==> p.open == s.main.open)
    ensures WindowKnows(s.(main := p))
  {
    if s.window.Some? {
      LastToldAppend(s.main.toWindow, i);
      var rest := s.main.toWindow[s.window.value.taken..];
      assert p.toWindow[s.window.value.taken..] == rest + [i];
      HasUpAppend(rest, i);
      hide LastTold, HasUp;
    }
  }

  lemma PostKeepsWindow(s: System, m: Message)
    requires WindowKnows(s)
    ensures WindowKnows(s.(main := AfterPost(s.main, m)))
  {
    hide WindowKnows;
    if s.main.open {
      var p := AfterPost(s.main, m);
      TellKeepsWindow(s, p, Post(FilterChanges(s.main.mirror, if m.Data? then m.values else map[])));
    } else if Complete(m) && m.version == Some(s.main.version) {
      var up := s.(main := s.main.(open := true, toWindow := s.main.toWindow + [Up(s.main.mirror)]));
      TellKeepsWindow(s, up.main, Up(s.main.mirror));
      TellKeepsWindow(up, AfterPost(s.main, m), Post(FilterChanges(s.main.mirror, m.values)));
    } else {
      SameWindow(s, AfterPost(s.main, m));
    }
  }

  lemma SameWindow(s: System, p: Main)
    requires WindowKnows(s) && p.open == s.main.open && p.toWindow == s.main.toWindow
    ensures WindowKnows(s.(main := p))
  {
  }

  lemma ReadKeepsWindow(s: System, m: Move)
    requires WindowKnows(s) && CanMove(s, m) && (m.WindowOpens? || m.PageStarts? || m.PageReceives? || m.WindowCloses?)
    ensures WindowKnows(Do(s, m))
  {
    match m
    case WindowOpens =>
      var i := if s.main.open then Up(s.main.mirror) else Down;
      LastToldAppend(s.main.toWindow, i);
    case PageReceives =>
      var q := s.main.toWindow[s.window.value.taken..];
      assert q[1..] == s.main.toWindow[s.window.value.taken + 1..];
      if HasUp(q) && !q[0].Up? {
        var k :| 0 <= k < |q| && q[k].Up?;
        assert q[1..][k - 1].Up?;
      }
    case _ =>
  }

  lemma MoveKeepsWindow(s: System, m: Move)
    requires WindowKnows(s) && CanMove(s, m)
    ensures WindowKnows(Do(s, m))
  {
    hide Happen, CanHappen, LastTold, HasUp;
    match m
    case AppReceives =>
      hide WindowKnows;
      var message := s.daemon.sent[s.socket.value][s.received];
      PostKeepsWindow(s, message);
      MainOnly(s.(main := AfterPost(s.main, message)), Do(s, m));
    case AppLosesSocket =>
      hide WindowKnows;
      TellKeepsWindow(s, AfterError(s.main), Down);
      MainOnly(s.(main := AfterError(s.main)), Do(s, m));
    case DaemonMoves(_) => MainOnly(s, Do(s, m));
    case AppConnects(_) => MainOnly(s, Do(s, m));
    case _ => ReadKeepsWindow(s, m);
  }

  lemma MainOnly(s: System, t: System)
    requires WindowKnows(s) && t.main.open == s.main.open && t.main.toWindow == s.main.toWindow && t.window == s.window
    ensures WindowKnows(t)
  {
  }

  lemma {:induction false} PlayKeepsWindow(s: System, ms: seq<Move>)
    requires WindowKnows(s) && CanPlay(s, ms)
    ensures WindowKnows(Play(s, ms))
    decreases |ms|
  {
    if ms != [] {
      MoveKeepsWindow(s, ms[0]);
      hide WindowKnows, Do, CanMove;
      PlayKeepsWindow(Do(s, ms[0]), ms[1..]);
    }
  }

  /** Over every run: the last a window was told is whether the copy is open, and a page that has read everything
      while the copy is open has opened. */
  lemma WindowToldTheTruth(store: map<Key, Json>, version: string, ms: seq<Move>)
    requires CanPlay(Initial(store, version), ms)
    ensures var s := Play(Initial(store, version), ms);
      s.window.Some? ==>
        && LastTold(s.main.toWindow) == Some(s.main.open)
        && (s.main.open && s.window.value.started && s.window.value.taken == |s.main.toWindow| ==>
              s.window.value.page.isOpen)
  {
    PlayKeepsWindow(Initial(store, version), ms);
  }
}
