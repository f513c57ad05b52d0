/** What the daemon sent to a client is never taken back: over any step its log only grows. */
module DaemonLog {
  import opened Json
  import CP = ConnectionProtocol
  import opened DaemonProtocol

  ghost predicate Grows(d: Daemon, e: Daemon) {
    forall c :: c in d.sent ==> c in e.sent && d.sent[c] <= e.sent[c]
  }

  lemma GrowsChains(d: Daemon, e: Daemon, f: Daemon)
    requires Grows(d, e) && Grows(e, f)
    ensures Grows(d, f)
  {
  }

  lemma RaiseSendsNothing(d: Daemon, flags: set<Key>)
    ensures OnStateChanged(d, flags).sent == d.sent
  {
  }

  /** Raising a change sends nothing. */
  lemma RaisingSendsNothing(d: Daemon, flags: set<Key>, k: Key, v: Json, b: bool)
    ensures OnStateChanged(d, flags).sent == d.sent && Set(d, k, v).sent == d.sent
    ensures SetIntention(d, b).sent == d.sent && SetNeedsReconnect(d, b).sent == d.sent
  {
    RaiseSendsNothing(d, flags);
    RaiseSendsNothing(d.(shouldConnect := b), {StateKey(CONNECT)});
    RaiseSendsNothing(d.(needsReconnect := b), {StateKey(NEEDSRECONNECT)});
    hide Accepts, OnStateChanged;
  }

  lemma PingingSendsNothing(d: Daemon)
    ensures PingServers(d).sent == d.sent && ApplyFirewall(d).sent == d.sent
  {
    hide Put, Wanted;
  }

  lemma SendAllGrows(d: Daemon, m: Message)
    ensures Grows(d, SendAll(d, m))
  {
  }

  lemma HearOneGrows(d: Daemon, n: CP.Notice)
    ensures Grows(d, HearOne(d, n))
  {
    hide OnStateChanged, SetIntention, SendAll, SetNeedsReconnect, Set;
    match n
    case StateChanged(s) =>
      var e := OnStateChanged(d, {StateKey(STATE)});
      RaisingSendsNothing(d, {StateKey(STATE)}, LOCATION, Null, false);
      RaisingSendsNothing(e, {}, LOCATION, Null, false);
    case Attempt(_) => RaisingSendsNothing(d, {}, LOCATION, Null, false);
    case Error(code, critical) => SendAllGrows(d, ErrorPost(code, critical));
  }

  lemma {:induction false} HearGrows(d: Daemon, ns: seq<CP.Notice>)
    ensures Grows(d, Hear(d, ns))
    decreases |ns|
  {
    if ns != [] {
      HearOneGrows(d, ns[0]);
      HearGrows(HearOne(d, ns[0]), ns[1..]);
      GrowsChains(d, HearOne(d, ns[0]), Hear(d, ns));
    }
  }

  lemma WithConnGrows(d: Daemon, c: CP.Conn)
    ensures Grows(d, WithConn(d, c))
  {
    HearGrows(d.(conn := c), News(d.conn, c));
    hide Hear, News;
  }

  lemma {:induction false} SettingSendsNothing(d: Daemon, items: seq<(Key, Json)>)
    ensures SetAll(d, items).sent == d.sent && SetChanged(d, items).sent == d.sent
    decreases |items|
  {
    if items != [] {
      RaisingSendsNothing(d, {}, items[0].0, items[0].1, false);
      hide Set;
      SettingSendsNothing(Set(d, items[0].0, items[0].1), items[1..]);
      SettingSendsNothing(d, items[1..]);
    }
  }

  lemma NotifyGrows(d: Daemon)
    ensures Grows(d, NotifyChanges(d))
  {
    hide PingServers, ApplyFirewall, SendAll, FirewallRelevant, Delta, Idle;
    var clear := d.(scheduled := false, pending := {});
    var told := SendAll(clear, Delta(d, d.pending));
    SendAllGrows(clear, Delta(d, d.pending));
    PingingSendsNothing(told);
    PingingSendsNothing(PingServers(told));
  }

  lemma CallGrows(d: Daemon, e: Daemon)
    requires e.sent == d.sent
    ensures Grows(d, NotifyChanges(e))
  {
    hide NotifyChanges;
    NotifyGrows(e);
  }

  lemma DataCallGrows(d: Daemon, items: seq<(Key, Json)>, mismatch: bool, all: bool)
    ensures Grows(d, SetAccount(d, items)) && Grows(d, ApplyConfig(d, items))
    ensures Grows(d, ApplySettings(d, items, mismatch)) && Grows(d, ResetSettings(d, all))
  {
    hide NotifyChanges, SetAll, SetChanged, Unsuppressed, Suppresses, SetNeedsReconnect, CP.NeedsReconnect, Defaults,
      Resettable, Grows, IsUnknown;
    SettingSendsNothing(EraseUnknown(d, ACCOUNT), items);
    CallGrows(d, SetAll(EraseUnknown(d, ACCOUNT), items));
    SettingSendsNothing(d, items);
    CallGrows(d, SetChanged(d, items));
    SettingsCallGrows(d, items, mismatch);
    var f := if all then EraseUnknown(d, SETTINGS) else d;
    CallGrows(d, Schedule(f.(store := f.store + Defaults(), pending := f.pending + Resettable())));
  }

  lemma SettingsCallGrows(d: Daemon, items: seq<(Key, Json)>, mismatch: bool)
    ensures Grows(d, ApplySettings(d, items, mismatch))
  {
    hide NotifyChanges, SetChanged, Unsuppressed, Suppresses, SetNeedsReconnect, CP.NeedsReconnect, Grows;
    var e := SetChanged(d, Unsuppressed(items));
    SettingSendsNothing(d, Unsuppressed(items));
    var suppressed := exists i :: 0 <= i < |items| && Suppresses(items[i]);
    var f := WarnReconnect(e, suppressed, mismatch);
    RaisingSendsNothing(e.(conn := CP.NeedsReconnect(e.conn, mismatch).0), {}, LOCATION, Null, true);
    CallGrows(d, f);
  }

  lemma ConnectCallGrows(d: Daemon, timestamp: Json, mismatch: bool)
    ensures Grows(d, RpcConnect(d, timestamp, mismatch).0)
  {
    hide NotifyChanges, SetNeedsReconnect, WithConn, SetIntention, NoteLocation, CP.Connect, Grows;
    var a := NoteLocation(d, timestamp);
    NoteSendsNothing(d, timestamp);
    RaisingSendsNothing(a, {}, LOCATION, Null, true);
    var e := SetIntention(a, true);
    var f := WithConn(e, CP.Connect(e.conn, e.needsReconnect, mismatch).0);
    WithConnGrows(e, CP.Connect(e.conn, e.needsReconnect, mismatch).0);
    RaisingSendsNothing(f, {}, LOCATION, Null, false);
    CallGrows(f, SetNeedsReconnect(f, false));
    var g := NotifyChanges(SetNeedsReconnect(f, false));
    GrowsChains(e, f, g);
    SameSentGrows(d, e, g);
    NothingSentGrows(d, d);
  }

  lemma NoteSendsNothing(d: Daemon, timestamp: Json)
    ensures NoteLocation(d, timestamp).sent == d.sent
  {
    hide Put, PushRecent;
  }

  lemma SameSentGrows(d: Daemon, e: Daemon, f: Daemon)
    requires d.sent == e.sent
    ensures Grows(d, f) == Grows(e, f)
  {
  }

  lemma NothingSentGrows(d: Daemon, e: Daemon)
    requires e.sent == d.sent
    ensures Grows(d, e)
  {
  }

  lemma DisconnectGrows(d: Daemon)
    ensures Grows(d, RpcDisconnect(d)) && Grows(d, DoShutdown(d)) && Grows(d, OnLastClientDisconnected(d))
  {
    hide NotifyChanges, WithConn, SetIntention, CP.Disconnect, Grows, Mode, ApplyFirewall;
    var e := SetIntention(d, false);
    RaisingSendsNothing(d, {}, LOCATION, Null, false);
    var f := WithConn(e, CP.Disconnect(e.conn));
    WithConnGrows(e, CP.Disconnect(e.conn));
    SameSentGrows(d, e, f);
    CallGrows(f, f);
    GrowsChains(d, f, NotifyChanges(f));
    CallGrows(d, e);
    PingingSendsNothing(f);
    PingingSendsNothing(e);
    AfterwardsGrows(d, e, f, NotifyChanges(e));
  }

  lemma AfterwardsGrows(d: Daemon, e: Daemon, f: Daemon, g: Daemon)
    requires e.sent == d.sent && Grows(d, f) && Grows(d, g)
    ensures Grows(d, e)
    ensures forall x: Daemon :: x.sent == f.sent || x.sent == g.sent || x.sent == d.sent ==> Grows(d, x)
  {
  }

  lemma HappenGrows(d: Daemon, h: Happening)
    requires CanHappen(d, h)
    ensures Grows(d, Happen(d, h))
  {
    hide Grows, Get, RpcConnect, RpcDisconnect, SetAccount, ApplyConfig, ApplySettings, ResetSettings,
      NotifyChanges, DoShutdown, PingServers, OnStateChanged, WithConn, CP.Step, CP.Enabled, Put,
          OnLastClientDisconnected,
      OpenClient;
    match h
    case ClientOpens(c) => OpenGrows(d, c);
    case ClientCloses(c) =>
      var e := d.(clients := d.clients - {c});
      DisconnectGrows(e);
      SameSentGrows(d, e, CloseClient(d, c));
      NothingSentGrows(d, e);
    case GetCalled(c, tables) => GetGrows(d, c, tables);
    case ConnectCalled(timestamp, mismatch) => ConnectCallGrows(d, timestamp, mismatch);
    case DisconnectCalled => DisconnectGrows(d);
    case SetAccountCalled(items) => DataCallGrows(d, items, false, false);
    case ApplyConfigCalled(items) => DataCallGrows(d, items, false, false);
    case ApplySettingsCalled(items, mismatch) => DataCallGrows(d, items, mismatch, false);
    case ResetSettingsCalled(all) => DataCallGrows(d, [], false, all);
    case ShutdownRequested =>
      RaisingSendsNothing(d.(state := EXITING), {StateKey(STATE)}, LOCATION, Null, false);
      NothingSentGrows(d, RequestShutdown(d));
    case NotifyRuns => CallGrows(d, d.(postedNotifies := d.postedNotifies - 1));
    case ShutdownRuns =>
      var e := d.(postedShutdowns := d.postedShutdowns - 1);
      DisconnectGrows(e);
      SameSentGrows(d, e, DoShutdown(e));
    case PingsDue =>
      PingingSendsNothing(d);
      NothingSentGrows(d, PingServers(d));
    case PingsDone(stats) =>
      var e := d.(pingStats := Put(stats, "updating", Bool(false)));
      RaisingSendsNothing(e, {StateKey(PING_STATS)}, LOCATION, Null, false);
      NothingSentGrows(d, Happen(d, h));
    case TrafficReported(received, sent) =>
      RaisingSendsNothing(d.(bytes := (received, sent)), {StateKey(BYTES_RECEIVED), StateKey(BYTES_SENT)}, LOCATION,
          Null, false);
      NothingSentGrows(d, Happen(d, h));
    case ConnectionMoves(e) => WithConnGrows(d, CP.Step(d.conn, e));
  }

  lemma OpenGrows(d: Daemon, c: nat)
    requires c !in d.sent
    ensures Grows(d, OpenClient(d, c))
  {
    var e := Admit(d, c);
    PingingSendsNothing(e);
    PingingSendsNothing(ApplyFirewall(e));
    hide PingServers, ApplyFirewall, Snapshot, Mode;
  }

  lemma GetGrows(d: Daemon, c: nat, tables: set<Table>)
    ensures Grows(d, Get(d, c, tables))
  {
    hide Restrict, Held;
  }
}
