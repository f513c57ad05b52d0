/** What holds over every run of the daemon. */
module DaemonRuns {
  import opened Common
  import opened Json
  import opened ConnectionProtocol
  import CR = ConnectionRuns
  import opened DaemonProtocol

  // ---------- The invariant: what the clients and the firewall were told ----------

  /** Something to tell is scheduled, and what is scheduled is in the event loop's queue. */
  predicate Tidy(d: Daemon) {
    && (d.pending != {} ==> d.scheduled)
    && (d.scheduled ==> d.postedNotifies > 0)
  }

  /** The firewall follows its inputs, unless a change of one of them is still to be told. */
  predicate FirewallTracks(d: Daemon) {
    !FirewallRelevant(d.pending) ==> d.firewall == Wanted(d)
  }

  /** What a client holds that applied all the data it was sent. */
  function Replay(log: seq<Message>): map<Key, Json> {
    if log == [] then map[]
    else
      var before, last := Replay(log[..|log| - 1]), log[|log| - 1];
      if last.Data? then before + last.values else before
  }

  /** The byte counts are told only now and then. */
  predicate Tracked(k: Key) {
    k != StateKey(BYTES_RECEIVED) && k != StateKey(BYTES_SENT)
  }

  ghost predicate Agrees(m: map<Key, Json>, d: Daemon) {
    forall k :: Tracked(k) && k !in d.pending && Lookup(d, k).Some? ==> k in m && m[k] == Lookup(d, k).value
  }

  /** A client's log starts with the whole of the data, which is what the client waits for. */
  predicate Greeted(log: seq<Message>) {
    log != [] && log[0].Data? && log[0].version == Some(VERSION)
        && log[0].tables == {CONFIG, ACCOUNT, SETTINGS, STATE_TABLE}
  }

  ghost predicate Mirrored(d: Daemon) {
    forall c :: c in d.clients ==> c in d.sent && Greeted(d.sent[c]) && Agrees(Replay(d.sent[c]), d)
  }

  ghost predicate Told(d: Daemon) {
    Tidy(d) && FirewallTracks(d) && Mirrored(d)
  }

  // ---------- Steps that tell the clients no data ----------

  /** Between d and e no client came or went or was sent data, every change of the data
      is pending in e, and the firewall still follows. */
  ghost predicate Silent(d: Daemon, e: Daemon) {
    && e.clients == d.clients && d.pending <= e.pending
    && (forall c :: c in d.clients && c in d.sent ==>
        c in e.sent && Replay(e.sent[c]) == Replay(d.sent[c]) && (Greeted(d.sent[c]) ==> Greeted(e.sent[c])))
    && (forall k :: Tracked(k) && k !in e.pending && Lookup(e, k).Some? ==> Lookup(d, k) == Lookup(e, k))
    && (Tidy(d) ==> Tidy(e))
    && (FirewallTracks(d) ==> FirewallTracks(e))
  }

  lemma SilentKeepsTold(d: Daemon, e: Daemon)
    requires Told(d) && Silent(d, e)
    ensures Told(e)
  {
    hide Lookup, Replay, Wanted, FirewallRelevant, Greeted;
  }

  lemma SilentChains(d: Daemon, e: Daemon, f: Daemon)
    requires Silent(d, e) && Silent(e, f)
    ensures Silent(d, f)
  {
    hide Lookup, Replay, FirewallTracks, Greeted, Tidy;
  }

  /** The members of the data that are control state, which most steps leave alone. */
  predicate SameControl(d: Daemon, e: Daemon) {
    && e.state == d.state && e.conn == d.conn && e.shouldConnect == d.shouldConnect && e.clients == d.clients
    && e.postedShutdowns == d.postedShutdowns && e.stopped == d.stopped
  }

  lemma OnChangedTracks(d: Daemon, k: Key, v: Json)
    requires !k.StateKey? && FirewallTracks(d)
    ensures FirewallTracks(OnChanged(d.(store := d.store[k := v]), k))
  {
  }

  lemma OnChangedSilent(d: Daemon, k: Key, v: Json)
    requires !k.StateKey?
    ensures Silent(d, OnChanged(d.(store := d.store[k := v]), k))
    ensures SameControl(d, OnChanged(d.(store := d.store[k := v]), k))
  {
    if FirewallTracks(d) { OnChangedTracks(d, k, v); }
    hide Replay, Greeted, FirewallTracks, ConnectionStateName, DaemonStateName;
  }

  lemma SetIntentionSilent(d: Daemon, intend: bool)
    ensures var e := SetIntention(d, intend); Silent(d, e) && SameControl(d.(shouldConnect := intend), e)
  {
    hide Replay, Greeted;
  }

  lemma SetNeedsReconnectSilent(d: Daemon, needs: bool)
    ensures var e := SetNeedsReconnect(d, needs); Silent(d, e) && SameControl(d, e)
  {
    hide Replay, Greeted;
  }

  lemma PingStatsTracks(d: Daemon, stats: Json)
    ensures FirewallTracks(d) ==> FirewallTracks(OnStateChanged(d.(pingStats := stats), {StateKey(PING_STATS)}))
  {
  }

  lemma PingStatsSilent(d: Daemon, stats: Json)
    ensures var e := OnStateChanged(d.(pingStats := stats), {StateKey(PING_STATS)}); Silent(d, e) && SameControl(d, e)
  {
    PingStatsTracks(d, stats);
    hide Replay, Greeted, ConnectionStateName, DaemonStateName, FirewallTracks;
  }

  lemma PingServersSilent(d: Daemon)
    ensures var e := PingServers(d); Silent(d, e) && SameControl(d, e)
  {
    PingStatsSilent(d, Put(d.pingStats, "updating", Bool(true)));
    SilentReflexive(d);
    hide Silent, OnStateChanged, Put;
  }

  lemma ApplyFirewallSilent(d: Daemon)
    ensures var e := ApplyFirewall(d); Silent(d, e) && SameControl(d, e)
  {
  }

  lemma ErrorSilent(d: Daemon, m: Message)
    requires m.ErrorPost?
    ensures var e := SendAll(d, m); Silent(d, e) && SameControl(d, e)
  {
    var e := SendAll(d, m);
    forall c | c in d.clients && c in d.sent
      ensures Replay(e.sent[c]) == Replay(d.sent[c]) && (Greeted(d.sent[c]) ==> Greeted(e.sent[c]))
    {
      assert e.sent[c] == d.sent[c] + [m];
      assert (d.sent[c] + [m])[..|d.sent[c]|] == d.sent[c];
    }
  }

  // ---------- Hearing the connection ----------

  predicate Says(ns: seq<Notice>, s: State) {
    exists i :: 0 <= i < |ns| && ns[i] == StateChanged(s)
  }

  /** What a handler of the connection says: a change of its state is never kept from the listener. */
  predicate Candid(was: Conn, now: Conn) {
    was.log <= now.log && (now.state != was.state ==> Says(News(was, now), now.state))
  }

  lemma {:induction false} LastIsSaid(was: seq<Notice>, now: seq<Notice>)
    requires was <= now && CR.LastState(was) != CR.LastState(now)
    ensures Says(now[|was|..], CR.LastState(now))
    decreases |now|
  {
    var n := |now| - 1;
    assert |was| == |now| ==> was == now;
    if now[n].StateChanged? {
      assert now[|was|..][n - |was|] == now[n];
    } else {
      LastIsSaid(was, now[..n]);
      var i :| 0 <= i < |now[..n][|was|..]| && now[..n][|was|..][i] == StateChanged(CR.LastState(now));
      assert now[|was|..][i] == now[..n][|was|..][i];
    }
  }

  lemma LoggedIsCandid(was: Conn, now: Conn)
    requires CR.Logged(was) && CR.Logged(now) && was.log <= now.log
    ensures Candid(was, now)
  {
    if was.state != now.state { LastIsSaid(was.log, now.log); }
  }

  lemma LaunchExtendsLog(c: Conn, now: int, changed: bool)
    ensures c.log <= Launch(c, now, changed).log
  {
  }

  lemma DoConnectExtendsLog(c: Conn, now: int, changed: bool)
    ensures c.log <= DoConnect(c, now, changed).log
  {
    hide Resume, Launch;
    CR.ResumeOutcome(c);
    var resumed := Resume(c);
    if resumed.Some? {
      assert c.log <= resumed.value.log;
      LaunchExtendsLog(resumed.value, now, changed);
    }
  }

  lemma ReportExtendsLog(c: Conn, now: int, o: OpenVPNState)
    ensures c.log <= SetOpenVPNState(c, now, o).log
  {
    hide Report;
    CR.ReportIsEdge(c, now, o);
  }

  lemma UserExtendsLog(c: Conn, force: bool, mismatch: bool)
    ensures c.log <= Connect(c, force, mismatch).0.log
    ensures c.log <= Disconnect(c).log
  {
  }

  lemma CallExtendsLog(c: Conn, code: ErrorCode)
    ensures c.log <= SignalError(c, code).log
    ensures c.log <= OnSlowConnectionTimeout(c).log
  {
  }

  lemma StateLineExtendsLog(c: Conn, now: int, pid: nat, o: OpenVPNState, tls: bool)
    ensures c.log <= OnStateLine(c, now, pid, o, tls).log
  {
    hide SetOpenVPNState, SignalError;
    ReportExtendsLog(c, now, o);
    CallExtendsLog(if c.process == Some(pid) then SetOpenVPNState(c, now, o) else c, TLS_HANDSHAKE_ERROR);
  }

  lemma StepIsCandid(c: Conn, e: Event)
    requires CR.Inv(c) && Enabled(c, e)
    ensures CR.Inv(Step(c, e)) && Candid(c, Step(c, e))
  {
    CR.StepKeepsInv(c, e);
    StepExtendsLog(c, e);
    hide Step;
    LoggedIsCandid(c, Step(c, e));
  }

  lemma StepExtendsLog(c: Conn, e: Event)
    requires Enabled(c, e)
    ensures c.log <= Step(c, e).log
  {
    hide SetOpenVPNState, DoConnect, Connect, Disconnect, SignalError, OnSlowConnectionTimeout, OnStateLine;
    match e
    case UserConnect(force, mismatch) => UserExtendsLog(c, force, mismatch);
    case UserDisconnect => UserExtendsLog(c, false, false);
    case PostedRuns(now, changed) => DoConnectExtendsLog(c.(posted := c.posted - 1), now, changed);
    case SlowTimeout => CallExtendsLog(c.(slowWaits := c.slowWaits - 1), UNKNOWN_ERROR);
    case StateLine(now, pid, o, tls) => StateLineExtendsLog(c, now, pid, o, tls);
    case ErrorLine(_, code) => CallExtendsLog(c, code);
    case ProcessExits(now, _) => ReportExtendsLog(c.(process := None, exits := c.exits + 1), now, OPENVPN_EXITED);
    case _ =>
  }

  lemma HearOneOutcome(d: Daemon, n: Notice)
    ensures var e := HearOne(d, n);
      && Silent(d, e)
      && e.state == d.state && e.conn == d.conn && e.clients == d.clients
      && e.stopped == d.stopped && e.store == d.store
      && (e.shouldConnect ==> d.shouldConnect)
      && (n.StateChanged? && d.state == INITIALIZED ==> StateKey(STATE) in e.pending)
      && (n == StateChanged(DISCONNECTED) && d.state == INITIALIZED ==> !e.shouldConnect)
      && (n != StateChanged(DISCONNECTED) ==> e.shouldConnect == d.shouldConnect)
      && e.postedShutdowns >= d.postedShutdowns
      && (d.state != EXITING ==> e.postedShutdowns == d.postedShutdowns)
      && (n == StateChanged(DISCONNECTED) && d.state == EXITING ==> e.postedShutdowns > 0)
  {
    hide Silent;
    StoreUnchanged(d);
    hide SetNeedsReconnect, OnStateChanged;
    match n
    case StateChanged(s) =>
      StateFlagSilent(d);
      var e := OnStateChanged(d, {StateKey(STATE)});
      SetIntentionSilent(e, false);
      SetIntentionGrows(e);
      SilentChains(d, e, SetIntention(e, false));
      SilentReflexive(d);
    case Attempt(_) => SetNeedsReconnectSilent(d, false);
    case Error(code, critical) => ErrorSilent(d, ErrorPost(code, critical));
  }

  lemma StoreUnchanged(d: Daemon)
    ensures SetNeedsReconnect(d, false).store == d.store && forall m :: SendAll(d, m).store == d.store
    ensures var e := OnStateChanged(d, {StateKey(STATE)}); e.store == d.store && SetIntention(e, false).store == d.store
  {
  }

  lemma SetIntentionGrows(d: Daemon)
    ensures d.pending <= SetIntention(d, false).pending
  {
  }

  /** Posting a shutdown tells nobody anything either. */
  lemma SilentReflexive(d: Daemon)
    ensures Silent(d, d) && Silent(d, PostShutdown(d))
  {
  }

  lemma StateFlagSilent(d: Daemon)
    ensures var e := OnStateChanged(d, {StateKey(STATE)});
      Silent(d, e) && SameControl(d, e) && StateKey(STATE) in e.pending
  {
  }

  predicate SaysChange(ns: seq<Notice>) {
    exists i :: 0 <= i < |ns| && ns[i].StateChanged?
  }

  /** What hearing notices does, apart from the data: control state only moves the way the notices say. */
  predicate Heard(d: Daemon, ns: seq<Notice>, e: Daemon) {
    && e.state == d.state && e.conn == d.conn && e.clients == d.clients && e.stopped == d.stopped && e.store == d.store
    && (e.shouldConnect ==> d.shouldConnect)
    && (d.state == INITIALIZED && SaysChange(ns) ==> StateKey(STATE) in e.pending)
    && (d.state == INITIALIZED && Says(ns, DISCONNECTED) ==> !e.shouldConnect)
    && (!Says(ns, DISCONNECTED) ==> e.shouldConnect == d.shouldConnect)
    && e.postedShutdowns >= d.postedShutdowns
    && (d.state != EXITING ==> e.postedShutdowns == d.postedShutdowns)
    && (d.state == EXITING && Says(ns, DISCONNECTED) ==> e.postedShutdowns > 0)
  }

  lemma {:induction false} HearOutcome(d: Daemon, ns: seq<Notice>)
    ensures Silent(d, Hear(d, ns)) && Heard(d, ns, Hear(d, ns))
    decreases |ns|
  {
    if ns == [] {
      SilentReflexive(d);
    } else {
      var e := HearOne(d, ns[0]);
      HearOneOutcome(d, ns[0]);
      HearOutcome(e, ns[1..]);
      SilentChains(d, e, Hear(e, ns[1..]));
      assert SilentGrows(e, Hear(e, ns[1..])) by { SilentGrowsPending(e, Hear(e, ns[1..])); }
      hide Silent, HearOne;
      assert forall i :: 0 < i < |ns| ==> ns[i] == ns[1..][i - 1];
    }
  }

  predicate SilentGrows(d: Daemon, e: Daemon) {
    d.pending <= e.pending
  }

  lemma SilentGrowsPending(d: Daemon, e: Daemon)
    requires Silent(d, e)
    ensures SilentGrows(d, e)
  {
  }

  /** Moving the connection and hearing about it is silent, because the connection is candid. */
  lemma WithConnOutcome(d: Daemon, c: Conn)
    requires Candid(d.conn, c)
    ensures Silent(d, WithConn(d, c)) && Heard(d.(conn := c), News(d.conn, c), WithConn(d, c))
  {
    var m, e := d.(conn := c), WithConn(d, c);
    HearOutcome(m, News(d.conn, c));
    assert Tidy(m) == Tidy(d) && FirewallTracks(m) == FirewallTracks(d);
    hide FirewallTracks, Tidy, Replay, Greeted, News, WithConn;
    assert c.state != d.conn.state ==> SaysChange(News(d.conn, c));
    forall k | Tracked(k) && k !in e.pending && Lookup(e, k).Some?
      ensures Lookup(d, k) == Lookup(e, k)
    {
      assert Lookup(m, k) == Lookup(e, k);
    }
  }

  // ---------- Telling the clients ----------

  lemma SentAgrees(log: seq<Message>, m: Message, d: Daemon, e: Daemon)
    requires Agrees(Replay(log), d) && m.Data?
    requires forall k :: k in m.values ==> Lookup(d, k) == Some(m.values[k])
    requires forall k :: Lookup(e, k) == Lookup(d, k)
    requires forall k :: k in d.pending && k !in e.pending && Lookup(d, k).Some? ==> k in m.values
    requires Greeted(log)
    ensures Agrees(Replay(log + [m]), e) && Greeted(log + [m])
  {
    assert (log + [m])[..|log|] == log;
    assert Replay(log + [m]) == Replay(log) + m.values;
  }

  /** Holds also for the posted call, which has just left the queue. */
  lemma NotifyKeepsTold(d: Daemon)
    requires FirewallTracks(d) && Mirrored(d) && (d.pending != {} ==> d.scheduled)
    ensures Told(NotifyChanges(d)) && SameControl(d, NotifyChanges(d))
  {
    if d.scheduled {
      var m := Delta(d, d.pending);
      var clear := d.(scheduled := false, pending := {});
      var told := SendAll(clear, m);
      assert Mirrored(told) by {
        hide FirewallTracks, Lookup, Replay, Agrees, Greeted;
        forall c | c in told.clients
          ensures c in told.sent && Greeted(told.sent[c]) && Agrees(Replay(told.sent[c]), told)
        {
          LookupIgnoresTelling(d, told);
          SentAgrees(d.sent[c], m, d, told);
        }
      }
      assert Wanted(told) == Wanted(d);
      var pings := LOCATIONS in d.pending || (StateKey(STATE) in d.pending && Idle(d));
      var pinged := if pings then PingServers(told) else told;
      PingServersSilent(told);
      SilentReflexive(told);
      hide Silent, PingServers, Idle;
      assert Silent(told, pinged) && SameControl(told, pinged);
      NotifiedKeepsTold(d, told, pinged);
    }
  }

  lemma LookupIgnoresTelling(d: Daemon, e: Daemon)
    requires e == d.(scheduled := e.scheduled, pending := e.pending, sent := e.sent)
    ensures forall k :: Lookup(e, k) == Lookup(d, k)
  {
  }

  lemma NotifiedKeepsTold(d: Daemon, told: Daemon, pinged: Daemon)
    requires FirewallTracks(d) && Tidy(told) && Mirrored(told) && Silent(told, pinged)
    requires told.firewall == d.firewall && Wanted(told) == Wanted(d)
    ensures Told(if FirewallRelevant(d.pending) then ApplyFirewall(pinged) else pinged)
  {
    ApplyFirewallSilent(pinged);
    SilentChains(told, pinged, ApplyFirewall(pinged));
    hide Lookup, Replay, Greeted;
  }

  lemma GetKeepsTold(d: Daemon, c: nat, tables: set<Table>)
    requires Told(d)
    ensures Told(Get(d, c, tables)) && SameControl(d, Get(d, c, tables))
  {
    if c in d.sent {
      var ks := set k | k in Held(d) && TableOf(k) in tables;
      var m := Data(None, tables, Restrict(d, ks));
      var e := Get(d, c, tables);
      assert e == d.(sent := d.sent[c := d.sent[c] + [m]]);
      hide FirewallTracks, Replay, Agrees, Greeted, Get, Held;
      LookupIgnoresTelling(d, e);
      hide Lookup;
      forall b | b in e.clients
        ensures b in e.sent && Greeted(e.sent[b]) && Agrees(Replay(e.sent[b]), e)
      {
        if b == c { SentAgrees(d.sent[c], m, d, e); } else { SamePendingAgrees(Replay(d.sent[b]), d, e); }
      }
      assert FirewallTracks(e) by { TracksIgnoresSent(d, e); }
    }
  }

  lemma SamePendingAgrees(m: map<Key, Json>, d: Daemon, e: Daemon)
    requires Agrees(m, d) && e.pending == d.pending && forall k :: Lookup(e, k) == Lookup(d, k)
    ensures Agrees(m, e)
  {
  }

  lemma TracksIgnoresSent(d: Daemon, e: Daemon)
    requires FirewallTracks(d) && e == d.(sent := e.sent)
    ensures FirewallTracks(e)
  {
  }

  // ---------- The control part of the invariant ----------

  /** The user's intention: only while there are clients, and never against the connection. */
  predicate Intent(d: Daemon) {
    && (d.shouldConnect ==> d.clients != {})
    && (d.state == INITIALIZED && d.shouldConnect ==> d.conn.state != DISCONNECTED && d.conn.state != DISCONNECTING)
  }

  /** A shutdown in progress always has its next call of DoShutdown coming: it is posted, or posted
      when the last client leaves, or posted when the connection that is closing has closed. */
  predicate Ending(d: Daemon) {
    && (d.state == INITIALIZED || d.state == EXITING)
    && (d.postedShutdowns > 0 ==> d.state == EXITING)
    && (d.stopped ==> d.state == EXITING && d.clients == {} && d.conn.state == DISCONNECTED)
    && (d.state == EXITING && !d.stopped ==> d.postedShutdowns > 0 || d.clients != {} || d.conn.state == DISCONNECTING)
  }

  ghost predicate Inv(d: Daemon) {
    CR.Inv(d.conn) && Told(d) && Intent(d) && Ending(d)
  }

  lemma InvMeans(d: Daemon)
    requires Inv(d)
    ensures CR.Inv(d.conn) && Tidy(d) && Intent(d) && Ending(d)
    ensures !d.scheduled ==> d.firewall == Wanted(d)
  {
    hide CR.Inv, Mirrored, Wanted;
  }

  lemma SameControlKeepsInv(d: Daemon, e: Daemon)
    requires Inv(d) && SameControl(d, e) && Told(e)
    ensures Inv(e)
  {
    hide CR.Inv, Told;
  }

  lemma SilentKeepsInv(d: Daemon, e: Daemon)
    requires Inv(d) && SameControl(d, e) && Silent(d, e)
    ensures Inv(e)
  {
    hide CR.Inv;
    SilentKeepsTold(d, e);
    hide Told, Silent;
    SameControlKeepsInv(d, e);
  }

  lemma NotifyKeepsInv(d: Daemon)
    requires Inv(d)
    ensures Inv(NotifyChanges(d))
  {
    NotifyKeepsTold(d);
    SameControlKeepsInv(d, NotifyChanges(d));
  }

  // ---------- Every handler keeps the invariant ----------

  lemma SetSilent(d: Daemon, k: Key, v: Json)
    requires !k.StateKey?
    ensures Silent(d, Set(d, k, v)) && SameControl(d, Set(d, k, v))
  {
    hide Silent, Accepts, OnChanged;
    OnChangedSilent(d, k, v);
    SilentReflexive(d);
  }

  lemma {:induction false} SetAllSilent(d: Daemon, items: seq<(Key, Json)>)
    requires forall i :: 0 <= i < |items| ==> !items[i].0.StateKey?
    ensures Silent(d, SetAll(d, items)) && SameControl(d, SetAll(d, items))
    decreases |items|
  {
    hide Silent, Set;
    SilentReflexive(d);
    if items != [] {
      var e := Set(d, items[0].0, items[0].1);
      SetSilent(d, items[0].0, items[0].1);
      SetAllSilent(e, items[1..]);
      SilentChains(d, e, SetAll(e, items[1..]));
    }
  }

  lemma {:induction false} SetChangedSilent(d: Daemon, items: seq<(Key, Json)>)
    requires forall i :: 0 <= i < |items| ==> !items[i].0.StateKey?
    ensures Silent(d, SetChanged(d, items)) && SameControl(d, SetChanged(d, items))
    decreases |items|
  {
    hide Silent, Set;
    SilentReflexive(d);
    if items != [] {
      var (k, v) := items[0];
      var e := if k in d.store && d.store[k] == v then d else Set(d, k, v);
      SetSilent(d, k, v);
      SetChangedSilent(e, items[1..]);
      SilentChains(d, e, SetChanged(e, items[1..]));
    }
  }

  /** Erasing members tells nobody, and needs nothing told about the members that remain. */
  lemma EraseUnknownSilent(d: Daemon, t: Table)
    ensures Silent(d, EraseUnknown(d, t)) && SameControl(d, EraseUnknown(d, t))
  {
    var e := EraseUnknown(d, t);
    assert FIREWALL in Fields() && ALLOW_LAN in Fields() && OVERRIDE_DNS in Fields();
    hide Fields;
    assert Wanted(e) == Wanted(d);
  }

  lemma ResetSilent(d: Daemon)
    ensures var e := Schedule(d.(store := d.store + Defaults(), pending := d.pending + Resettable()));
      Silent(d, e) && SameControl(d, e)
  {
    ResettableMembers();
    hide Fields, Resettable, Silent, Schedule;
    DefaultsSilent(d, Resettable(), Defaults());
  }

  lemma ResettableMembers()
    ensures FIREWALL in Resettable() && forall k :: k in Resettable() ==> !k.StateKey?
  {
  }

  lemma DefaultsSilent(d: Daemon, ks: set<Key>, defaults: map<Key, Json>)
    requires defaults.Keys == ks && FIREWALL in ks && forall k :: k in ks ==> !k.StateKey?
    ensures var e := Schedule(d.(store := d.store + defaults, pending := d.pending + ks));
      Silent(d, e) && SameControl(d, e)
  {
    var e := Schedule(d.(store := d.store + defaults, pending := d.pending + ks));
    assert FirewallRelevant(e.pending);
    hide Wanted;
    assert forall k :: k !in e.pending ==> Lookup(d, k) == Lookup(e, k);
  }

  lemma WarnReconnectKeepsInv(d: Daemon, suppressed: bool, mismatch: bool)
    requires Inv(d)
    ensures Inv(WarnReconnect(d, suppressed, mismatch))
  {
    var (c, needed) := NeedsReconnect(d.conn, mismatch);
    var e := d.(conn := c);
    hide Intent, Ending;
    FlagOfConnKeepsInv(d, c);
    hide NeedsReconnect, Inv;
    SetNeedsReconnectSilent(e, true);
    SilentKeepsInv(e, SetNeedsReconnect(e, true));
  }

  lemma FlagOfConnKeepsInv(d: Daemon, c: Conn)
    requires Inv(d) && c == d.conn.(needsReconnect := c.needsReconnect)
    ensures Inv(d.(conn := c))
  {
    var e := d.(conn := c);
    assert forall k :: Lookup(e, k) == Lookup(d, k);
    hide Replay, Lookup, Greeted, Wanted;
    assert Silent(d, e);
    SilentKeepsTold(d, e);
  }

  lemma NoteLocationSilent(d: Daemon, timestamp: Json)
    ensures Silent(d, NoteLocation(d, timestamp)) && SameControl(d, NoteLocation(d, timestamp))
  {
    var location := Value(d, LOCATION);
    var v := Put(Value(d, LAST_CONNECTED), if location.String? then location.s else "", timestamp);
    var e := OnChanged(d.(store := d.store[LAST_CONNECTED := v]), LAST_CONNECTED);
    OnChangedSilent(d, LAST_CONNECTED, v);
    var w := PushRecent(Value(e, RECENT), location);
    OnChangedSilent(e, RECENT, w);
    SilentChains(d, e, OnChanged(e.(store := e.store[RECENT := w]), RECENT));
    hide Silent, OnChanged, PushRecent, Put;
  }

  /** Moving the connection keeps the invariant when the control state it leads to is in order. */
  lemma WithConnKeepsInv(d: Daemon, c: Conn)
    requires CR.Inv(c) && Candid(d.conn, c) && Told(d)
    requires Intent(WithConn(d, c)) && Ending(WithConn(d, c))
    ensures Inv(WithConn(d, c))
  {
    WithConnOutcome(d, c);
    SilentKeepsTold(d, WithConn(d, c));
    hide CR.Inv, Told, Silent, WithConn, Intent, Ending;
  }

  lemma DisconnectIsCandid(c: Conn)
    requires CR.Inv(c)
    ensures var d := Disconnect(c);
      && CR.Inv(d) && Candid(c, d)
      && (d.state == DISCONNECTED || d.state == DISCONNECTING)
  {
    StepIsCandid(c, UserDisconnect);
    hide CR.Inv, Candid;
  }

  lemma ConnectIsCandid(c: Conn, force: bool, mismatch: bool)
    requires CR.Inv(c)
    ensures var d := Connect(c, force, mismatch).0;
      && CR.Inv(d) && Candid(c, d)
      && d.state != DISCONNECTED && d.state != DISCONNECTING
  {
    StepIsCandid(c, UserConnect(force, mismatch));
    hide CR.Inv, Candid;
  }

  lemma RpcConnectKeepsInv(d: Daemon, timestamp: Json, mismatch: bool)
    requires Inv(d) && d.clients != {}
    ensures Inv(RpcConnect(d, timestamp, mismatch).0)
  {
    if d.state == INITIALIZED {
      hide Silent, Told, CR.Inv, Connect, NotifyChanges, SetNeedsReconnect, WithConn, SetIntention, NoteLocation,
          Candid;
      var a := NoteLocation(d, timestamp);
      NoteLocationSilent(d, timestamp);
      SilentKeepsTold(d, a);
      var e := SetIntention(a, true);
      SetIntentionSilent(a, true);
      SilentKeepsTold(a, e);
      var c := Connect(e.conn, e.needsReconnect, mismatch).0;
      ConnectIsCandid(e.conn, e.needsReconnect, mismatch);
      var f := WithConn(e, c);
      WithConnOutcome(e, c);
      WithConnKeepsInv(e, c);
      SetNeedsReconnectSilent(f, false);
      SilentKeepsInv(f, SetNeedsReconnect(f, false));
      NotifyKeepsInv(SetNeedsReconnect(f, false));
      hide Inv;
    }
  }

  /** Withdraw the intention and disconnect: the common part of three handlers. */
  lemma WithdrawKeepsInv(d: Daemon)
    requires Told(d) && CR.Inv(d.conn)
    requires d.state == INITIALIZED || (d.state == EXITING && d.conn.state != DISCONNECTED)
    requires !d.stopped && (d.postedShutdowns > 0 ==> d.state == EXITING)
    ensures var e := SetIntention(d, false);
      && Told(e) && SameControl(d.(shouldConnect := false), e)
      && Inv(WithConn(e, Disconnect(e.conn)))
      && (var f := WithConn(e, Disconnect(e.conn)); f.state == d.state && f.clients == d.clients && !f.shouldConnect)
  {
    hide Silent, Told, CR.Inv, Disconnect, WithConn, SetIntention;
    var e := SetIntention(d, false);
    SetIntentionSilent(d, false);
    SilentKeepsTold(d, e);
    DisconnectIsCandid(e.conn);
    var c := Disconnect(e.conn);
    WithConnOutcome(e, c);
    WithConnKeepsInv(e, c);
  }

  lemma WelcomeOutcome(d: Daemon, c: nat)
    requires FirewallTracks(d) && Intent(d) && Tidy(d)
    ensures var e, f := Admit(d, c), Welcome(d, c);
      Silent(e, f) && SameControl(e, f) && FirewallTracks(f) && Tidy(f)
  {
    var e := Admit(d, c);
    var a := if d.clients == {} && Mode(e) == "on" then ApplyFirewall(e) else e;
    assert FirewallTracks(a) && Tidy(e);
    ApplyFirewallSilent(e);
    SilentReflexive(e);
    PingServersSilent(a);
    var f := Welcome(d, c);
    assert f == if d.clients == {} then PingServers(a) else a;
    hide FirewallTracks, Silent, PingServers, Tidy, Admit, Welcome, ApplyFirewall;
    SilentReflexive(a);
    SilentChains(e, a, f);
    SilentKeepsTidy(e, f);
    SilentKeepsTracks(a, f);
  }

  lemma OpenClientKeepsInv(d: Daemon, c: nat)
    requires Inv(d) && !d.stopped && c !in d.clients && c !in d.sent
    ensures Inv(OpenClient(d, c))
  {
    WelcomeOutcome(d, c);
    var f, g := Welcome(d, c), OpenClient(d, c);
    assert g == f.(sent := f.sent[c := [Snapshot(f)]]);
    hide Welcome, FirewallTracks, Tidy, Silent, CR.Inv, Mirrored, Snapshot, OpenClient;
    GreetKeepsMirrored(d, Admit(d, c), f, c);
    TracksIgnoresSent(f, g);
    TidyIgnoresSent(f, g);
  }

  lemma TidyIgnoresSent(d: Daemon, e: Daemon)
    requires Tidy(d) && e == d.(sent := e.sent)
    ensures Tidy(e)
  {
  }

  lemma SilentKeepsTidy(d: Daemon, e: Daemon)
    requires Silent(d, e) && Tidy(d)
    ensures Tidy(e)
  {
  }

  lemma SilentKeepsTracks(d: Daemon, e: Daemon)
    requires Silent(d, e) && FirewallTracks(d)
    ensures FirewallTracks(e)
  {
  }

  lemma GreetKeepsMirrored(d: Daemon, e: Daemon, f: Daemon, c: nat)
    requires Mirrored(d) && c !in d.clients && c !in d.sent
    requires e == d.(clients := d.clients + {c}, sent := d.sent[c := []]) && Silent(e, f)
    ensures Mirrored(f.(sent := f.sent[c := [Snapshot(f)]]))
  {
    var g := f.(sent := f.sent[c := [Snapshot(f)]]);
    LookupIgnoresTelling(f, g);
    LookupIgnoresClients(d, e);
    hide Lookup, FirewallTracks;
    forall b | b in g.clients
      ensures b in g.sent && Greeted(g.sent[b]) && Agrees(Replay(g.sent[b]), g)
    {
      if b == c {
        assert Replay([Snapshot(f)]) == Restrict(f, Held(f)) by { assert [Snapshot(f)][..0] == []; }
        assert forall k :: Lookup(f, k).Some? ==> k in Held(f) by { HeldIsAll(f); }
      } else {
        assert Agrees(Replay(d.sent[b]), d);
      }
    }
  }

  lemma LookupIgnoresClients(d: Daemon, e: Daemon)
    requires e == d.(clients := e.clients, sent := e.sent)
    ensures forall k :: Lookup(e, k) == Lookup(d, k)
  {
  }

  lemma HeldIsAll(d: Daemon)
    ensures forall k :: Lookup(d, k).Some? ==> k in Held(d)
  {
    forall k | Lookup(d, k).Some?
      ensures k in Held(d)
    {
      if k.StateKey? {
        match k.field
        case CONNECT =>
        case _ =>
      }
    }
  }

  lemma LeaveKeepsMirrored(d: Daemon, c: nat)
    requires Mirrored(d)
    ensures Mirrored(d.(clients := d.clients - {c}))
  {
    var e := d.(clients := d.clients - {c});
    LookupIgnoresClients(d, e);
    hide Lookup, Replay, Greeted;
  }

  lemma SilentKeepsMirrored(d: Daemon, e: Daemon)
    requires Mirrored(d) && Silent(d, e)
    ensures Mirrored(e)
  {
    hide Lookup, Replay, FirewallTracks, Greeted;
  }

  lemma CloseClientKeepsInv(d: Daemon, c: nat)
    requires Inv(d) && c in d.clients && !d.stopped
    ensures Inv(CloseClient(d, c))
  {
    var e := d.(clients := d.clients - {c});
    LeaveKeepsMirrored(d, c);
    if e.clients != {} {
      assert FirewallTracks(e);
    } else {
      LastClientKeepsInv(d, e);
    }
  }

  lemma LastClientKeepsInv(d: Daemon, e: Daemon)
    requires Inv(d) && !d.stopped && e == d.(clients := {}) && d.clients != {} && Mirrored(e)
    ensures Inv(OnLastClientDisconnected(e))
  {
    var x := SetIntention(e, false);
    SetIntentionSilent(e, false);
    assert FirewallTracks(x) || Mode(x) == "on";
    SilentKeepsMirrored(e, x);
    SilentKeepsTidy(e, x);
    var c := Disconnect(x.conn);
    var f := if x.state == INITIALIZED then WithConn(x, c) else x;
    DisconnectIsCandid(x.conn);
    WithConnOutcome(x, c);
    SilentReflexive(x);
    hide SetIntention, FirewallTracks, Mirrored, Tidy, CR.Inv, Disconnect, WithConn, Candid, Says, SaysChange, News;
    assert Silent(x, f) && f.store == x.store;
    hide Silent;
    SilentKeepsMirrored(x, f);
    SilentKeepsTidy(x, f);
    if Mode(f) != "on" { SilentKeepsTracks(x, f); }
    LastlyApplied(f);
  }

  lemma LastlyApplied(f: Daemon)
    requires Mirrored(f) && Tidy(f) && (FirewallTracks(f) || Mode(f) == "on") && CR.Inv(f.conn)
    requires f.clients == {} && !f.shouldConnect && !f.stopped && (f.state == INITIALIZED || f.state == EXITING)
    requires f.state == INITIALIZED ==> f.postedShutdowns == 0
    ensures var g := if Mode(f) == "on" then ApplyFirewall(f) else f;
      Inv(if g.state == EXITING then PostShutdown(g) else g)
  {
    var g := if Mode(f) == "on" then ApplyFirewall(f) else f;
    ApplyFirewallSilent(f);
    assert FirewallTracks(g);
    SilentReflexive(f);
    SilentReflexive(g);
    hide FirewallTracks, CR.Inv, Tidy;
    assert Silent(f, g);
    hide Silent;
    SilentKeepsMirrored(f, g);
    SilentKeepsTidy(f, g);
    SilentKeepsMirrored(g, PostShutdown(g));
    SilentKeepsTidy(g, PostShutdown(g));
    SilentKeepsTracks(g, PostShutdown(g));
  }

  lemma RequestShutdownKeepsInv(d: Daemon)
    requires Inv(d)
    ensures Inv(RequestShutdown(d))
  {
    var e := if d.state == INITIALIZED then OnStateChanged(d.(state := EXITING), {StateKey(STATE)}) else d;
    assert Silent(d, e) by { hide Replay, Greeted; }
    SilentReflexive(e);
    SilentChains(d, e, PostShutdown(e));
    SilentKeepsTold(d, PostShutdown(e));
    hide Told, CR.Inv, Silent;
  }

  lemma PostedKeepsInv(d: Daemon, e: Daemon)
    requires Inv(d)
    requires e == d.(postedShutdowns := e.postedShutdowns)
    ensures Told(e) && CR.Inv(e.conn)
  {
    hide CR.Inv, Intent, Ending;
    LookupSame(d, e);
    hide Lookup, Replay, Greeted;
  }

  lemma LookupSame(d: Daemon, e: Daemon)
    requires e == d.(postedShutdowns := e.postedShutdowns, postedNotifies := e.postedNotifies)
    ensures forall k :: Lookup(e, k) == Lookup(d, k)
  {
  }

  lemma DoShutdownKeepsInv(d: Daemon)
    requires Inv(d) && !d.stopped && d.postedShutdowns > 0
    ensures Inv(DoShutdown(d.(postedShutdowns := d.postedShutdowns - 1)))
  {
    var e := d.(postedShutdowns := d.postedShutdowns - 1);
    PostedKeepsInv(d, e);
    if e.conn.state != DISCONNECTED {
      assert SetIntention(e, false).conn == e.conn;
      hide Inv, Told, CR.Inv, SetIntention, WithConn;
      WithdrawKeepsInv(e);
    } else {
      var f := SetIntention(e, false);
      SetIntentionSilent(e, false);
      SilentKeepsTold(e, f);
      NotifyKeepsTold(f);
      var g := NotifyChanges(f);
      hide CR.Inv, SetIntention, Silent, NotifyChanges;
      if g.clients == {} { StoppedKeepsTold(g); }
    }
  }

  lemma StoppedKeepsTold(d: Daemon)
    requires Told(d)
    ensures Told(d.(stopped := true))
  {
    var e := d.(stopped := true);
    assert Silent(d, e) by {
      assert forall k :: Lookup(e, k) == Lookup(d, k);
      hide Lookup, Replay, Greeted;
    }
    SilentKeepsTold(d, e);
  }

  predicate Moves(c: Conn, d: Conn) {
    && (d.state == DISCONNECTING ==> c.state == DISCONNECTING)
    && (c.state == DISCONNECTING ==> d.state == DISCONNECTING || d.state == DISCONNECTED)
  }

  lemma ReportMoves(c: Conn, now: int, o: OpenVPNState)
    ensures Moves(c, SetOpenVPNState(c, now, o))
  {
  }

  lemma LaunchMoves(c: Conn, now: int, changed: bool)
    ensures var d := Launch(c, now, changed);
      (d.state == DISCONNECTING <==> c.state == DISCONNECTING) && (d.state == DISCONNECTED <==> c.state == DISCONNECTED)
  {
  }

  lemma DoConnectMoves(c: Conn, now: int, changed: bool)
    ensures Moves(c, DoConnect(c, now, changed))
  {
    hide Resume, Launch;
    CR.ResumeOutcome(c);
    if Resume(c).Some? { LaunchMoves(Resume(c).value, now, changed); }
  }

  lemma StepMoves(c: Conn, e: Event)
    requires Enabled(c, e) && !e.UserConnect? && !e.UserDisconnect?
    ensures Moves(c, Step(c, e))
  {
    hide DoConnect, SetOpenVPNState;
    match e
    case PostedRuns(now, changed) => DoConnectMoves(c.(posted := c.posted - 1), now, changed);
    case StateLine(now, _, o, _) => ReportMoves(c, now, o);
    case ProcessExits(now, _) => ReportMoves(c.(process := None, exits := c.exits + 1), now, OPENVPN_EXITED);
    case _ =>
  }

  lemma MoveKeepsInv(d: Daemon, e: Event)
    requires Inv(d) && !d.stopped && Enabled(d.conn, e) && !e.UserConnect? && !e.UserDisconnect?
    ensures Inv(WithConn(d, Step(d.conn, e)))
  {
    hide Told, Intent, Ending, WithConn;
    var c := Step(d.conn, e);
    StepIsCandid(d.conn, e);
    StepMoves(d.conn, e);
    hide Step, Enabled, CR.Inv, Candid, Moves;
    MovedKeepsInv(d, c);
  }

  lemma MovedKeepsInv(d: Daemon, c: Conn)
    requires Inv(d) && !d.stopped && CR.Inv(c) && Candid(d.conn, c) && Moves(d.conn, c)
    ensures Inv(WithConn(d, c))
  {
    WithConnOutcome(d, c);
    hide Told, CR.Inv, WithConn, Silent, News;
    WithConnKeepsInv(d, c);
  }

  lemma TrafficSilent(d: Daemon, received: Json, sent: Json)
    ensures var e := OnStateChanged(d.(bytes := (received, sent)), {StateKey(BYTES_RECEIVED), StateKey(BYTES_SENT)});
      Silent(d, e) && SameControl(d, e)
  {
    hide Replay, Greeted;
  }

  lemma NotifyRunKeepsInv(d: Daemon)
    requires Inv(d) && d.postedNotifies > 0
    ensures Inv(NotifyChanges(d.(postedNotifies := d.postedNotifies - 1)))
  {
    var e := d.(postedNotifies := d.postedNotifies - 1);
    assert FirewallTracks(e);
    LookupSame(d, e);
    hide Lookup, Replay, Greeted, FirewallTracks, CR.Inv, NotifyChanges;
    assert Mirrored(e);
    NotifyKeepsTold(e);
    hide Told;
  }

  lemma DataCallKeepsInv(d: Daemon, items: seq<(Key, Json)>, t: Table, mismatch: bool, all: bool)
    requires Inv(d) && InTable(items, t) && t != STATE_TABLE
    ensures Inv(SetAccount(d, items)) && Inv(ApplyConfig(d, items)) && Inv(ApplySettings(d, items, mismatch))
    ensures Inv(ResetSettings(d, all))
  {
    hide Inv, Silent, NotifyChanges, EraseUnknown, SetAll, SetChanged, WarnReconnect, Schedule, Resettable, Fields;
    EraseUnknownSilent(d, ACCOUNT);
    var a := EraseUnknown(d, ACCOUNT);
    SilentKeepsInv(d, a);
    SetAllSilent(a, items);
    SilentKeepsInv(a, SetAll(a, items));
    NotifyKeepsInv(SetAll(a, items));
    SetChangedSilent(d, items);
    SilentKeepsInv(d, SetChanged(d, items));
    NotifyKeepsInv(SetChanged(d, items));
    SettingsCallKeepsInv(d, items, t, mismatch);
    ResetKeepsInv(d, all);
  }

  lemma {:induction false} UnsuppressedInTable(items: seq<(Key, Json)>, t: Table)
    requires InTable(items, t)
    ensures InTable(Unsuppressed(items), t)
  {
    if items != [] { UnsuppressedInTable(items[1..], t); }
  }

  lemma SettingsCallKeepsInv(d: Daemon, items: seq<(Key, Json)>, t: Table, mismatch: bool)
    requires Inv(d) && InTable(items, t) && t != STATE_TABLE
    ensures Inv(ApplySettings(d, items, mismatch))
  {
    hide Inv, Silent, NotifyChanges, SetChanged, WarnReconnect, Unsuppressed;
    UnsuppressedInTable(items, t);
    var e := SetChanged(d, Unsuppressed(items));
    SetChangedSilent(d, Unsuppressed(items));
    SilentKeepsInv(d, e);
    var suppressed := exists i :: 0 <= i < |items| && Suppresses(items[i]);
    WarnReconnectKeepsInv(e, suppressed, mismatch);
    NotifyKeepsInv(WarnReconnect(e, suppressed, mismatch));
  }

  lemma ResetKeepsInv(d: Daemon, all: bool)
    requires Inv(d)
    ensures Inv(ResetSettings(d, all))
  {
    hide Inv, Silent, NotifyChanges, EraseUnknown, Schedule, Resettable, Defaults, Fields;
    EraseUnknownSilent(d, SETTINGS);
    SilentKeepsInv(d, EraseUnknown(d, SETTINGS));
    var e := if all then EraseUnknown(d, SETTINGS) else d;
    ResetSilent(e);
    var f := Schedule(e.(store := e.store + Defaults(), pending := e.pending + Resettable()));
    SilentKeepsInv(e, f);
    NotifyKeepsInv(f);
  }

  lemma DisconnectCallKeepsInv(d: Daemon)
    requires Inv(d) && !d.stopped
    ensures Inv(RpcDisconnect(d))
  {
    if d.state == INITIALIZED {
      WithdrawKeepsInv(d);
      hide Inv, SetIntention, WithConn, NotifyChanges, Disconnect;
      var e := SetIntention(d, false);
      NotifyKeepsInv(WithConn(e, Disconnect(e.conn)));
    }
  }

  lemma HappenKeepsInv(d: Daemon, h: Happening)
    requires Inv(d) && CanHappen(d, h)
    ensures Inv(Happen(d, h))
  {
    hide Inv, OpenClient, CloseClient, Get, RpcConnect, RpcDisconnect, SetAccount, ApplyConfig, ApplySettings,
      ResetSettings, RequestShutdown, NotifyChanges, DoShutdown, PingServers, OnStateChanged, WithConn, Step,
      Enabled, Put,
      Silent;
    match h
    case ClientOpens(c) => OpenClientKeepsInv(d, c);
    case ClientCloses(c) => CloseClientKeepsInv(d, c);
    case GetCalled(c, tables) => GetKeepsInv(d, c, tables);
    case ConnectCalled(timestamp, mismatch) => RpcConnectKeepsInv(d, timestamp, mismatch);
    case DisconnectCalled => DisconnectCallKeepsInv(d);
    case SetAccountCalled(items) => DataCallKeepsInv(d, items, ACCOUNT, false, false);
    case ApplyConfigCalled(items) => DataCallKeepsInv(d, items, CONFIG, false, false);
    case ApplySettingsCalled(items, mismatch) => DataCallKeepsInv(d, items, SETTINGS, mismatch, false);
    case ResetSettingsCalled(all) => DataCallKeepsInv(d, [], SETTINGS, false, all);
    case ShutdownRequested => RequestShutdownKeepsInv(d);
    case NotifyRuns => NotifyRunKeepsInv(d);
    case ShutdownRuns => DoShutdownKeepsInv(d);
    case PingsDue =>
      PingServersSilent(d);
      SilentKeepsInv(d, PingServers(d));
    case PingsDone(stats) =>
      PingStatsSilent(d, Put(stats, "updating", Bool(false)));
      SilentKeepsInv(d, Happen(d, h));
    case TrafficReported(received, sent) =>
      TrafficSilent(d, received, sent);
      SilentKeepsInv(d, Happen(d, h));
    case ConnectionMoves(e) => MoveKeepsInv(d, e);
  }

  lemma GetKeepsInv(d: Daemon, c: nat, tables: set<Table>)
    requires Inv(d)
    ensures Inv(Get(d, c, tables))
  {
    GetKeepsTold(d, c, tables);
    SameControlKeepsInv(d, Get(d, c, tables));
  }

  lemma {:induction false} RunKeepsInv(d: Daemon, hs: seq<Happening>)
    requires Inv(d) && CanRun(d, hs)
    ensures Inv(RunAll(d, hs))
    decreases |hs|
  {
    if hs != [] {
      HappenKeepsInv(d, hs[0]);
      RunKeepsInv(Happen(d, hs[0]), hs[1..]);
    }
  }

  lemma StartedInv(store: map<Key, Json>)
    ensures Inv(Started(store))
  {
  }

  // ---------- Steps of the loops in Daemon.dfy ----------

  lemma OneMoreReset(store: map<Key, Json>, defaults: map<Key, Json>, rest: set<Key>, k: Key)
    requires k in rest && rest <= defaults.Keys
    ensures (store + (defaults - rest))[k := defaults[k]] == store + (defaults - (rest - {k}))
  {
  }

  lemma OneMoreChange(pending: set<Key>, all: set<Key>, rest: set<Key>, k: Key)
    requires k in rest && rest <= all
    ensures pending + (all - rest) + {k} == pending + (all - (rest - {k}))
  {
  }

  lemma SetNextItem(d: Daemon, items: seq<(Key, Json)>, i: nat)
    requires i < |items|
    ensures var (k, v) := items[i];
      SetChanged(d, Unsuppressed(items[i..])) ==
      SetChanged(if Suppresses(items[i]) || (k in d.store && d.store[k] == v) then d else Set(d, k, v),
                 Unsuppressed(items[i + 1..]))
  {
    hide Set, Suppresses;
    var rest := Unsuppressed(items[i + 1..]);
    assert items[i..][1..] == items[i + 1..];
    assert [] + rest == rest && ([items[i]] + rest)[1..] == rest;
  }

  lemma NoItemLeft(d: Daemon, items: seq<(Key, Json)>)
    ensures SetChanged(d, Unsuppressed(items[|items|..])) == d
  {
  }

  // ---------- Main results ----------

  /** Over every run: the killswitch is in the configuration that the daemon's data call for whenever
      no notification is scheduled, and even then unless a change of one of its inputs is still untold. */
  lemma KillswitchFollows(store: map<Key, Json>, hs: seq<Happening>)
    requires CanRun(Started(store), hs)
    ensures var d := RunAll(Started(store), hs);
      (!d.scheduled || !FirewallRelevant(d.pending) ==> d.firewall == Wanted(d))
  {
    StartedInv(store);
    RunKeepsInv(Started(store), hs);
  }

  /** Over every run: a change that the clients were not told is in a notification that is in the queue. */
  lemma NotificationNeverLost(store: map<Key, Json>, hs: seq<Happening>)
    requires CanRun(Started(store), hs)
    ensures var d := RunAll(Started(store), hs); d.pending != {} ==> d.scheduled && d.postedNotifies > 0
  {
    StartedInv(store);
    RunKeepsInv(Started(store), hs);
  }

  /** Over every run: what any client was sent agrees with the daemon on every member that is not pending. */
  lemma ClientsToldEverything(store: map<Key, Json>, hs: seq<Happening>, c: nat, k: Key)
    requires CanRun(Started(store), hs)
    ensures var d := RunAll(Started(store), hs);
      c in d.clients && Tracked(k) && k !in d.pending && Lookup(d, k).Some? ==>
        c in d.sent && k in Replay(d.sent[c]) && Lookup(d, k) == Some(Replay(d.sent[c])[k])
  {
    StartedInv(store);
    RunKeepsInv(Started(store), hs);
  }

  /** Over every run: while the daemon serves, the intention to be connected never contradicts the connection. */
  lemma IntentionAgrees(store: map<Key, Json>, hs: seq<Happening>)
    requires CanRun(Started(store), hs)
    ensures var d := RunAll(Started(store), hs);
      && (d.state == INITIALIZED && d.shouldConnect ==> d.conn.state != DISCONNECTED && d.conn.state != DISCONNECTING)
      && (d.shouldConnect ==> d.clients != {})
  {
    StartedInv(store);
    RunKeepsInv(Started(store), hs);
  }

  /** A call of connect always leaves the intention set, whatever the connection says on the way. */
  lemma ConnectCallIntends(d: Daemon, timestamp: Json, mismatch: bool)
    requires Inv(d) && d.clients != {} && d.state == INITIALIZED
    ensures RpcConnect(d, timestamp, mismatch).0.shouldConnect
  {
    hide Silent, Connect, NotifyChanges, SetNeedsReconnect, WithConn, NoteLocation, Candid, Lookup, Replay, Greeted,
      FirewallTracks, CR.Inv;
    var a := NoteLocation(d, timestamp);
    NoteLocationSilent(d, timestamp);
    SilentKeepsTold(d, a);
    var e := SetIntention(a, true);
    SetIntentionSilent(a, true);
    SilentKeepsTold(a, e);
    hide SetIntention;
    var c := Connect(e.conn, e.needsReconnect, mismatch).0;
    ConnectIsCandid(e.conn, e.needsReconnect, mismatch);
    ConnectNeverSaysDisconnected(e.conn, e.needsReconnect, mismatch);
    var f := WithConn(e, c);
    WithConnOutcome(e, c);
    WithConnKeepsInv(e, c);
    SetNeedsReconnectSilent(f, false);
    SilentKeepsInv(f, SetNeedsReconnect(f, false));
    NotifyKeepsTold(SetNeedsReconnect(f, false));
  }

  lemma ConnectNeverSaysDisconnected(c: Conn, force: bool, mismatch: bool)
    ensures !Says(News(c, Connect(c, force, mismatch).0), DISCONNECTED)
  {
  }

  // ---------- Shutdown ----------

  /** Over every run: a shutdown under way has its next step coming, and the event loop stops only
      with no client and no connection. */
  lemma ShutdownNeverLost(store: map<Key, Json>, hs: seq<Happening>)
    requires CanRun(Started(store), hs)
    ensures var d := RunAll(Started(store), hs);
      && (d.state == EXITING && !d.stopped ==>
            d.postedShutdowns > 0 || d.clients != {} || d.conn.state == DISCONNECTING)
      && (d.stopped ==> d.clients == {} && d.conn.state == DISCONNECTED)
  {
    StartedInv(store);
    RunKeepsInv(Started(store), hs);
  }

  /** Both waits of a shutdown end by posting DoShutdown: the last client's leaving, and the
      connection's becoming DISCONNECTED. */
  lemma EndOfWaitPosts(d: Daemon, c: nat, e: Event)
    requires Inv(d) && d.state == EXITING
    ensures d.clients == {c} ==> CloseClient(d, c).postedShutdowns > d.postedShutdowns
    ensures Enabled(d.conn, e) && d.conn.state != DISCONNECTED && Step(d.conn, e).state == DISCONNECTED ==>
              WithConn(d, Step(d.conn, e)).postedShutdowns > 0
  {
    if Enabled(d.conn, e) {
      StepIsCandid(d.conn, e);
      WithConnOutcome(d, Step(d.conn, e));
    }
    hide Inv, Candid, Step, Silent, WithConn;
    SetIntentionSilent(d.(clients := {}), false);
  }

  /** How far the connection is from DISCONNECTED during a shutdown. */
  function Distance(s: State): nat {
    match s
    case DISCONNECTED => 0
    case DISCONNECTING => 1
    case _ => 2
  }

  predicate Winding(h: Happening) {
    h.ClientCloses? || h.ShutdownRuns? || (h.ConnectionMoves? && h.event.ProcessExits?)
  }

  /** From every reachable state of a shutdown, closing clients, an exiting process and posted calls
      are all it takes to stop the event loop. */
  lemma {:induction false} ShutdownCompletes(d: Daemon, now: int) returns (hs: seq<Happening>)
    requires Inv(d) && d.state == EXITING && !d.stopped
    ensures CanRun(d, hs) && RunAll(d, hs).stopped
    ensures forall i :: 0 <= i < |hs| ==> Winding(hs[i])
    decreases |d.clients|, Distance(d.conn.state)
  {
    var h := WindingStep(d, now);
    HappenKeepsInv(d, h);
    var e := Happen(d, h);
    var rest := [];
    hide Inv, Happen, CanHappen;
    if !e.stopped { rest := ShutdownCompletes(e, now); }
    hs := [h] + rest;
    assert hs[1..] == rest;
  }

  /** The event loop stopped, or a client left, or the connection came closer to DISCONNECTED. */
  predicate Wound(d: Daemon, e: Daemon) {
    e.state == EXITING &&
    (e.stopped || |e.clients| < |d.clients| ||
     (e.clients == d.clients && Distance(e.conn.state) < Distance(d.conn.state)))
  }

  lemma WindingStep(d: Daemon, now: int) returns (h: Happening)
    requires Inv(d) && d.state == EXITING && !d.stopped
    ensures CanHappen(d, h) && Winding(h) && Wound(d, Happen(d, h))
  {
    hide Told, CloseClient, DoShutdown, WithConn, Step;
    if d.clients != {} {
      var c :| c in d.clients;
      h := ClientCloses(c);
      CloseWinds(d, c);
    } else if d.conn.state == DISCONNECTING {
      h := ConnectionMoves(ProcessExits(now, d.conn.process.value));
      ExitWinds(d, now);
    } else {
      h := ShutdownRuns;
      ShutdownWinds(d);
    }
  }

  lemma CloseWinds(d: Daemon, c: nat)
    requires d.state == EXITING && c in d.clients
    ensures Wound(d, CloseClient(d, c))
  {
    SetIntentionSilent(d.(clients := d.clients - {c}), false);
    hide SetIntention, Silent, WithConn;
  }

  lemma ExitWinds(d: Daemon, now: int)
    requires Inv(d) && d.state == EXITING && d.conn.state == DISCONNECTING
    ensures d.conn.process.Some? && d.conn.process.value < d.conn.launches
    ensures var e := ProcessExits(now, d.conn.process.value); Wound(d, WithConn(d, Step(d.conn, e)))
  {
    var e := ProcessExits(now, d.conn.process.value);
    StepIsCandid(d.conn, e);
    CR.ExitOutcome(d.conn, now);
    var c := Step(d.conn, e);
    assert c.state == DISCONNECTED by { hide SetOpenVPNState; }
    hide Inv, Candid, Step, WithConn, Silent;
    WithConnOutcome(d, c);
  }

  lemma ShutdownWinds(d: Daemon)
    requires Inv(d) && d.state == EXITING && !d.stopped && d.clients == {} && d.conn.state != DISCONNECTING
    ensures d.postedShutdowns > 0 && Wound(d, DoShutdown(d.(postedShutdowns := d.postedShutdowns - 1)))
  {
    var p := d.(postedShutdowns := d.postedShutdowns - 1);
    PostedKeepsInv(d, p);
    var e := SetIntention(p, false);
    SetIntentionSilent(p, false);
    SilentKeepsTold(p, e);
    hide SetIntention, Silent, Disconnect, NotifyChanges, WithConn, CR.Inv;
    if e.conn.state != DISCONNECTED {
      DisconnectIsCandid(e.conn);
      WithConnOutcome(e, Disconnect(e.conn));
    } else {
      NotifyKeepsTold(e);
    }
  }
}
