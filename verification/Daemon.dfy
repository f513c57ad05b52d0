/** The CypherDaemon class of daemon/daemon.cpp, proved against DaemonProtocol. */
module Daemon {
  import opened Common
  import opened Json
  import opened ConnectionProtocol
  import P = DaemonProtocol
  import opened DaemonProtocol
  import C = Connection
  import CR = ConnectionRuns
  import R = DaemonRuns

  class CypherDaemon {
    const connection: C.Connection

    var state: DaemonState
    var shouldConnect: bool
    var needsReconnect: bool
    var store: map<Key, Json> // g_config, g_account and g_settings
    var pingStats: Json
    var bytesReceived: Json
    var bytesSent: Json
    var toNotify: set<Key>
    var notifyScheduled: bool

    // What the event loop holds for this object
    var postedNotifies: nat
    var postedShutdowns: nat
    var stopped: bool

    // The firewall: posix anchors, and the DNS filters of the Windows service
    var firewallEnabled: bool
    var killswitchAnchor: bool
    var exemptLANAnchor: bool
    var blockDNSFilter: bool

    var connections: set<nat>
    var sent: map<nat, seq<Message>>

    ghost function View(): Daemon
      reads this, connection
    {
      Daemon(state, connection.View(), shouldConnect, needsReconnect, store, pingStats, (bytesReceived, bytesSent),
             toNotify, notifyScheduled, postedNotifies, postedShutdowns, stopped,
             Firewall(firewallEnabled, killswitchAnchor, exemptLANAnchor, blockDNSFilter), connections, sent)
    }

    constructor (stored: map<Key, Json>)
      ensures View() == Started(stored) && fresh(connection)
    {
      connection := new C.Connection();
      state, shouldConnect, needsReconnect := INITIALIZED, false, false;
      store, pingStats, bytesReceived, bytesSent := stored, Object([]), Null, Null;
      toNotify, notifyScheduled, postedNotifies, postedShutdowns, stopped := {}, false, 0, 0, false;
      firewallEnabled, killswitchAnchor, exemptLANAnchor, blockDNSFilter := false, false, false, false;
      connections, sent := {}, map[];
    }

    // ---------- Notifications ----------

    method Schedule()
      modifies this`notifyScheduled, this`postedNotifies
      ensures View() == P.Schedule(old(View()))
    {
      if !notifyScheduled {
        notifyScheduled := true;
        postedNotifies := postedNotifies + 1;
      }
    }

    method OnChanged(key: Key)
      modifies this`toNotify, this`notifyScheduled, this`postedNotifies
      ensures View() == P.OnChanged(old(View()), key)
      ensures toNotify == old(toNotify) + {key} && notifyScheduled
      ensures postedNotifies == old(postedNotifies) + (if old(notifyScheduled) then 0 else 1)
    {
      toNotify := toNotify + {key};
      Schedule();
    }

    method OnStateChanged(flags: set<Key>)
      modifies this`toNotify, this`notifyScheduled, this`postedNotifies
      ensures View() == P.OnStateChanged(old(View()), flags)
    {
      if !(flags <= toNotify) {
        toNotify := toNotify + flags;
        Schedule();
      }
    }

    method Set(key: Key, value: Json)
      modifies this`store, this`toNotify, this`notifyScheduled, this`postedNotifies
      ensures View() == P.Set(old(View()), key, value)
    {
      if Accepts(key, value) {
        store := store[key := value];
        OnChanged(key);
      }
    }

    method SetIntention(intend: bool)
      modifies this`shouldConnect, this`toNotify, this`notifyScheduled, this`postedNotifies
      ensures View() == P.SetIntention(old(View()), intend)
    {
      if shouldConnect != intend {
        shouldConnect := intend;
        OnStateChanged({StateKey(CONNECT)});
      }
    }

    method SetNeedsReconnect(needs: bool)
      modifies this`needsReconnect, this`toNotify, this`notifyScheduled, this`postedNotifies
      ensures View() == P.SetNeedsReconnect(old(View()), needs)
    {
      if needsReconnect != needs {
        needsReconnect := needs;
        OnStateChanged({StateKey(NEEDSRECONNECT)});
      }
    }

    method PostShutdown()
      modifies this`postedShutdowns
      ensures View() == P.PostShutdown(old(View()))
    {
      postedShutdowns := postedShutdowns + 1;
    }

    method SendToAllClients(message: Message)
      requires connections <= sent.Keys
      modifies this`sent
      ensures View() == SendAll(old(View()), message) && sent.Keys == old(sent).Keys
    {
      var rest := connections;
      while rest != {}
        invariant rest <= connections <= sent.Keys == old(sent).Keys
        invariant forall c :: c in sent ==>
                    sent[c] == if c in connections - rest then old(sent)[c] + [message] else old(sent)[c]
        decreases |rest|
      {
        var c :| c in rest;
        sent := sent[c := sent[c] + [message]];
        rest := rest - {c};
      }
    }

    function FirewallMode(): (mode: string)
      reads this, connection
      ensures mode == Mode(View())
    {
      if FIREWALL in store && store[FIREWALL].String? then store[FIREWALL].s else ""
    }

    method ApplyFirewallSettings()
      modifies this`firewallEnabled, this`killswitchAnchor, this`exemptLANAnchor, this`blockDNSFilter
      ensures View() == ApplyFirewall(old(View()))
    {
      var mode := FirewallMode();
      if connections != {} && (mode == "on" || (shouldConnect && mode == "auto")) {
        var exemptLAN := ALLOW_LAN in store && store[ALLOW_LAN] == Bool(true);
        var blockDNS := OVERRIDE_DNS in store && store[OVERRIDE_DNS] == Bool(true);
        killswitchAnchor, exemptLANAnchor, blockDNSFilter, firewallEnabled := true, exemptLAN, blockDNS, true;
      } else {
        firewallEnabled, killswitchAnchor, exemptLANAnchor, blockDNSFilter := false, false, false, false;
      }
    }

    /** What is sent goes to clients that have been greeted. */
    ghost predicate Valid()
      reads this
    {
      connections <= sent.Keys
    }

    function ConnectionState(): (s: State)
      reads this, connection
      ensures s == View().conn.state
    {
      connection.state
    }

    function StateField(f: Field): (v: Json)
      reads this, connection
      ensures v == StateValue(View(), f)
    {
      match f
      case CONNECT => Bool(shouldConnect)
      case STATE =>
        String(if state == INITIALIZED then ConnectionStateName(ConnectionState()) else DaemonStateName(state))
      case NEEDSRECONNECT => Bool(needsReconnect)
      case BYTES_RECEIVED => if state == INITIALIZED && ConnectionState() == CONNECTED then bytesReceived else Null
      case BYTES_SENT => if state == INITIALIZED && ConnectionState() == CONNECTED then bytesSent else Null
      case PING_STATS => pingStats
    }

    function Current(k: Key): (v: Option<Json>)
      reads this, connection
      ensures v == Lookup(View(), k)
    {
      if k.StateKey? then Some(StateField(k.field))
      else if k == AUTHORITIES then Some(CERTIFICATE_AUTHORITIES) else if k in store then Some(store[k]) else None
    }

    function MakeObject(ks: set<Key>): (values: map<Key, Json>)
      reads this, connection
      ensures values == Restrict(View(), ks)
    {
      map k | k in ks && Current(k).Some? :: Current(k).value
    }

    function ChangedData(changed: set<Key>): (m: Message)
      reads this, connection
      ensures m == Delta(View(), changed)
    {
      var m := Data(None, set k | k in changed :: TableOf(k), MakeObject(changed));
      assert m.tables == Delta(View(), changed).tables;
      m
    }

    method PingServers()
      modifies this`pingStats, this`toNotify, this`notifyScheduled, this`postedNotifies
      ensures View() == P.PingServers(old(View()))
    {
      if state == INITIALIZED && ConnectionState() == DISCONNECTED {
        pingStats := Put(pingStats, "updating", Bool(true));
        OnStateChanged({StateKey(PING_STATS)});
      }
    }

    method NotifyChanges()
      requires Valid()
      modifies this
      ensures View() == P.NotifyChanges(old(View())) && Valid()
    {
      hide React, Delta, SendAll;
      if !notifyScheduled { return; }
      var changed := toNotify;
      var data := ChangedData(changed);
      notifyScheduled, toNotify := false, {};
      SendToAllClients(data);
      ReactToChanges(changed);
    }

    /** The end of NotifyChanges. */
    method ReactToChanges(changed: set<Key>)
      modifies this`pingStats, this`toNotify, this`notifyScheduled, this`postedNotifies, this`firewallEnabled,
        this`killswitchAnchor, this`exemptLANAnchor, this`blockDNSFilter
      ensures View() == React(old(View()), changed)
    {
      hide P.PingServers, Wanted, FirewallRelevant;
      var idle := state == INITIALIZED && ConnectionState() == DISCONNECTED;
      if LOCATIONS in changed || (StateKey(STATE) in changed && idle) {
        PingServers();
      }
      if FirewallRelevant(changed) { ApplyFirewallSettings(); }
    }

    // ---------- The ConnectionListener interface ----------

    method OnConnectionStateChanged(s: State)
      modifies this`postedShutdowns, this`shouldConnect, this`toNotify, this`notifyScheduled, this`postedNotifies
      ensures View() == HearOne(old(View()), StateChanged(s))
    {
      hide P.OnStateChanged;
      if state == EXITING && s == DISCONNECTED {
        PostShutdown();
      } else if state == INITIALIZED {
        OnStateChanged({StateKey(STATE)});
        if s == DISCONNECTED && shouldConnect {
          shouldConnect := false;
          OnStateChanged({StateKey(CONNECT)});
        }
      }
    }

    method OnNotice(n: Notice)
      requires Valid()
      modifies this`sent, this`needsReconnect, this`postedShutdowns, this`shouldConnect, this`toNotify,
          this`notifyScheduled, this`postedNotifies
      ensures View() == HearOne(old(View()), n) && Valid()
    {
      hide Wanted, StateValue;
      match n {
        case StateChanged(s) =>
          OnConnectionStateChanged(s);
        case Attempt(_) => // OnConnectionAttempt
          if needsReconnect {
            needsReconnect := false;
            OnStateChanged({StateKey(NEEDSRECONNECT)});
          }
        case Error(code, critical) => // OnConnectionError
          SendToAllClients(ErrorPost(code, critical));
      }
    }

    /** Makes the calls that the connection has recorded since it had recorded the given number. */
    method Listen(heard: nat)
      requires Valid() && heard <= |connection.notices|
      modifies this`sent, this`needsReconnect, this`postedShutdowns, this`shouldConnect, this`toNotify,
          this`notifyScheduled, this`postedNotifies
      ensures View() == Hear(old(View()), connection.notices[heard..]) && Valid()
    {
      hide HearOne;
      var i := heard;
      while i < |connection.notices|
        invariant heard <= i <= |connection.notices| && Valid()
        invariant Hear(View(), connection.notices[i..]) == Hear(old(View()), connection.notices[heard..])
      {
        var n := connection.notices[i];
        OnNotice(n);
        assert connection.notices[i..] == [n] + connection.notices[i + 1..];
        i := i + 1;
      }
    }

    method DisconnectConnection()
      requires Valid()
      modifies this, connection
      ensures View() == WithConn(old(View()), Disconnect(old(View()).conn)) && Valid()
    {
      hide Hear, Disconnect;
      R.UserExtendsLog(connection.View(), false, false);
      var heard := |connection.notices|;
      connection.Disconnect();
      Listen(heard);
    }

    method ConnectConnection(mismatch: bool) returns (accepted: bool)
      requires Valid()
      modifies this, connection
      ensures var (c, a) := Connect(old(View()).conn, old(needsReconnect), mismatch);
        View() == WithConn(old(View()), c) && accepted == a && Valid()
    {
      hide Hear, Connect;
      R.UserExtendsLog(connection.View(), needsReconnect, mismatch);
      var heard := |connection.notices|;
      accepted := connection.Connect(needsReconnect, mismatch);
      Listen(heard);
    }

    // ---------- Clients ----------

    method OnFirstClientConnected()
      modifies this
      ensures View() == P.OnFirstClientConnected(old(View())) && connections == old(connections) && sent == old(sent)
    {
      hide Wanted, P.PingServers;
      var mode := FirewallMode();
      if mode == "on" { ApplyFirewallSettings(); }
      PingServers();
    }

    method OnClientOpen(c: nat)
      requires Valid()
      modifies this
      ensures View() == OpenClient(old(View()), c) && Valid()
    {
      hide P.OnFirstClientConnected, Restrict;
      var first := connections == {};
      connections := connections + {c};
      sent := sent[c := []];
      assert View() == Admit(old(View()), c);
      if first { OnFirstClientConnected(); }
      assert View() == Welcome(old(View()), c);
      var data := Data(Some(VERSION), {CONFIG, ACCOUNT, SETTINGS, STATE_TABLE},
                       MakeObject(store.Keys + {AUTHORITIES} + StateKeys));
      sent := sent[c := [data]];
    }

    method OnLastClientDisconnected()
      requires Valid()
      modifies this, connection
      ensures View() == P.OnLastClientDisconnected(old(View())) && Valid()
    {
      hide Wanted, WithConn, P.OnStateChanged;
      SetIntention(false);
      if state == INITIALIZED { DisconnectConnection(); }
      var mode := FirewallMode();
      if mode == "on" { ApplyFirewallSettings(); }
      if state == EXITING { PostShutdown(); }
    }

    method OnClientClose(c: nat)
      requires Valid()
      modifies this, connection
      ensures View() == CloseClient(old(View()), c) && Valid()
    {
      hide P.OnLastClientDisconnected;
      connections := connections - {c};
      if connections == {} { OnLastClientDisconnected(); }
    }

    // ---------- Shutdown ----------

    method RequestShutdown()
      modifies this`state, this`toNotify, this`notifyScheduled, this`postedNotifies, this`postedShutdowns
      ensures View() == P.RequestShutdown(old(View()))
    {
      if state == STARTING || state == INITIALIZED {
        state := EXITING;
        OnStateChanged({StateKey(STATE)});
      }
      PostShutdown();
    }

    method DoShutdown()
      requires Valid()
      modifies this, connection
      ensures View() == P.DoShutdown(old(View())) && Valid()
    {
      hide WithConn, P.NotifyChanges, P.OnStateChanged;
      SetIntention(false);
      if connection.state != DISCONNECTED {
        DisconnectConnection();
        return;
      }
      NotifyChanges();
      if connections != {} { return; }
      stopped := true;
    }

    // ---------- Remote calls ----------

    method RpcGet(c: nat, tables: set<Table>)
      requires Valid() && c in sent
      modifies this`sent
      ensures View() == Get(old(View()), c, tables) && Valid()
    {
      var held := store.Keys + {AUTHORITIES} + StateKeys;
      var ks := set k | k in held && TableOf(k) in tables;
      sent := sent[c := sent[c] + [Data(None, tables, MakeObject(ks))]];
    }

    method RpcSetAccount(items: seq<(Key, Json)>)
      requires Valid()
      modifies this
      ensures View() == SetAccount(old(View()), items) && Valid()
    {
      hide P.NotifyChanges, P.Set;
      store := map k | k in store && !IsUnknown(k, ACCOUNT) :: store[k];
      assert View() == EraseUnknown(old(View()), ACCOUNT);
      hide EraseUnknown;
      var i := 0;
      while i < |items|
        invariant i <= |items| && Valid()
        invariant SetAll(View(), items[i..]) == SetAll(EraseUnknown(old(View()), ACCOUNT), items)
      {
        assert items[i..][1..] == items[i + 1..];
        Set(items[i].0, items[i].1);
        i := i + 1;
      }
      NotifyChanges();
    }

    method SetChangedItems(items: seq<(Key, Json)>)
      requires Valid()
      modifies this`store, this`toNotify, this`notifyScheduled, this`postedNotifies
      ensures View() == SetChanged(old(View()), items) && Valid()
    {
      hide P.Set;
      var i := 0;
      while i < |items|
        invariant i <= |items| && Valid()
        invariant SetChanged(View(), items[i..]) == SetChanged(old(View()), items)
      {
        assert items[i..][1..] == items[i + 1..];
        var (k, v) := items[i];
        if !(k in store && store[k] == v) { Set(k, v); }
        i := i + 1;
      }
    }

    method RpcApplyConfig(items: seq<(Key, Json)>)
      requires Valid()
      modifies this
      ensures View() == ApplyConfig(old(View()), items) && Valid()
    {
      hide P.NotifyChanges, SetChanged;
      SetChangedItems(items);
      NotifyChanges();
    }

    /** The loop of RPC_applySettings: sets what differs, except the flag that suppresses the warning. */
    method SetUnsuppressed(items: seq<(Key, Json)>) returns (suppressed: bool)
      modifies this`store, this`toNotify, this`notifyScheduled, this`postedNotifies
      ensures View() == SetChanged(old(View()), Unsuppressed(items))
      ensures suppressed == exists i :: 0 <= i < |items| && Suppresses(items[i])
    {
      hide P.Set, Suppresses, SetChanged, Unsuppressed;
      suppressed := false;
      assert items[0..] == items;
      var i := 0;
      while i < |items|
        invariant i <= |items|
        invariant suppressed == exists j :: 0 <= j < i && Suppresses(items[j])
        invariant SetChanged(View(), Unsuppressed(items[i..])) == SetChanged(old(View()), Unsuppressed(items))
      {
        var (k, v) := items[i];
        R.SetNextItem(View(), items, i);
        if Suppresses(items[i]) {
          suppressed := true;
        } else if !(k in store && store[k] == v) {
          Set(k, v);
        }
        i := i + 1;
      }
      R.NoItemLeft(View(), items);
    }

    method RpcApplySettings(items: seq<(Key, Json)>, mismatch: bool)
      requires Valid()
      modifies this, connection
      ensures View() == ApplySettings(old(View()), items, mismatch) && Valid()
    {
      hide P.NotifyChanges, P.WarnReconnect, SetChanged, Unsuppressed, Suppresses;
      var suppressed := SetUnsuppressed(items);
      WarnReconnect(suppressed, mismatch);
      NotifyChanges();
    }

    method WarnReconnect(suppressed: bool, mismatch: bool)
      modifies this`needsReconnect, this`toNotify, this`notifyScheduled, this`postedNotifies, connection
      ensures View() == P.WarnReconnect(old(View()), suppressed, mismatch)
    {
      if !needsReconnect && !suppressed && state == INITIALIZED {
        var needed := connection.NeedsReconnect(mismatch);
        if needed { SetNeedsReconnect(true); }
      }
    }

    method RpcResetSettings(deleteAllValues: bool)
      requires Valid()
      modifies this
      ensures View() == ResetSettings(old(View()), deleteAllValues) && Valid()
    {
      hide P.NotifyChanges, Resettable, Fields;
      if deleteAllValues {
        store := map k | k in store && !IsUnknown(k, SETTINGS) :: store[k];
      }
      ResetFields();
      NotifyChanges();
    }

    method ResetFields()
      modifies this`store, this`toNotify, this`notifyScheduled, this`postedNotifies
      ensures View() == P.Schedule(old(View()).(store := old(store) + Defaults(),
          pending := old(toNotify) + Resettable()))
    {
      R.ResettableMembers();
      hide Fields, Resettable;
      assert Defaults().Keys == Resettable();
      hide Defaults;
      ResetEach(Defaults());
    }

    /** The closure that a declared member keeps for its reset. */
    method ResetOne(k: Key, default_: Json)
      modifies this`store, this`toNotify, this`notifyScheduled, this`postedNotifies
      ensures store == old(store)[k := default_] && toNotify == old(toNotify) + {k} && notifyScheduled
      ensures postedNotifies == old(postedNotifies) + (if old(notifyScheduled) then 0 else 1)
    {
      hide View, P.OnChanged;
      store := store[k := default_];
      OnChanged(k);
    }

    method ResetEach(defaults: map<Key, Json>)
      requires defaults.Keys != {}
      modifies this`store, this`toNotify, this`notifyScheduled, this`postedNotifies
      ensures store == old(store) + defaults && toNotify == old(toNotify) + defaults.Keys
      ensures notifyScheduled && postedNotifies == old(postedNotifies) + (if old(notifyScheduled) then 0 else 1)
    {
      hide View;
      var rest := defaults.Keys;
      ghost var started := false;
      while rest != {}
        invariant rest <= defaults.Keys && (!started ==> rest == defaults.Keys)
        invariant store == old(store) + (defaults - rest) && toNotify == old(toNotify) + (defaults.Keys - rest)
        invariant if started
                  then notifyScheduled
                    && postedNotifies == old(postedNotifies) + (if old(notifyScheduled) then 0 else 1)
                  else notifyScheduled == old(notifyScheduled) && postedNotifies == old(postedNotifies)
        decreases |rest|
      {
        var k :| k in rest;
        R.OneMoreReset(old(store), defaults, rest, k);
        R.OneMoreChange(old(toNotify), defaults.Keys, rest, k);
        ResetOne(k, defaults[k]);
        rest, started := rest - {k}, true;
      }
      assert defaults - {} == defaults && defaults.Keys - {} == defaults.Keys;
    }

    function HeldValue(k: Key): (v: Json)
      reads this, connection
      ensures v == Value(View(), k)
    {
      if k in store then store[k] else Null
    }

    method NoteLocation(timestamp: Json)
      modifies this`store, this`toNotify, this`notifyScheduled, this`postedNotifies
      ensures View() == P.NoteLocation(old(View()), timestamp)
    {
      hide PushRecent, Put, P.OnChanged, Value;
      var location := HeldValue(LOCATION);
      var name := if location.String? then location.s else "";
      Replace(LAST_CONNECTED, Put(HeldValue(LAST_CONNECTED), name, timestamp));
      Replace(RECENT, PushRecent(HeldValue(RECENT), location));
    }

    method Replace(k: Key, v: Json)
      modifies this`store, this`toNotify, this`notifyScheduled, this`postedNotifies
      ensures View() == P.OnChanged(old(View()).(store := old(store)[k := v]), k)
    {
      hide P.OnChanged;
      store := store[k := v];
      OnChanged(k);
    }

    method RpcConnect(timestamp: Json, mismatch: bool) returns (accepted: bool)
      requires Valid()
      modifies this, connection
      ensures (View(), accepted) == P.RpcConnect(old(View()), timestamp, mismatch) && Valid()
    {
      hide P.NotifyChanges, P.NoteLocation, P.SetIntention, P.SetNeedsReconnect, WithConn, Connect;
      if state != INITIALIZED { return false; }
      NoteLocation(timestamp);
      SetIntention(true);
      accepted := ConnectConnection(mismatch);
      SetNeedsReconnect(false);
      NotifyChanges();
    }

    method RpcDisconnect()
      requires Valid()
      modifies this, connection
      ensures View() == P.RpcDisconnect(old(View())) && Valid()
    {
      hide P.NotifyChanges, P.OnStateChanged, WithConn;
      if state != INITIALIZED { return; }
      SetIntention(false);
      DisconnectConnection();
      NotifyChanges();
    }

    // ---------- The event loop's turns for the connection ----------

    method Deliver(event: Event)
      requires Valid() && CanHappen(View(), ConnectionMoves(event)) && CR.Inv(connection.View())
      modifies this, connection
      ensures View() == WithConn(old(View()), Step(old(View()).conn, event)) && Valid()
    {
      hide Hear, Step, Enabled, CR.Inv;
      R.StepExtendsLog(connection.View(), event);
      var heard := |connection.notices|;
      connection.Turn(event);
      Listen(heard);
    }

    /** One turn of the event loop, and what can be said of the fields after each. */
    method Turn(h: Happening)
      requires Valid() && R.Inv(View()) && CanHappen(View(), h)
      modifies this, connection
      ensures View() == Happen(old(View()), h) && Valid() && R.Inv(View())
      ensures !notifyScheduled ==>
        Firewall(firewallEnabled, killswitchAnchor, exemptLANAnchor, blockDNSFilter) == Wanted(View())
      ensures toNotify != {} ==> notifyScheduled && postedNotifies > 0
      ensures state == INITIALIZED && shouldConnect ==>
        connection.state != DISCONNECTED && connection.state != DISCONNECTING
      ensures state == EXITING && !stopped ==>
        postedShutdowns > 0 || connections != {} || connection.state == DISCONNECTING
    {
      R.HappenKeepsInv(View(), h);
      R.InvMeans(View());
      R.InvMeans(Happen(View(), h));
      hide R.Inv, CR.Inv, Happen, CanHappen, Wanted;
      if FromClient(h) {
        Serve(h);
      } else if IsPosted(h) {
        RunPosted(h);
      } else {
        HearNews(h);
      }
    }

    /** A websocket opens or closes, or a call comes in on one. */
    method Serve(h: Happening)
      requires Valid() && CanHappen(View(), h) && FromClient(h)
      modifies this, connection
      ensures View() == Happen(old(View()), h) && Valid()
    {
      hide OpenClient, CloseClient, Get, P.RpcConnect, P.RpcDisconnect, SetAccount, ApplyConfig, ApplySettings,
        ResetSettings, InTable;
      match h {
        case ClientOpens(c) => OnClientOpen(c);
        case ClientCloses(c) => OnClientClose(c);
        case GetCalled(c, tables) => RpcGet(c, tables);
        case ConnectCalled(timestamp, mismatch) => var accepted := RpcConnect(timestamp, mismatch);
        case DisconnectCalled => RpcDisconnect();
        case SetAccountCalled(items) => RpcSetAccount(items);
        case ApplyConfigCalled(items) => RpcApplyConfig(items);
        case ApplySettingsCalled(items, mismatch) => RpcApplySettings(items, mismatch);
        case ResetSettingsCalled(all) => RpcResetSettings(all);
      }
    }

    /** A posted callback runs, or a shutdown is requested. */
    method RunPosted(h: Happening)
      requires Valid() && CanHappen(View(), h) && IsPosted(h)
      modifies this, connection
      ensures View() == Happen(old(View()), h) && Valid()
    {
      hide P.RequestShutdown, P.NotifyChanges, P.DoShutdown;
      match h {
        case ShutdownRequested => RequestShutdown();
        case NotifyRuns =>
          postedNotifies := postedNotifies - 1;
          NotifyChanges();
        case ShutdownRuns =>
          postedShutdowns := postedShutdowns - 1;
          DoShutdown();
      }
    }

    method OnTrafficStatsUpdated(received: Json, sentBytes: Json)
      modifies this`bytesReceived, this`bytesSent, this`toNotify, this`notifyScheduled, this`postedNotifies
      ensures View() == P.OnStateChanged(old(View()).(bytes := (received, sentBytes)),
                                         {StateKey(BYTES_RECEIVED), StateKey(BYTES_SENT)})
    {
      hide P.OnStateChanged;
      bytesReceived, bytesSent := received, sentBytes;
      OnStateChanged({StateKey(BYTES_RECEIVED), StateKey(BYTES_SENT)});
    }

    method OnPingsDone(stats: Json)
      modifies this`pingStats, this`toNotify, this`notifyScheduled, this`postedNotifies
      ensures View() == P.OnStateChanged(old(View()).(pingStats := Put(stats, "updating", Bool(false))),
                                         {StateKey(PING_STATS)})
    {
      hide P.OnStateChanged, Put;
      pingStats := Put(stats, "updating", Bool(false));
      OnStateChanged({StateKey(PING_STATS)});
    }

    /** The connection, the traffic statistics or the pings have news. */
    method HearNews(h: Happening)
      requires Valid() && CanHappen(View(), h) && !FromClient(h) && !IsPosted(h) && CR.Inv(connection.View())
      modifies this, connection
      ensures View() == Happen(old(View()), h) && Valid()
    {
      hide CR.Inv, P.PingServers, P.OnStateChanged, WithConn, Step, Enabled, Put;
      match h {
        case PingsDue => PingServers();
        case PingsDone(stats) => OnPingsDone(stats);
        case TrafficReported(received, sentBytes) => OnTrafficStatsUpdated(received, sentBytes);
        case ConnectionMoves(event) => Deliver(event);
      }
    }
  }

  predicate IsPosted(h: Happening) { h.ShutdownRequested? || h.NotifyRuns? || h.ShutdownRuns? }

  predicate FromClient(h: Happening) {
    || h.ClientOpens? || h.ClientCloses? || h.GetCalled? || h.ConnectCalled? || h.DisconnectCalled?
    || h.SetAccountCalled? || h.ApplyConfigCalled? || h.ApplySettingsCalled? || h.ResetSettingsCalled?
  }
}
