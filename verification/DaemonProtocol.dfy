/**
 The coordinator of daemon/daemon.cpp as a protocol on values: what the daemon
 holds, what each of its handlers does, and the runs in which websocket clients,
 the VPN connection, posted callbacks and shutdown requests interleave.

 The class in Daemon.dfy performs the same handlers field by field and is proved
 against the functions of this module.
 */
module DaemonProtocol {
  import opened Common
  import opened Json
  import opened ConnectionProtocol

  // ---------- The replicated data ----------

  datatype Table = CONFIG | ACCOUNT | SETTINGS | STATE_TABLE

  datatype Field = CONNECT | STATE | NEEDSRECONNECT | BYTES_RECEIVED | BYTES_SENT | PING_STATS

  /** A member of one of the four objects that the clients mirror. */
  datatype Key = ConfigKey(name: string) | AccountKey(name: string) | SettingsKey(name: string) | StateKey(field: Field)

  function TableOf(k: Key): Table {
    match k
    case ConfigKey(_) => CONFIG
    case AccountKey(_) => ACCOUNT
    case SettingsKey(_) => SETTINGS
    case StateKey(_) => STATE_TABLE
  }

  const FIREWALL := SettingsKey("firewall")
  const ALLOW_LAN := SettingsKey("allowLAN")
  const OVERRIDE_DNS := SettingsKey("overrideDNS")
  const LOCATION := SettingsKey("location")
  const LAST_CONNECTED := SettingsKey("lastConnected")
  const RECENT := SettingsKey("recent")
  const LOCATIONS := ConfigKey("locations")
  const AUTHORITIES := ConfigKey("certificateAuthorities")

  /** The bundled certificate; its text is not part of this model. */
  const CERTIFICATE_AUTHORITIES: Json := Array([Array([])])

  const VERSION: string := "0.9.0-preview"

  /** The declared members and their defaults; only these have a fixed kind of value. */
  function Fields(): map<Key, Json> {
    map[
      ConfigKey("regions") := Object([]), LOCATIONS := Object([]), ConfigKey("countryNames") := Object([]),
      ConfigKey("regionNames") := Object([]), ConfigKey("regionOrder") := Array([]),
      AccountKey("privacy") := Object([]),
      SettingsKey("remotePort") := String("udp:7133"), LOCATION := String("tokyodev"),
      SettingsKey("locationFlag") := String(""), SettingsKey("fastest") := String(""),
      SettingsKey("localPort") := Number("0"), SettingsKey("mtu") := Number("1500"),
      SettingsKey("encryption") := String("default"),
      FIREWALL := String("auto"), ALLOW_LAN := Bool(true), SettingsKey("blockIPv6") := Bool(true),
      OVERRIDE_DNS := Bool(true), SettingsKey("optimizeDNS") := Bool(false), SettingsKey("blockAds") := Bool(false),
      SettingsKey("blockMalware") := Bool(true), SettingsKey("routeDefault") := Bool(true),
      SettingsKey("runOpenVPNAsRoot") := Bool(true), SettingsKey("autoConnect") := Bool(false),
      SettingsKey("showNotifications") := Bool(true), SettingsKey("favorites") := Array([]),
      RECENT := Array([]), LAST_CONNECTED := Object([])
    ]
  }

  predicate SameKind(a: Json, b: Json) {
    TypeOf(a) == TypeOf(b) && a.Null? == b.Null? && a.Array? == b.Array?
  }

  predicate Accepts(k: Key, v: Json) {
    k in Fields() ==> SameKind(v, Fields()[k])
  }

  /** A message on a websocket: the 'data' notification or the 'error' notification. */
  datatype Message =
    | Data(version: Option<string>, tables: set<Table>, values: map<Key, Json>)
    | ErrorPost(code: ErrorCode, critical: bool)

  // ---------- The daemon ----------

  datatype DaemonState = STARTING | INITIALIZED | EXITING | EXITED

  /** The posix anchors, and the DNS filters of the Windows service. */
  datatype Firewall = Firewall(enabled: bool, killswitch: bool, exemptLAN: bool, blockDNS: bool)

  const Disengaged := Firewall(false, false, false, false)

  /**
    - pending:   the members whose change the clients have not been told (_to_notify)
    - scheduled: _notify_scheduled
    - postedNotifies, postedShutdowns: callbacks in the event loop's queue
    - sent:      everything sent to each client, oldest first
    - firewall:  what ApplyFirewallSettings last applied
   */
  datatype Daemon = Daemon(
    state: DaemonState,
    conn: Conn,
    shouldConnect: bool,
    needsReconnect: bool,
    store: map<Key, Json>,
    pingStats: Json,
    bytes: (Json, Json),
    pending: set<Key>,
    scheduled: bool,
    postedNotifies: nat,
    postedShutdowns: nat,
    stopped: bool,
    firewall: Firewall,
    clients: set<nat>,
    sent: map<nat, seq<Message>>)

  /** The daemon when its event loop starts, with what it read from disk. */
  function Started(store: map<Key, Json>): Daemon {
    Daemon(INITIALIZED, Created, false, false, store, Object([]), (Null, Null),
           {}, false, 0, 0, false, Disengaged, {}, map[])
  }

  function ConnectionStateName(s: State): string {
    match s
    case DISCONNECTED => "DISCONNECTED"
    case CONNECTING => "CONNECTING"
    case STILL_CONNECTING => "STILL_CONNECTING"
    case CONNECTED => "CONNECTED"
    case INTERRUPTED => "INTERRUPTED"
    case RECONNECTING => "RECONNECTING"
    case STILL_RECONNECTING => "STILL_RECONNECTING"
    case DISCONNECTING_TO_RECONNECT => "DISCONNECTING_TO_RECONNECT"
    case DISCONNECTING => "DISCONNECTING"
  }

  function DaemonStateName(s: DaemonState): string {
    match s
    case STARTING => "STARTING"
    case INITIALIZED => "INITIALIZED"
    case EXITING => "EXITING"
    case EXITED => "EXITED"
  }

  function StateValue(d: Daemon, f: Field): Json {
    match f
    case CONNECT => Bool(d.shouldConnect)
    case STATE => String(if d.state == INITIALIZED then ConnectionStateName(d.conn.state) else DaemonStateName(d.state))
    case NEEDSRECONNECT => Bool(d.needsReconnect)
    case BYTES_RECEIVED => if d.state == INITIALIZED && d.conn.state == CONNECTED then d.bytes.0 else Null
    case BYTES_SENT => if d.state == INITIALIZED && d.conn.state == CONNECTED then d.bytes.1 else Null
    case PING_STATS => d.pingStats
  }

  /** What the daemon currently holds for a member. */
  function Lookup(d: Daemon, k: Key): Option<Json> {
    match k
    case StateKey(f) => Some(StateValue(d, f))
    case _ =>
      if k == AUTHORITIES then Some(CERTIFICATE_AUTHORITIES)
      else if k in d.store then Some(d.store[k])
      else None
  }

  const StateKeys: set<Key> :=
    {StateKey(CONNECT), StateKey(STATE), StateKey(NEEDSRECONNECT), StateKey(BYTES_RECEIVED), StateKey(BYTES_SENT),
     StateKey(PING_STATS)}

  function Held(d: Daemon): set<Key> {
    d.store.Keys + {AUTHORITIES} + StateKeys
  }

  /** The current values of the given members, as far as they exist. */
  function Restrict(d: Daemon, ks: set<Key>): map<Key, Json> {
    map k | k in ks && Lookup(d, k).Some? :: Lookup(d, k).value
  }

  function Snapshot(d: Daemon): Message {
    Data(Some(VERSION), {CONFIG, ACCOUNT, SETTINGS, STATE_TABLE}, Restrict(d, Held(d)))
  }

  function Delta(d: Daemon, ks: set<Key>): Message {
    Data(None, set k | k in ks :: TableOf(k), Restrict(d, ks))
  }

  // ---------- Building blocks ----------

  function Schedule(d: Daemon): Daemon {
    if d.scheduled then d else d.(scheduled := true, postedNotifies := d.postedNotifies + 1)
  }

  /** OnConfigChanged, OnAccountChanged and OnSettingsChanged. */
  function OnChanged(d: Daemon, k: Key): Daemon {
    Schedule(d.(pending := d.pending + {k}))
  }

  function OnStateChanged(d: Daemon, flags: set<Key>): Daemon {
    if flags <= d.pending then d else Schedule(d.(pending := d.pending + flags))
  }

  /** NativeJsonObject::Set; a declared member refuses a value of another kind. */
  function Set(d: Daemon, k: Key, v: Json): Daemon {
    if Accepts(k, v) then OnChanged(d.(store := d.store[k := v]), k) else d
  }

  function SetIntention(d: Daemon, intend: bool): Daemon {
    if d.shouldConnect == intend then d
    else OnStateChanged(d.(shouldConnect := intend), {StateKey(CONNECT)})
  }

  function SetNeedsReconnect(d: Daemon, needs: bool): Daemon {
    if d.needsReconnect == needs then d
    else OnStateChanged(d.(needsReconnect := needs), {StateKey(NEEDSRECONNECT)})
  }

  function PostShutdown(d: Daemon): Daemon {
    d.(postedShutdowns := d.postedShutdowns + 1)
  }

  function SendAll(d: Daemon, m: Message): Daemon {
    d.(sent := map c | c in d.sent :: if c in d.clients then d.sent[c] + [m] else d.sent[c])
  }

  function Mode(d: Daemon): string {
    if FIREWALL in d.store && d.store[FIREWALL].String? then d.store[FIREWALL].s else ""
  }

  predicate Flag(d: Daemon, k: Key) {
    k in d.store && d.store[k] == Bool(true)
  }

  predicate Engaged(d: Daemon) {
    d.clients != {} && (Mode(d) == "on" || (d.shouldConnect && Mode(d) == "auto"))
  }

  /** The firewall configuration that the daemon's data call for. */
  function Wanted(d: Daemon): Firewall {
    if Engaged(d) then Firewall(true, true, Flag(d, ALLOW_LAN), Flag(d, OVERRIDE_DNS)) else Disengaged
  }

  function ApplyFirewall(d: Daemon): Daemon {
    d.(firewall := Wanted(d))
  }

  /** Sets a member of an object value. */
  function Put(o: Json, key: string, v: Json): Json {
    match o
    case Object(members) => Object(PutMember(members, key, v))
    case _ => Object([Member(key, v)])
  }

  function PutMember(members: seq<Member>, key: string, v: Json): seq<Member> {
    if members == [] then [Member(key, v)]
    else if members[0].key == key then [Member(key, v)] + members[1..]
    else [members[0]] + PutMember(members[1..], key, v)
  }

  predicate Idle(d: Daemon) {
    d.state == INITIALIZED && d.conn.state == DISCONNECTED
  }

  function PingServers(d: Daemon): Daemon {
    if Idle(d)
    then OnStateChanged(d.(pingStats := Put(d.pingStats, "updating", Bool(true))), {StateKey(PING_STATS)})
    else d
  }

  predicate FirewallRelevant(ks: set<Key>) {
    StateKey(STATE) in ks || StateKey(CONNECT) in ks || FIREWALL in ks || ALLOW_LAN in ks || OVERRIDE_DNS in ks
  }

  function NotifyChanges(d: Daemon): Daemon {
    if !d.scheduled then d
    else
      React(SendAll(d.(scheduled := false, pending := {}), Delta(d, d.pending)), d.pending)
  }

  /** What the daemon does itself about changes that it has just told. */
  function React(told: Daemon, changed: set<Key>): Daemon {
    var pings := LOCATIONS in changed || (StateKey(STATE) in changed && Idle(told));
    var pinged := if pings then PingServers(told) else told;
    if FirewallRelevant(changed) then ApplyFirewall(pinged) else pinged
  }

  // ---------- Listening to the connection ----------

  function HearOne(d: Daemon, n: Notice): Daemon {
    match n
    case StateChanged(s) =>
      if d.state == EXITING && s == DISCONNECTED then PostShutdown(d)
      else if d.state == INITIALIZED then
        var e := OnStateChanged(d, {StateKey(STATE)});
        if s == DISCONNECTED then SetIntention(e, false) else e
      else d
    case Attempt(_) => SetNeedsReconnect(d, false)
    case Error(code, critical) => SendAll(d, ErrorPost(code, critical))
  }

  function Hear(d: Daemon, ns: seq<Notice>): Daemon
    decreases |ns|
  {
    if ns == [] then d else Hear(HearOne(d, ns[0]), ns[1..])
  }

  function News(was: Conn, now: Conn): seq<Notice> {
    if |was.log| <= |now.log| then now.log[|was.log|..] else []
  }

  /** The connection has moved on; the daemon hears what it said on the way. */
  function WithConn(d: Daemon, c: Conn): Daemon {
    Hear(d.(conn := c), News(d.conn, c))
  }

  // ---------- The handlers ----------

  function Admit(d: Daemon, c: nat): Daemon {
    d.(clients := d.clients + {c}, sent := d.sent[c := []])
  }

  function OnFirstClientConnected(d: Daemon): Daemon {
    PingServers(if Mode(d) == "on" then ApplyFirewall(d) else d)
  }

  function Welcome(d: Daemon, c: nat): Daemon {
    if d.clients == {} then OnFirstClientConnected(Admit(d, c)) else Admit(d, c)
  }

  function OpenClient(d: Daemon, c: nat): Daemon {
    var e := Welcome(d, c);
    e.(sent := e.sent[c := [Snapshot(e)]])
  }

  function OnLastClientDisconnected(d: Daemon): Daemon {
    var e := SetIntention(d, false);
    var f := if e.state == INITIALIZED then WithConn(e, Disconnect(e.conn)) else e;
    var g := if Mode(f) == "on" then ApplyFirewall(f) else f;
    if g.state == EXITING then PostShutdown(g) else g
  }

  function CloseClient(d: Daemon, c: nat): Daemon {
    var e := d.(clients := d.clients - {c});
    if e.clients == {} then OnLastClientDisconnected(e) else e
  }

  function RequestShutdown(d: Daemon): Daemon {
    var e := if d.state == STARTING || d.state == INITIALIZED
             then OnStateChanged(d.(state := EXITING), {StateKey(STATE)}) else d;
    PostShutdown(e)
  }

  function DoShutdown(d: Daemon): Daemon {
    var e := SetIntention(d, false);
    if e.conn.state != DISCONNECTED then WithConn(e, Disconnect(e.conn))
    else
      var f := NotifyChanges(e);
      if f.clients != {} then f else f.(stopped := true)
  }

  /** RPC_get: the requested tables, to one client. */
  function Get(d: Daemon, c: nat, tables: set<Table>): Daemon {
    var ks := set k | k in Held(d) && TableOf(k) in tables;
    if c in d.sent then d.(sent := d.sent[c := d.sent[c] + [Data(None, tables, Restrict(d, ks))]]) else d
  }

  function SetAll(d: Daemon, items: seq<(Key, Json)>): Daemon
    decreases |items|
  {
    if items == [] then d else SetAll(Set(d, items[0].0, items[0].1), items[1..])
  }

  predicate IsUnknown(k: Key, t: Table) {
    TableOf(k) == t && k !in Fields()
  }

  function EraseUnknown(d: Daemon, t: Table): Daemon {
    d.(store := map k | k in d.store && !IsUnknown(k, t) :: d.store[k])
  }

  function SetAccount(d: Daemon, items: seq<(Key, Json)>): Daemon {
    NotifyChanges(SetAll(EraseUnknown(d, ACCOUNT), items))
  }

  /** Sets the items that differ from what is held. */
  function SetChanged(d: Daemon, items: seq<(Key, Json)>): Daemon
    decreases |items|
  {
    if items == [] then d
    else
      var (k, v) := items[0];
      SetChanged(if k in d.store && d.store[k] == v then d else Set(d, k, v), items[1..])
  }

  function ApplyConfig(d: Daemon, items: seq<(Key, Json)>): Daemon {
    NotifyChanges(SetChanged(d, items))
  }

  predicate IsTruthy(v: Json) {
    match v
    case Null => false
    case Bool(b) => b
    case Number(text) => text != "0"
    case String(s) => s != ""
    case _ => true
  }

  predicate Suppresses(item: (Key, Json)) {
    item.0 == SettingsKey("suppressReconnectWarning") && IsTruthy(item.1)
  }

  function Unsuppressed(items: seq<(Key, Json)>): seq<(Key, Json)> {
    if items == [] then []
    else (if Suppresses(items[0]) then [] else [items[0]]) + Unsuppressed(items[1..])
  }

  function WarnReconnect(d: Daemon, suppressed: bool, mismatch: bool): Daemon {
    if !d.needsReconnect && !suppressed && d.state == INITIALIZED then
      var (c, needed) := NeedsReconnect(d.conn, mismatch);
      var e := d.(conn := c);
      if needed then SetNeedsReconnect(e, true) else e
    else d
  }

  function ApplySettings(d: Daemon, items: seq<(Key, Json)>, mismatch: bool): Daemon {
    var e := SetChanged(d, Unsuppressed(items));
    NotifyChanges(WarnReconnect(e, exists i :: 0 <= i < |items| && Suppresses(items[i]), mismatch))
  }

  function Resettable(): set<Key> {
    set k | k in Fields() && TableOf(k) == SETTINGS && k != LOCATION
  }

  function Defaults(): map<Key, Json> {
    map k | k in Resettable() :: Fields()[k]
  }

  function ResetSettings(d: Daemon, deleteAllValues: bool): Daemon {
    var e := if deleteAllValues then EraseUnknown(d, SETTINGS) else d;
    NotifyChanges(Schedule(e.(store := e.store + Defaults(), pending := e.pending + Resettable())))
  }

  /** Moves the location to the front of the recent locations, of which three are kept. */
  function PushRecent(recent: Json, location: Json): Json {
    var others := if recent.Array? then Without(recent.items, location) else [];
    var all := [location] + others;
    Array(if |all| > 3 then all[..3] else all)
  }

  function Without(items: seq<Json>, v: Json): seq<Json> {
    if items == [] then [] else (if items[0] == v then [] else [items[0]]) + Without(items[1..], v)
  }

  function Value(d: Daemon, k: Key): Json {
    if k in d.store then d.store[k] else Null
  }

  /** The note that RPC_connect makes of the location it connects to. */
  function NoteLocation(d: Daemon, timestamp: Json): Daemon {
    var location := Value(d, LOCATION);
    var name := if location.String? then location.s else "";
    var noted := Put(Value(d, LAST_CONNECTED), name, timestamp);
    var e := OnChanged(d.(store := d.store[LAST_CONNECTED := noted]), LAST_CONNECTED);
    OnChanged(e.(store := e.store[RECENT := PushRecent(Value(e, RECENT), location)]), RECENT)
  }

  function RpcConnect(d: Daemon, timestamp: Json, mismatch: bool): (r: (Daemon, bool)) {
    if d.state != INITIALIZED then (d, false)
    else
      var e := SetIntention(NoteLocation(d, timestamp), true);
      var (c, accepted) := Connect(e.conn, e.needsReconnect, mismatch);
      (NotifyChanges(SetNeedsReconnect(WithConn(e, c), false)), accepted)
  }

  function RpcDisconnect(d: Daemon): Daemon {
    if d.state != INITIALIZED then d
    else
      var e := SetIntention(d, false);
      NotifyChanges(WithConn(e, Disconnect(e.conn)))
  }

  // ---------- Runs ----------

  datatype Happening =
    | ClientOpens(client: nat)
    | ClientCloses(client: nat)
    | GetCalled(client: nat, tables: set<Table>)
    | ConnectCalled(timestamp: Json, mismatch: bool)
    | DisconnectCalled
    | SetAccountCalled(items: seq<(Key, Json)>)
    | ApplyConfigCalled(items: seq<(Key, Json)>)
    | ApplySettingsCalled(items: seq<(Key, Json)>, mismatch: bool)
    | ResetSettingsCalled(deleteAllValues: bool)
    | ShutdownRequested
    | NotifyRuns
    | ShutdownRuns
    | PingsDue
    | PingsDone(stats: Json)
    | TrafficReported(received: Json, sent: Json)
    | ConnectionMoves(event: Event)

  /** The items of a call belong to one table, and do not name a member of the state. */
  predicate InTable(items: seq<(Key, Json)>, t: Table) {
    forall i :: 0 <= i < |items| ==> TableOf(items[i].0) == t
  }

  /** Calls come from connected clients; a stopped event loop runs nothing. */
  predicate CanHappen(d: Daemon, h: Happening) {
    !d.stopped &&
    match h
    case ClientOpens(c) => c !in d.clients && c !in d.sent
    case ClientCloses(c) => c in d.clients
    case GetCalled(c, _) => c in d.clients
    case ConnectCalled(_, _) => d.clients != {}
    case DisconnectCalled => d.clients != {}
    case SetAccountCalled(items) => d.clients != {} && InTable(items, ACCOUNT)
    case ApplyConfigCalled(items) => d.clients != {} && InTable(items, CONFIG)
    case ApplySettingsCalled(items, _) => d.clients != {} && InTable(items, SETTINGS)
    case ResetSettingsCalled(_) => d.clients != {}
    case NotifyRuns => d.postedNotifies > 0
    case ShutdownRuns => d.postedShutdowns > 0
    case ConnectionMoves(e) => !e.UserConnect? && !e.UserDisconnect? && !e.QueryReconnect? && Enabled(d.conn, e)
    case _ => true
  }

  function Happen(d: Daemon, h: Happening): Daemon
    requires CanHappen(d, h)
  {
    match h
    case ClientOpens(c) => OpenClient(d, c)
    case ClientCloses(c) => CloseClient(d, c)
    case GetCalled(c, tables) => Get(d, c, tables)
    case ConnectCalled(timestamp, mismatch) => RpcConnect(d, timestamp, mismatch).0
    case DisconnectCalled => RpcDisconnect(d)
    case SetAccountCalled(items) => SetAccount(d, items)
    case ApplyConfigCalled(items) => ApplyConfig(d, items)
    case ApplySettingsCalled(items, mismatch) => ApplySettings(d, items, mismatch)
    case ResetSettingsCalled(all) => ResetSettings(d, all)
    case ShutdownRequested => RequestShutdown(d)
    case NotifyRuns => NotifyChanges(d.(postedNotifies := d.postedNotifies - 1))
    case ShutdownRuns => DoShutdown(d.(postedShutdowns := d.postedShutdowns - 1))
    case PingsDue => PingServers(d)
    case PingsDone(stats) =>
      OnStateChanged(d.(pingStats := Put(stats, "updating", Bool(false))), {StateKey(PING_STATS)})
    case TrafficReported(received, sent) =>
      OnStateChanged(d.(bytes := (received, sent)), {StateKey(BYTES_RECEIVED), StateKey(BYTES_SENT)})
    case ConnectionMoves(e) => WithConn(d, Step(d.conn, e))
  }

  predicate CanRun(d: Daemon, hs: seq<Happening>)
    decreases |hs|
  {
    hs == [] || (CanHappen(d, hs[0]) && CanRun(Happen(d, hs[0]), hs[1..]))
  }

  function RunAll(d: Daemon, hs: seq<Happening>): Daemon
    requires CanRun(d, hs)
    decreases |hs|
  {
    if hs == [] then d else RunAll(Happen(d, hs[0]), hs[1..])
  }
}
