/**
 What daemon/daemon.cpp and the firewall decision of daemon/posix/posix_daemon.cpp
 promise, stated on the data themselves: when the killswitch is on, what the last
 client's leaving and each call does to the connection and the stored data, and
 what the clients are told.
 */
module DaemonPromises {
  import opened Common
  import opened Json
  import opened ConnectionProtocol
  import CP = ConnectionPromises
  import CR = ConnectionRuns
  import opened DaemonProtocol
  import R = DaemonRuns

  // ---------- The killswitch ----------

  /** A client is connected, and the user wants the firewall always, or while connecting and means to be connected. */
  predicate FirewallCalledFor(clients: set<nat>, store: map<Key, Json>, shouldConnect: bool) {
    && clients != {} && SettingsKey("firewall") in store
    && (store[SettingsKey("firewall")] == String("on")
        || (store[SettingsKey("firewall")] == String("auto") && shouldConnect))
  }

  /** The firewall is on, and exempts the LAN and blocks foreign DNS, exactly as the stored settings say. */
  predicate FirewallFits(d: Daemon) {
    var on := FirewallCalledFor(d.clients, d.store, d.shouldConnect);
    && (d.firewall.enabled <==> on) && (d.firewall.killswitch <==> on)
    && (d.firewall.exemptLAN <==>
         on && SettingsKey("allowLAN") in d.store && d.store[SettingsKey("allowLAN")] == Bool(true))
    && (d.firewall.blockDNS <==>
         on && SettingsKey("overrideDNS") in d.store && d.store[SettingsKey("overrideDNS")] == Bool(true))
  }

  /** Over every run: the firewall fits the stored settings, the clients and the intention, unless a change of one
      of them is in a notification that has not run yet. */
  lemma KillswitchFitsSettings(store: map<Key, Json>, hs: seq<Happening>)
    requires CanRun(Started(store), hs)
    ensures var d := RunAll(Started(store), hs);
      FirewallFits(d) || (d.scheduled && d.postedNotifies > 0 &&
        (StateKey(STATE) in d.pending || StateKey(CONNECT) in d.pending || SettingsKey("firewall") in d.pending
         || SettingsKey("allowLAN") in d.pending || SettingsKey("overrideDNS") in d.pending))
  {
    R.KillswitchFollows(store, hs);
    R.NotificationNeverLost(store, hs);
    var d := RunAll(Started(store), hs);
    hide RunAll, CanRun;
    if d.firewall == Wanted(d) { WantedFits(d); }
  }

  lemma WantedFits(d: Daemon)
    requires d.firewall == Wanted(d)
    ensures FirewallFits(d)
  {
  }

  // ---------- What the building blocks leave alone ----------

  predicate Same(d: Daemon, e: Daemon) {
    e.state == d.state && e.conn == d.conn && e.store == d.store && e.clients == d.clients && e.stopped == d.stopped
  }

  predicate Calm(d: Daemon, e: Daemon) {
    Same(d, e) && e.shouldConnect == d.shouldConnect && e.needsReconnect == d.needsReconnect
  }

  lemma FlagsCalm(d: Daemon, flags: set<Key>)
    ensures Calm(d, OnStateChanged(d, flags)) && flags <= OnStateChanged(d, flags).pending
    ensures d.pending <= OnStateChanged(d, flags).pending && OnStateChanged(d, flags).pingStats == d.pingStats
  {
  }

  lemma SetIntentionSame(d: Daemon, intend: bool)
    ensures var e := SetIntention(d, intend);
      Same(d, e) && e.shouldConnect == intend && e.needsReconnect == d.needsReconnect && e.pingStats == d.pingStats
  {
    hide OnStateChanged;
    FlagsCalm(d.(shouldConnect := intend), {StateKey(CONNECT)});
  }

  lemma SetNeedsReconnectSame(d: Daemon, needs: bool)
    ensures var e := SetNeedsReconnect(d, needs);
      Same(d, e) && e.needsReconnect == needs && e.shouldConnect == d.shouldConnect
  {
    hide OnStateChanged;
    FlagsCalm(d.(needsReconnect := needs), {StateKey(NEEDSRECONNECT)});
  }

  lemma PingServersCalm(d: Daemon)
    ensures var e := PingServers(d); Calm(d, e) && e.firewall == d.firewall
    ensures PingServers(d).pending <= d.pending + {StateKey(PING_STATS)}
  {
    hide Put;
  }

  lemma SendAllCalm(d: Daemon, m: Message)
    ensures var e := SendAll(d, m); Calm(d, e) && e.pending == d.pending && e.firewall == d.firewall
  {
  }

  lemma NotifyCalm(d: Daemon)
    ensures Calm(d, NotifyChanges(d))
  {
    if d.scheduled {
      var clear := d.(scheduled := false, pending := {});
      var told := SendAll(clear, Delta(d, d.pending));
      SendAllCalm(clear, Delta(d, d.pending));
      PingServersCalm(told);
      hide SendAll, Delta, PingServers, Wanted, FirewallRelevant;
    }
  }

  lemma HearOneSame(d: Daemon, n: Notice)
    ensures Same(d, HearOne(d, n)) && (HearOne(d, n).shouldConnect ==> d.shouldConnect)
  {
    hide SetIntention, SetNeedsReconnect, OnStateChanged, SendAll;
    match n
    case StateChanged(s) =>
      FlagsCalm(d, {StateKey(STATE)});
      SetIntentionSame(OnStateChanged(d, {StateKey(STATE)}), false);
    case Attempt(_) => SetNeedsReconnectSame(d, false);
    case Error(code, critical) => SendAllCalm(d, ErrorPost(code, critical));
  }

  lemma {:induction false} HearSame(d: Daemon, ns: seq<Notice>)
    ensures Same(d, Hear(d, ns)) && (Hear(d, ns).shouldConnect ==> d.shouldConnect)
    decreases |ns|
  {
    if ns != [] {
      HearOneSame(d, ns[0]);
      hide HearOne;
      HearSame(HearOne(d, ns[0]), ns[1..]);
    }
  }

  lemma WithConnSame(d: Daemon, c: Conn)
    ensures var e := WithConn(d, c); Same(d.(conn := c), e) && (e.shouldConnect ==> d.shouldConnect)
  {
    HearSame(d.(conn := c), News(d.conn, c));
  }

  // ---------- The connection, when it is not wanted any more ----------

  /** The connection was told to disconnect: nothing is tried any more, and a process that has not said that it
      is exiting was told to shut down. */
  predicate ToldToDisconnect(c: Conn, d: Conn) {
    && (d.state == DISCONNECTED || d.state == DISCONNECTING)
    && (d.state == DISCONNECTED <==> c.state == DISCONNECTED || c.openvpn == OPENVPN_EXITED)
    && d.process == c.process && d.launches == c.launches && d.posted == c.posted
    && d.signals == (if c.state != DISCONNECTED && c.process.Some?
                        && c.openvpn != OPENVPN_EXITING && c.openvpn != OPENVPN_EXITED
                     then c.signals + 1 else c.signals)
  }

  lemma DisconnectTells(c: Conn)
    ensures ToldToDisconnect(c, Disconnect(c))
  {
    CP.DisconnectCallOutcome(c);
  }

  lemma IntentionEnds(d: Daemon)
    ensures Same(d, SetIntention(d, false)) && !SetIntention(d, false).shouldConnect
    ensures var e := SetIntention(d, false);
            var f := WithConn(e, Disconnect(e.conn));
            && f.state == d.state && f.store == d.store && f.clients == d.clients && f.stopped == d.stopped
            && !f.shouldConnect && ToldToDisconnect(d.conn, f.conn)
  {
    var e := SetIntention(d, false);
    SetIntentionSame(d, false);
    DisconnectTells(d.conn);
    WithConnSame(e, Disconnect(e.conn));
    hide SetIntention, WithConn, Disconnect, ToldToDisconnect;
  }

  /** When the last client leaves a serving daemon, the intention is withdrawn and the connection told to end. */
  lemma LastClientEnds(d: Daemon, c: nat)
    requires d.clients == {c}
    ensures var e := CloseClient(d, c);
      && e.clients == {} && !e.shouldConnect && e.store == d.store && e.state == d.state && e.stopped == d.stopped
      && (d.state == INITIALIZED ==> ToldToDisconnect(d.conn, e.conn))
      && (d.state != INITIALIZED ==> e.conn == d.conn)
      && (d.state == EXITING ==> e.postedShutdowns > 0)
  {
    var x := d.(clients := d.clients - {c});
    assert x.clients == {};
    IntentionEnds(x);
    hide SetIntention, WithConn, Disconnect, Wanted, ToldToDisconnect, Mode;
  }

  /** Any other client's leaving changes nothing else. */
  lemma OtherClientLeaves(d: Daemon, c: nat)
    requires c in d.clients && d.clients != {c}
    ensures CloseClient(d, c) == d.(clients := d.clients - {c})
  {
    assert d.clients == (d.clients - {c}) + {c};
  }

  /** A disconnect call withdraws the intention and tells the connection; it is ignored outside service. */
  lemma DisconnectCallEnds(d: Daemon)
    ensures var e := RpcDisconnect(d);
      && e.store == d.store && e.clients == d.clients && e.stopped == d.stopped && e.state == d.state
      && (d.state == INITIALIZED ==> !e.shouldConnect && ToldToDisconnect(d.conn, e.conn))
      && (d.state != INITIALIZED ==> e == d)
  {
    if d.state == INITIALIZED {
      var i := SetIntention(d, false);
      IntentionEnds(d);
      NotifyCalm(WithConn(i, Disconnect(i.conn)));
      hide SetIntention, WithConn, Disconnect, NotifyChanges, ToldToDisconnect;
    }
  }

  /** The stages of a shutdown: first the connection, then the clients, then the event loop. */
  lemma ShutdownStages(d: Daemon)
    requires !d.stopped
    ensures var e := DoShutdown(d);
      && e.store == d.store && e.clients == d.clients && e.state == d.state && !e.shouldConnect
      && (d.conn.state != DISCONNECTED ==> ToldToDisconnect(d.conn, e.conn) && !e.stopped)
      && (d.conn.state == DISCONNECTED ==> e.conn == d.conn && (e.stopped <==> d.clients == {}))
  {
    var i := SetIntention(d, false);
    IntentionEnds(d);
    NotifyCalm(i);
    hide SetIntention, WithConn, Disconnect, NotifyChanges, ToldToDisconnect;
  }

  /** A shutdown request ends the service and posts its first stage, and nothing else. */
  lemma ShutdownRequested(d: Daemon)
    ensures var e := RequestShutdown(d);
      && e.state == (if d.state == EXITED then EXITED else EXITING) && e.postedShutdowns == d.postedShutdowns + 1
      && e.conn == d.conn && e.store == d.store && e.clients == d.clients && e.shouldConnect == d.shouldConnect
      && (d.state == INITIALIZED ==> StateKey(STATE) in e.pending)
  {
  }

  // ---------- The connection, when it is wanted ----------

  /** A connect call is answered with false exactly when the daemon does not serve, or an attempt or a connection
      with the current settings is under way; otherwise a process that runs is told to make room. */
  lemma ConnectCallOutcome(d: Daemon, timestamp: Json, mismatch: bool)
    ensures var (e, accepted) := RpcConnect(d, timestamp, mismatch);
      && (d.state != INITIALIZED ==> e == d && !accepted)
      && (d.state == INITIALIZED ==>
           && (!accepted <==>
                (d.conn.state == CONNECTING || d.conn.state == STILL_CONNECTING || d.conn.state == CONNECTED
                 || d.conn.state == RECONNECTING || d.conn.state == STILL_RECONNECTING)
                && !d.needsReconnect && !(d.conn.process.Some? && (d.conn.needsReconnect || mismatch)))
           && (accepted && d.conn.process.Some? && d.conn.state != DISCONNECTED ==>
                 e.conn.signals == d.conn.signals + (if d.conn.state == DISCONNECTING_TO_RECONNECT then 0 else 1))
           && e.conn.state != DISCONNECTED && e.conn.state != DISCONNECTING
           && e.conn.process == d.conn.process && !e.needsReconnect && e.clients == d.clients)
  {
    if d.state == INITIALIZED {
      var a := NoteLocation(d, timestamp);
      NoteFrame(d, timestamp);
      SetIntentionSame(a, true);
      var i := SetIntention(a, true);
      CP.ConnectRefusedExactly(d.conn, d.needsReconnect, mismatch);
      CP.ConnectCallOutcome(d.conn, d.needsReconnect, mismatch);
      var c := Connect(d.conn, d.needsReconnect, mismatch).0;
      WithConnSame(i, c);
      SetNeedsReconnectSame(WithConn(i, c), false);
      NotifyCalm(SetNeedsReconnect(WithConn(i, c), false));
      hide NoteLocation, SetIntention, WithConn, SetNeedsReconnect, NotifyChanges, Connect;
    }
  }

  lemma NoteFrame(d: Daemon, timestamp: Json)
    ensures var e := NoteLocation(d, timestamp);
      && e.state == d.state && e.conn == d.conn && e.clients == d.clients && e.stopped == d.stopped
      && e.shouldConnect == d.shouldConnect && e.needsReconnect == d.needsReconnect
      && (forall k :: k != SettingsKey("lastConnected") && k != SettingsKey("recent") ==>
            (k in e.store <==> k in d.store) && (k in d.store ==> e.store[k] == d.store[k]))
  {
    hide Put, PushRecent;
  }

  // ---------- When the daemon stops ----------

  lemma NotifyTellsAll(d: Daemon)
    requires d.pending != {} ==> d.scheduled
    ensures NotifyChanges(d).pending <= {StateKey(PING_STATS)}
  {
    if d.scheduled {
      var clear := d.(scheduled := false, pending := {});
      var told := SendAll(clear, Delta(d, d.pending));
      SendAllCalm(clear, Delta(d, d.pending));
      PingServersCalm(told);
      hide SendAll, Delta, PingServers, Wanted, FirewallRelevant;
    }
  }

  /** The stage that stops the event loop has disengaged the firewall. */
  lemma StoppingDisengages(d: Daemon)
    requires R.Inv(d) && d.postedShutdowns > 0 && !d.stopped
    ensures var e := DoShutdown(d.(postedShutdowns := d.postedShutdowns - 1));
      e.stopped ==> e.firewall == Firewall(false, false, false, false)
  {
    var p := d.(postedShutdowns := d.postedShutdowns - 1);
    var i := SetIntention(p, false);
    R.PostedKeepsInv(d, p);
    R.SetIntentionSilent(p, false);
    R.SilentKeepsTold(p, i);
    SetIntentionSame(p, false);
    WithConnSame(i, Disconnect(i.conn));
    var f := NotifyChanges(i);
    R.NotifyKeepsTold(i);
    NotifyTellsAll(i);
    NotifyCalm(i);
    hide SetIntention, WithConn, Disconnect, NotifyChanges, R.Silent, R.Mirrored, CR.Inv, Mode;
  }
  // ---------- What is stored ----------

  lemma {:induction false} SetChangedFrame(d: Daemon, items: seq<(Key, Json)>)
    ensures var e := SetChanged(d, items);
      && e.state == d.state && e.conn == d.conn && e.clients == d.clients && e.stopped == d.stopped
      && e.shouldConnect == d.shouldConnect && e.needsReconnect == d.needsReconnect
    decreases |items|
  {
    if items != [] {
      var (k, v) := items[0];
      hide Accepts;
      SetChangedFrame(if k in d.store && d.store[k] == v then d else Set(d, k, v), items[1..]);
    }
  }

  lemma {:induction false} SetAllFrame(d: Daemon, items: seq<(Key, Json)>)
    ensures var e := SetAll(d, items);
      && e.state == d.state && e.conn == d.conn && e.clients == d.clients && e.stopped == d.stopped
      && e.shouldConnect == d.shouldConnect && e.needsReconnect == d.needsReconnect
    decreases |items|
  {
    if items != [] {
      hide Accepts;
      SetAllFrame(Set(d, items[0].0, items[0].1), items[1..]);
    }
  }

  predicate DistinctKeys(items: seq<(Key, Json)>) {
    forall i, j :: 0 <= i < j < |items| ==> items[i].0 != items[j].0
  }

  predicate Mentions(items: seq<(Key, Json)>, k: Key) {
    exists i :: 0 <= i < |items| && items[i].0 == k
  }

  /** Each item whose kind fits is stored, one that does not fit leaves its member as it was, and so are all others. */
  ghost predicate Stored(before: map<Key, Json>, items: seq<(Key, Json)>, after: map<Key, Json>) {
    && (forall i :: 0 <= i < |items| ==>
          var (k, v) := items[i];
          if Accepts(k, v) then k in after && after[k] == v
          else (k in after <==> k in before) && (k in before ==> after[k] == before[k]))
    && forall k :: !Mentions(items, k) ==> (k in after <==> k in before) && (k in before ==> after[k] == before[k])
  }

  lemma StoredStep(before: map<Key, Json>, items: seq<(Key, Json)>, middle: map<Key, Json>, after: map<Key, Json>)
    requires items != [] && DistinctKeys(items)
    requires middle == if Accepts(items[0].0, items[0].1) then before[items[0].0 := items[0].1] else before
    requires Stored(middle, items[1..], after)
    ensures Stored(before, items, after)
  {
    hide Accepts;
    var rest := items[1..];
    assert !Mentions(rest, items[0].0) by {
      assert forall i :: 0 <= i < |rest| ==> rest[i] == items[i + 1];
    }
    forall i | 0 <= i < |items|
      ensures var (k, v) := items[i];
        if Accepts(k, v) then k in after && after[k] == v
        else (k in after <==> k in before) && (k in before ==> after[k] == before[k])
    {
      if i > 0 { assert rest[i - 1] == items[i] && items[0].0 != items[i].0; }
    }
    forall k | !Mentions(items, k)
      ensures (k in after <==> k in before) && (k in before ==> after[k] == before[k])
    {
      assert items[0].0 != k;
      assert forall i :: 0 <= i < |rest| ==> rest[i] == items[i + 1];
      assert !Mentions(rest, k);
    }
  }

  lemma {:induction false} SetChangedStores(d: Daemon, items: seq<(Key, Json)>)
    requires DistinctKeys(items)
    ensures Stored(d.store, items, SetChanged(d, items).store)
    decreases |items|
  {
    if items != [] {
      var (k, v) := items[0];
      var e := if k in d.store && d.store[k] == v then d else Set(d, k, v);
      assert DistinctKeys(items[1..]);
      SetChangedStores(e, items[1..]);
      assert k in d.store && d.store[k] == v ==> d.store == d.store[k := v];
      hide Accepts, Stored;
      StoredStep(d.store, items, e.store, SetChanged(e, items[1..]).store);
    }
  }

  lemma {:induction false} SetAllStores(d: Daemon, items: seq<(Key, Json)>)
    requires DistinctKeys(items)
    ensures Stored(d.store, items, SetAll(d, items).store)
    decreases |items|
  {
    if items != [] {
      var e := Set(d, items[0].0, items[0].1);
      assert DistinctKeys(items[1..]);
      SetAllStores(e, items[1..]);
      hide Accepts, Stored;
      StoredStep(d.store, items, e.store, SetAll(e, items[1..]).store);
    }
  }

  /** Applying a configuration stores its items and touches nothing else. */
  lemma ConfigStored(d: Daemon, items: seq<(Key, Json)>)
    requires DistinctKeys(items)
    ensures var e := ApplyConfig(d, items);
      && Stored(d.store, items, e.store) && e.conn == d.conn && e.clients == d.clients
      && e.shouldConnect == d.shouldConnect && e.needsReconnect == d.needsReconnect
  {
    SetChangedStores(d, items);
    SetChangedFrame(d, items);
    NotifyCalm(SetChanged(d, items));
    hide SetChanged, NotifyChanges, Stored;
  }

  /** The item that asks for no warning; it is not a setting. */
  predicate Objects(item: (Key, Json)) { item.0 == SettingsKey("suppressReconnectWarning") && IsTruthy(item.1) }

  /** Whether the items ask for no warning. */
  predicate Unwarned(items: seq<(Key, Json)>) { exists i :: 0 <= i < |items| && Objects(items[i]) }

  lemma {:induction false} OneLeftOut(items: seq<(Key, Json)>, i: nat)
    requires DistinctKeys(items) && i < |items| && Objects(items[i])
    ensures Unsuppressed(items) == items[..i] + items[i + 1..] && DistinctKeys(Unsuppressed(items))
  {
    var rest := items[1..];
    assert forall k :: 0 <= k < |rest| ==> rest[k] == items[k + 1];
    assert DistinctKeys(rest);
    hide IsTruthy;
    if i == 0 {
      NothingUnsuppressed(rest);
    } else {
      assert !Objects(items[0]);
      OneLeftOut(rest, i - 1);
      assert items[..i] + items[i + 1..] == [items[0]] + (rest[..i - 1] + rest[i..]);
    }
  }

  lemma {:induction false} NothingUnsuppressed(items: seq<(Key, Json)>)
    requires !Unwarned(items)
    ensures Unsuppressed(items) == items
  {
    if items != [] {
      assert !Suppresses(items[0]);
      forall i | 0 <= i < |items[1..]|
        ensures !Objects(items[1..][i])
      {
        assert items[1..][i] == items[i + 1];
      }
      NothingUnsuppressed(items[1..]);
    }
  }

  lemma WarnFrame(d: Daemon, suppressed: bool, mismatch: bool)
    ensures var e := WarnReconnect(d, suppressed, mismatch);
      && e.store == d.store && e.clients == d.clients && e.shouldConnect == d.shouldConnect && e.stopped == d.stopped
      && e.conn == d.conn.(needsReconnect := e.conn.needsReconnect)
      && (e.needsReconnect <==>
            d.needsReconnect
            || (!suppressed && d.state == INITIALIZED && d.conn.process.Some? && (d.conn.needsReconnect || mismatch)))
  {
    CP.ReconnectNeededExactly(d.conn, mismatch);
    var (c, needed) := NeedsReconnect(d.conn, mismatch);
    SetNeedsReconnectSame(d.(conn := c), true);
    hide NeedsReconnect, SetNeedsReconnect;
  }

  lemma SettingsFrame(d: Daemon, items: seq<(Key, Json)>, mismatch: bool)
    ensures var e := ApplySettings(d, items, mismatch);
      && e.store == SetChanged(d, Unsuppressed(items)).store
      && e.conn == d.conn.(needsReconnect := e.conn.needsReconnect) && e.clients == d.clients
      && e.shouldConnect == d.shouldConnect
      && (e.needsReconnect <==>
            d.needsReconnect
            || (!Unwarned(items) && d.state == INITIALIZED && d.conn.process.Some?
                && (d.conn.needsReconnect || mismatch)))
  {
    var stored := SetChanged(d, Unsuppressed(items));
    var suppressed := exists i :: 0 <= i < |items| && Suppresses(items[i]);
    SuppressedExactly(items);
    SetChangedFrame(d, Unsuppressed(items));
    WarnFrame(stored, suppressed, mismatch);
    NotifyCalm(WarnReconnect(stored, suppressed, mismatch));
    hide SetChanged, NotifyChanges, WarnReconnect, Unsuppressed, Suppresses, Unwarned;
  }

  /** Applying settings stores them without the item that is none, and warns exactly if a process runs with other
      settings and nobody objected. */
  lemma SettingsStored(d: Daemon, items: seq<(Key, Json)>, mismatch: bool)
    requires DistinctKeys(items)
    ensures var e := ApplySettings(d, items, mismatch);
      && (!Unwarned(items) ==> Stored(d.store, items, e.store))
      && (forall i :: 0 <= i < |items| && Objects(items[i]) ==>
            Stored(d.store, items[..i] + items[i + 1..], e.store))
      && e.conn == d.conn.(needsReconnect := e.conn.needsReconnect) && e.clients == d.clients
      && e.shouldConnect == d.shouldConnect
      && (e.needsReconnect <==>
            d.needsReconnect
            || (!Unwarned(items) && d.state == INITIALIZED && d.conn.process.Some?
                && (d.conn.needsReconnect || mismatch)))
  {
    hide ApplySettings, SetChanged, Unsuppressed, Stored, DistinctKeys, Objects;
    SettingsFrame(d, items, mismatch);
    if !Unwarned(items) {
      NothingUnsuppressed(items);
      SetChangedStores(d, items);
    }
    forall i | 0 <= i < |items| && Objects(items[i])
      ensures Stored(d.store, items[..i] + items[i + 1..], ApplySettings(d, items, mismatch).store)
    {
      OneLeftOut(items, i);
      SetChangedStores(d, Unsuppressed(items));
    }
  }

  lemma SuppressedExactly(items: seq<(Key, Json)>)
    ensures (exists i :: 0 <= i < |items| && Suppresses(items[i])) <==> Unwarned(items)
  {
    if i :| 0 <= i < |items| && Suppresses(items[i]) {
      assert items[i].0 == SettingsKey("suppressReconnectWarning") && IsTruthy(items[i].1);
    }
    if Unwarned(items) {
      var i :| 0 <= i < |items| && items[i].0 == SettingsKey("suppressReconnectWarning") && IsTruthy(items[i].1);
      assert Suppresses(items[i]);
    }
  }

  /** Setting the account erases what is not declared, of the account alone, and then stores the items. */
  lemma AccountStored(d: Daemon, items: seq<(Key, Json)>)
    requires DistinctKeys(items)
    ensures var e, kept := SetAccount(d, items),
                           map k | k in d.store && (k.AccountKey? ==> k == AccountKey("privacy")) :: d.store[k];
      Stored(kept, items, e.store) && e.conn == d.conn && e.clients == d.clients
  {
    var erased := EraseUnknown(d, ACCOUNT);
    AccountErased(d);
    SetAllStores(erased, items);
    SetAllFrame(erased, items);
    NotifyCalm(SetAll(erased, items));
    hide SetAll, NotifyChanges, Stored, Fields, IsUnknown;
  }

  lemma AccountErased(d: Daemon)
    ensures var e := EraseUnknown(d, ACCOUNT);
      && e.store == (map k | k in d.store && (k.AccountKey? ==> k == AccountKey("privacy")) :: d.store[k])
      && e.conn == d.conn && e.clients == d.clients
  {
    assert AccountKey("privacy") in Fields();
    forall k: Key | k.AccountKey? && k != AccountKey("privacy") ensures k !in Fields() {
    }
    assert forall k: Key :: IsUnknown(k, ACCOUNT) <==> (k.AccountKey? && k != AccountKey("privacy")) by { hide Fields; }
    hide Fields, IsUnknown;
  }

  /** Resetting gives the firewall its first settings back, and never touches the location, the configuration
      or the account. */
  lemma SettingsReset(d: Daemon, all: bool)
    ensures var e := ResetSettings(d, all);
      && SettingsKey("firewall") in e.store && e.store[SettingsKey("firewall")] == String("auto")
      && SettingsKey("allowLAN") in e.store && e.store[SettingsKey("allowLAN")] == Bool(true)
      && SettingsKey("overrideDNS") in e.store && e.store[SettingsKey("overrideDNS")] == Bool(true)
      && (forall k: Key :: !k.SettingsKey? || k == SettingsKey("location") ==>
            (k in e.store <==> k in d.store) && (k in d.store ==> e.store[k] == d.store[k]))
      && (all ==> forall k: Key :: k.SettingsKey? && k in e.store ==> k in Fields())
      && (!all ==> forall k: Key :: k.SettingsKey? && k !in Fields() ==>
            (k in e.store <==> k in d.store) && (k in d.store ==> e.store[k] == d.store[k]))
      && e.conn == d.conn && e.clients == d.clients && e.shouldConnect == d.shouldConnect
  {
    ResetStores(d, all);
    ResetDefaults();
    assert SettingsKey("location") in Fields();
    hide Fields, Resettable, Defaults, ResetSettings;
    ErasedSettings(d.store, all);
    hide Kept;
  }

  /** What a reset keeps of the stored data before it writes the defaults. */
  function Kept(store: map<Key, Json>, all: bool): map<Key, Json> {
    if all then map k | k in store && !IsUnknown(k, SETTINGS) :: store[k] else store
  }

  lemma ErasedSettings(store: map<Key, Json>, all: bool)
    ensures forall k :: k in Kept(store, all) ==> k in store && Kept(store, all)[k] == store[k]
    ensures forall k :: k in store && (!all || !k.SettingsKey? || k in Fields()) ==> k in Kept(store, all)
    ensures all ==> forall k :: k in Kept(store, all) && k.SettingsKey? ==> k in Fields()
  {
    hide Fields;
  }

  lemma ResetStores(d: Daemon, all: bool)
    ensures var e := ResetSettings(d, all);
      && e.store == Kept(d.store, all) + Defaults()
      && e.conn == d.conn && e.clients == d.clients && e.shouldConnect == d.shouldConnect
  {
    hide Fields, Resettable, Defaults, IsUnknown;
    var erased := if all then EraseUnknown(d, SETTINGS) else d;
    var e := Schedule(erased.(store := erased.store + Defaults(), pending := erased.pending + Resettable()));
    NotifyCalm(e);
    hide NotifyChanges;
  }

  lemma ResetDefaults()
    ensures Defaults().Keys == Resettable()
    ensures forall k :: k in Defaults() <==> k.SettingsKey? && k in Fields() && k != SettingsKey("location")
    ensures SettingsKey("firewall") in Defaults() && Defaults()[SettingsKey("firewall")] == String("auto")
    ensures SettingsKey("allowLAN") in Defaults() && Defaults()[SettingsKey("allowLAN")] == Bool(true)
    ensures SettingsKey("overrideDNS") in Defaults() && Defaults()[SettingsKey("overrideDNS")] == Bool(true)
  {
  }
  // ---------- What RPC_connect notes ----------

  /** The value of a member of an object value. */
  function MemberOf(o: Json, key: string): Option<Json> {
    if !o.Object? then None else FindMember(o.members, key)
  }

  function FindMember(members: seq<Member>, key: string): Option<Json> {
    if members == [] then None
    else if members[0].key == key then Some(members[0].value)
    else FindMember(members[1..], key)
  }

  lemma {:induction false} PutMemberReads(members: seq<Member>, key: string, v: Json, other: string)
    ensures FindMember(PutMember(members, key, v), key) == Some(v)
    ensures other != key ==> FindMember(PutMember(members, key, v), other) == FindMember(members, other)
  {
    if members != [] {
      PutMemberReads(members[1..], key, v, other);
    }
    if members == [] || members[0].key == key {
      var rest := if members == [] then [] else members[1..];
      assert ([Member(key, v)] + rest)[1..] == rest;
    } else {
      var rest := PutMember(members[1..], key, v);
      assert ([members[0]] + rest)[1..] == rest;
    }
  }

  /** A member is set, and the others keep their values. */
  lemma PutReads(o: Json, key: string, v: Json, other: string)
    ensures MemberOf(Put(o, key, v), key) == Some(v)
    ensures o.Object? && other != key ==> MemberOf(Put(o, key, v), other) == MemberOf(o, other)
  {
    if o.Object? { PutMemberReads(o.members, key, v, other); }
  }

  lemma {:induction false} WithoutNone(a: seq<Json>, v: Json)
    requires v !in a
    ensures Without(a, v) == a
  {
    if a != [] {
      WithoutNone(a[1..], v);
      assert a == [a[0]] + a[1..];
    }
  }

  lemma {:induction false} WithoutSplit(a: seq<Json>, b: seq<Json>, v: Json)
    requires v !in a && v !in b
    ensures Without(a, v) == a && Without(a + [v] + b, v) == a + b
  {
    WithoutNone(a, v);
    if a == [] {
      WithoutNone(b, v);
      assert ([] + [v] + b)[1..] == b;
    } else {
      WithoutSplit(a[1..], b, v);
      assert (a + [v] + b)[1..] == a[1..] + [v] + b;
      assert a == [a[0]] + a[1..];
    }
  }

  function UpToThree(items: seq<Json>): seq<Json> {
    if |items| > 3 then items[..3] else items
  }

  /** The location comes first and keeps its one place, the others their order, and three are kept. */
  lemma RecentLocations(a: seq<Json>, b: seq<Json>, location: Json)
    requires location !in a && location !in b
    ensures PushRecent(Array(a), location) == Array(UpToThree([location] + a))
    ensures PushRecent(Array(a + [location] + b), location) == Array(UpToThree([location] + a + b))
  {
    WithoutSplit(a, b, location);
    assert [location] + (a + b) == [location] + a + b;
  }

  /** Both notes are stored under their own names, and nothing else is. */
  lemma LocationNoted(d: Daemon, timestamp: Json)
    requires SettingsKey("location") in d.store && d.store[SettingsKey("location")].String?
    requires SettingsKey("lastConnected") in d.store && SettingsKey("recent") in d.store
    ensures var e, location := NoteLocation(d, timestamp), d.store[SettingsKey("location")];
      var noted := Put(d.store[SettingsKey("lastConnected")], location.s, timestamp);
      && e.store == d.store[SettingsKey("lastConnected") := noted]
                           [SettingsKey("recent") := PushRecent(d.store[SettingsKey("recent")], location)]
      && SettingsKey("lastConnected") in e.pending && SettingsKey("recent") in e.pending
  {
    hide Put, PushRecent;
  }

  // ---------- What clients are told ----------

  /** An error is told to exactly the connected clients, as it was reported. */
  lemma ErrorTold(d: Daemon, code: ErrorCode, critical: bool)
    requires d.clients <= d.sent.Keys
    ensures var e := HearOne(d, Error(code, critical));
      && e == d.(sent := e.sent) && e.sent.Keys == d.sent.Keys
      && forall c :: c in d.sent ==>
           e.sent[c] == d.sent[c] + (if c in d.clients then [ErrorPost(code, critical)] else [])
  {
    hide SetIntention, SetNeedsReconnect;
  }

  /** A new attempt withdraws the warning that a reconnect is needed. */
  lemma AttemptWithdrawsWarning(d: Daemon, number: nat)
    ensures var e := HearOne(d, Attempt(number));
      && !e.needsReconnect && e.conn == d.conn && e.store == d.store && e.sent == d.sent
      && (d.needsReconnect ==> StateKey(NEEDSRECONNECT) in e.pending)
  {
  }

  /** A change of the connection is passed on while the daemon serves, and its end withdraws the intention; while
      it exits, the end posts the next stage. */
  lemma StateChangeHeard(d: Daemon, s: State)
    ensures var e := HearOne(d, StateChanged(s));
      && (d.state == INITIALIZED ==>
            StateKey(STATE) in e.pending && e.shouldConnect == (d.shouldConnect && s != DISCONNECTED))
      && (d.state == INITIALIZED && d.shouldConnect && s == DISCONNECTED ==> StateKey(CONNECT) in e.pending)
      && (d.state == EXITING && s == DISCONNECTED ==> e == d.(postedShutdowns := d.postedShutdowns + 1))
      && (d.state != INITIALIZED && !(d.state == EXITING && s == DISCONNECTED) ==> e == d)
  {
  }

  /** A new client is greeted with the version and every member the daemon holds. */
  lemma Greeting(d: Daemon, c: nat)
    ensures var e := OpenClient(d, c);
      && c in e.clients && e.clients == d.clients + {c} && c in e.sent && |e.sent[c]| == 1
      && e.sent[c][0].Data? && e.sent[c][0].version == Some("0.9.0-preview")
      && e.sent[c][0].tables == {CONFIG, ACCOUNT, SETTINGS, STATE_TABLE}
      && forall k :: k in e.sent[c][0].values <==> Lookup(e, k).Some?
    ensures var e := OpenClient(d, c);
      forall k :: k in e.sent[c][0].values ==> Lookup(e, k) == Some(e.sent[c][0].values[k])
  {
    var w := Welcome(d, c);
    PingServersCalm(if Mode(Admit(d, c)) == "on" then ApplyFirewall(Admit(d, c)) else Admit(d, c));
    hide PingServers, Wanted, Mode;
    R.HeldIsAll(w);
    var e := OpenClient(d, c);
    R.LookupIgnoresTelling(w, e);
    hide Lookup, Welcome, Held;
  }

  /** The tables are the four objects that members belong to. */
  predicate Asked(k: Key, tables: set<Table>) {
    match k
    case ConfigKey(_) => CONFIG in tables
    case AccountKey(_) => ACCOUNT in tables
    case SettingsKey(_) => SETTINGS in tables
    case StateKey(_) => STATE_TABLE in tables
  }

  /** An answer holds exactly the asked tables, with every member the daemon holds of them, for the asker alone. */
  lemma AnswerOutcome(d: Daemon, c: nat, tables: set<Table>)
    requires c in d.sent
    ensures var e := Get(d, c, tables);
      && e == d.(sent := e.sent) && e.sent.Keys == d.sent.Keys
      && (forall b :: b in d.sent && b != c ==> e.sent[b] == d.sent[b])
      && |e.sent[c]| == |d.sent[c]| + 1 && e.sent[c][..|d.sent[c]|] == d.sent[c]
      && e.sent[c][|d.sent[c]|].Data? && e.sent[c][|d.sent[c]|].tables == tables
    ensures var e := Get(d, c, tables);
      var values := e.sent[c][|d.sent[c]|].values;
      && (forall k: Key :: k in values <==> Asked(k, tables) && Lookup(d, k).Some?)
      && forall k :: k in values ==> Lookup(d, k) == Some(values[k])
  {
    R.HeldIsAll(d);
    hide Lookup, Held;
  }

  /** What the clients are told of the daemon's state. */
  lemma StateMembers(d: Daemon)
    ensures Lookup(d, StateKey(CONNECT)) == Some(Bool(d.shouldConnect))
    ensures Lookup(d, StateKey(NEEDSRECONNECT)) == Some(Bool(d.needsReconnect))
    ensures Lookup(d, StateKey(PING_STATS)) == Some(d.pingStats)
    ensures d.state == INITIALIZED && d.conn.state == CONNECTED ==>
      Lookup(d, StateKey(BYTES_RECEIVED)) == Some(d.bytes.0) && Lookup(d, StateKey(BYTES_SENT)) == Some(d.bytes.1)
    ensures !(d.state == INITIALIZED && d.conn.state == CONNECTED) ==>
      Lookup(d, StateKey(BYTES_RECEIVED)) == Some(Null) && Lookup(d, StateKey(BYTES_SENT)) == Some(Null)
  {
  }

  /** While the daemon serves, the state it tells names exactly one state of the connection. */
  lemma StateNamesDiffer(d: Daemon, e: Daemon)
    requires d.state == INITIALIZED && e.state == INITIALIZED
    ensures Lookup(d, StateKey(STATE)) == Lookup(e, StateKey(STATE)) <==> d.conn.state == e.conn.state
    ensures d.conn.state == CONNECTED <==> Lookup(d, StateKey(STATE)) == Some(String("CONNECTED"))
    ensures d.conn.state == DISCONNECTED <==> Lookup(d, StateKey(STATE)) == Some(String("DISCONNECTED"))
  {
    var a, b := ConnectionStateName(d.conn.state), ConnectionStateName(e.conn.state);
    NameLengths(d.conn.state);
    NameLengths(e.conn.state);
    hide ConnectionStateName;
  }

  lemma NameLengths(s: State)
    ensures ConnectionStateName(s) == (match s
      case DISCONNECTED => "DISCONNECTED" case CONNECTING => "CONNECTING" case STILL_CONNECTING => "STILL_CONNECTING"
      case CONNECTED => "CONNECTED" case INTERRUPTED => "INTERRUPTED" case RECONNECTING => "RECONNECTING"
      case STILL_RECONNECTING => "STILL_RECONNECTING" case DISCONNECTING => "DISCONNECTING"
      case DISCONNECTING_TO_RECONNECT => "DISCONNECTING_TO_RECONNECT")
  {
  }

  /** Pings start when the first client comes to an idle daemon, and with the news of other locations or of the
      end of a connection. */
  lemma PingsStart(d: Daemon, c: nat)
    requires d.state == INITIALIZED && d.conn.state == DISCONNECTED
    ensures d.clients == {} ==> MemberOf(OpenClient(d, c).pingStats, "updating") == Some(Bool(true))
    ensures d.scheduled && (ConfigKey("locations") in d.pending || StateKey(STATE) in d.pending) ==>
      MemberOf(NotifyChanges(d).pingStats, "updating") == Some(Bool(true))
      && StateKey(PING_STATS) in NotifyChanges(d).pending
  {
    PutReads(d.pingStats, "updating", Bool(true), "");
    var told := SendAll(d.(scheduled := false, pending := {}), Delta(d, d.pending));
    assert told.pingStats == d.pingStats && Idle(told);
    FlagsCalm(told.(pingStats := Put(d.pingStats, "updating", Bool(true))), {StateKey(PING_STATS)});
    var w := if Mode(Admit(d, c)) == "on" then ApplyFirewall(Admit(d, c)) else Admit(d, c);
    FlagsCalm(w.(pingStats := Put(d.pingStats, "updating", Bool(true))), {StateKey(PING_STATS)});
    hide Put, SendAll, Delta, OnStateChanged, Wanted, Mode, FirewallRelevant, MemberOf, Restrict;
  }
  // ---------- Over every run ----------

  /** The settings that the firewall depends on are there, and of their declared kinds. */
  predicate FirewallTyped(store: map<Key, Json>) {
    && SettingsKey("firewall") in store && store[SettingsKey("firewall")].String?
    && SettingsKey("allowLAN") in store && store[SettingsKey("allowLAN")].Bool?
    && SettingsKey("overrideDNS") in store && store[SettingsKey("overrideDNS")].Bool?
  }

  /** What a handler may do to the stored data and the event loop. */
  predicate Orderly(d: Daemon, e: Daemon) {
    (FirewallTyped(d.store) ==> FirewallTyped(e.store)) && (e.stopped ==> d.stopped)
  }

  lemma SetOrderly(d: Daemon, k: Key, v: Json)
    ensures Orderly(d, Set(d, k, v))
  {
    DeclaredKinds(k, v);
    hide Accepts;
  }

  lemma DeclaredKinds(k: Key, v: Json)
    ensures Accepts(k, v) ==>
      && (k == SettingsKey("firewall") ==> v.String?)
      && (k == SettingsKey("allowLAN") || k == SettingsKey("overrideDNS") ==> v.Bool?)
    ensures SettingsKey("firewall") in Fields() && SettingsKey("allowLAN") in Fields()
    ensures SettingsKey("overrideDNS") in Fields()
  {
  }

  lemma {:induction false} SetChangedOrderly(d: Daemon, items: seq<(Key, Json)>)
    ensures Orderly(d, SetChanged(d, items))
    decreases |items|
  {
    if items != [] {
      var (k, v) := items[0];
      SetOrderly(d, k, v);
      hide Set, FirewallTyped;
      SetChangedOrderly(if k in d.store && d.store[k] == v then d else Set(d, k, v), items[1..]);
    }
  }

  lemma {:induction false} SetAllOrderly(d: Daemon, items: seq<(Key, Json)>)
    ensures Orderly(d, SetAll(d, items))
    decreases |items|
  {
    if items != [] {
      SetOrderly(d, items[0].0, items[0].1);
      hide Set, FirewallTyped;
      SetAllOrderly(Set(d, items[0].0, items[0].1), items[1..]);
    }
  }

  lemma EraseOrderly(d: Daemon, t: Table)
    ensures Orderly(d, EraseUnknown(d, t))
  {
    DeclaredKinds(SettingsKey("firewall"), Null);
    hide Fields;
  }

  lemma DataCallOrderly(d: Daemon, items: seq<(Key, Json)>, mismatch: bool)
    ensures Orderly(d, SetAccount(d, items)) && Orderly(d, ApplyConfig(d, items))
    ensures Orderly(d, ApplySettings(d, items, mismatch))
  {
    var erased := EraseUnknown(d, ACCOUNT);
    EraseOrderly(d, ACCOUNT);
    SetAllOrderly(erased, items);
    NotifyCalm(SetAll(erased, items));
    SetChangedOrderly(d, items);
    NotifyCalm(SetChanged(d, items));
    var stored := SetChanged(d, Unsuppressed(items));
    var suppressed := exists i :: 0 <= i < |items| && Suppresses(items[i]);
    SetChangedOrderly(d, Unsuppressed(items));
    WarnFrame(stored, suppressed, mismatch);
    NotifyCalm(WarnReconnect(stored, suppressed, mismatch));
    hide SetAll, SetChanged, EraseUnknown, NotifyChanges, WarnReconnect, FirewallTyped, Unsuppressed, Suppresses;
  }

  lemma ResetOrderly(d: Daemon, all: bool)
    ensures Orderly(d, ResetSettings(d, all))
  {
    SettingsReset(d, all);
    assert !ResetSettings(d, all).stopped || d.stopped by {
      hide Fields, Resettable, Defaults;
      var erased := if all then EraseUnknown(d, SETTINGS) else d;
      NotifyCalm(Schedule(erased.(store := erased.store + Defaults(), pending := erased.pending + Resettable())));
      hide NotifyChanges;
    }
    hide ResetSettings, Fields;
  }

  lemma OpenOrderly(d: Daemon, c: nat)
    ensures Orderly(d, OpenClient(d, c))
  {
    var a := Admit(d, c);
    PingServersCalm(if Mode(a) == "on" then ApplyFirewall(a) else a);
    hide PingServers, Wanted, Mode, Snapshot, FirewallTyped;
  }

  lemma CloseOrderly(d: Daemon, c: nat)
    requires c in d.clients
    ensures Orderly(d, CloseClient(d, c))
  {
    if d.clients == {c} { LastClientEnds(d, c); } else { OtherClientLeaves(d, c); }
    hide CloseClient, FirewallTyped;
  }

  lemma GetOrderly(d: Daemon, c: nat, tables: set<Table>)
    ensures Orderly(d, Get(d, c, tables))
  {
    hide Restrict, Held, FirewallTyped;
  }

  lemma ConnectOrderly(d: Daemon, timestamp: Json, mismatch: bool)
    ensures Orderly(d, RpcConnect(d, timestamp, mismatch).0)
  {
    if d.state == INITIALIZED {
      var a := NoteLocation(d, timestamp);
      NoteFrame(d, timestamp);
      SetIntentionSame(a, true);
      var i := SetIntention(a, true);
      var c := Connect(i.conn, i.needsReconnect, mismatch).0;
      WithConnSame(i, c);
      SetNeedsReconnectSame(WithConn(i, c), false);
      NotifyCalm(SetNeedsReconnect(WithConn(i, c), false));
      hide NoteLocation, SetIntention, WithConn, SetNeedsReconnect, NotifyChanges, Connect;
    }
  }

  lemma HappenOrderly(d: Daemon, h: Happening)
    requires R.Inv(d) && CanHappen(d, h)
    ensures FirewallTyped(d.store) ==> FirewallTyped(Happen(d, h).store)
    ensures Happen(d, h).stopped ==> h.ShutdownRuns? && Happen(d, h).firewall == Firewall(false, false, false, false)
  {
    hide R.Inv, OpenClient, CloseClient, Get, RpcConnect, RpcDisconnect, SetAccount, ApplyConfig, ApplySettings,
      ResetSettings, NotifyChanges, DoShutdown, PingServers, OnStateChanged, WithConn, Step, Enabled, Put,
      FirewallTyped;
    match h
    case ClientOpens(c) => OpenOrderly(d, c);
    case ClientCloses(c) => CloseOrderly(d, c);
    case GetCalled(c, tables) => GetOrderly(d, c, tables);
    case ConnectCalled(timestamp, mismatch) => ConnectOrderly(d, timestamp, mismatch);
    case DisconnectCalled => DisconnectCallEnds(d);
    case SetAccountCalled(items) => DataCallOrderly(d, items, false);
    case ApplyConfigCalled(items) => DataCallOrderly(d, items, false);
    case ApplySettingsCalled(items, mismatch) => DataCallOrderly(d, items, mismatch);
    case ResetSettingsCalled(all) => ResetOrderly(d, all);
    case ShutdownRequested => FlagsCalm(d.(state := EXITING), {StateKey(STATE)});
    case NotifyRuns => NotifyCalm(d.(postedNotifies := d.postedNotifies - 1));
    case ShutdownRuns =>
      ShutdownStages(d.(postedShutdowns := d.postedShutdowns - 1));
      StoppingDisengages(d);
    case PingsDue => PingServersCalm(d);
    case PingsDone(stats) =>
      FlagsCalm(d.(pingStats := Put(stats, "updating", Bool(false))), {StateKey(PING_STATS)});
    case TrafficReported(received, sent) =>
      FlagsCalm(d.(bytes := (received, sent)), {StateKey(BYTES_RECEIVED), StateKey(BYTES_SENT)});
    case ConnectionMoves(e) => WithConnSame(d, Step(d.conn, e));
  }

  lemma {:induction false} RunOrderly(d: Daemon, hs: seq<Happening>)
    requires R.Inv(d) && CanRun(d, hs)
    ensures FirewallTyped(d.store) ==> FirewallTyped(RunAll(d, hs).store)
    ensures !d.stopped && RunAll(d, hs).stopped ==> RunAll(d, hs).firewall == Firewall(false, false, false, false)
    decreases |hs|
  {
    if hs != [] {
      R.HappenKeepsInv(d, hs[0]);
      HappenOrderly(d, hs[0]);
      var e := Happen(d, hs[0]);
      assert e.stopped ==> hs[1..] == [];
      hide R.Inv, Happen, CanHappen, FirewallTyped;
      RunOrderly(e, hs[1..]);
    }
  }

  /** Over every run: when the event loop has stopped, the firewall is disengaged; and the settings it depends on
      never vanish and never change their kind. */
  lemma StoppedIsDisengaged(store: map<Key, Json>, hs: seq<Happening>)
    requires CanRun(Started(store), hs)
    ensures var d := RunAll(Started(store), hs);
      && (d.stopped ==> d.firewall == Firewall(false, false, false, false))
      && (FirewallTyped(store) ==> FirewallTyped(d.store))
  {
    R.StartedInv(store);
    RunOrderly(Started(store), hs);
  }
}
