/** The Connection class of daemon/connection.cpp, proved against ConnectionProtocol. */
module Connection {
  import opened Common
  import P = ConnectionProtocol
  import CR = ConnectionRuns
  import opened ConnectionProtocol

  class Connection {
    var state: State
    var openvpnState: OpenVPNState
    var connectionAttempts: nat
    var needsReconnect: bool

    // The owned process: its number, and how often its Shutdown was called
    var process: Option<nat>
    var processSignals: nat

    // What the event loop holds for this object
    var postedConnects: nat
    var slowConnectionWaits: nat
    var connectionInterval: Option<int>
    var lastLaunch: int

    // The calls made on the listener, oldest first
    var notices: seq<Notice>

    // Processes launched, which numbers them, and exits handled
    var launches: nat
    ghost var exits: nat

    ghost function View(): Conn
      reads this
    {
      Conn(state, openvpnState, process, processSignals, connectionAttempts, postedConnects, slowConnectionWaits,
           connectionInterval, lastLaunch, needsReconnect, launches, exits, notices)
    }

    constructor ()
      ensures View() == Created
    {
      state, openvpnState, connectionAttempts, needsReconnect := DISCONNECTED, OPENVPN_EXITED, 0, false;
      process, processSignals := None, 0;
      postedConnects, slowConnectionWaits, connectionInterval, lastLaunch := 0, 0, None, 0;
      notices := [];
      launches, exits := 0, 0;
    }

    method SetState(newState: State)
      modifies this
      ensures View() == P.SetState(old(View()), newState)
    {
      if newState != state {
        match newState {
          case CONNECTED | DISCONNECTING_TO_RECONNECT | DISCONNECTING | DISCONNECTED =>
            connectionAttempts := 0;
            connectionInterval := None;
          case _ =>
        }
        state := newState;
        notices := notices + [StateChanged(state)];
      }
    }

    method ShutdownProcess()
      requires process.Some?
      modifies this`processSignals
      ensures View() == Signal(old(View()))
    {
      processSignals := processSignals + 1;
    }

    method PostConnect()
      modifies this`postedConnects
      ensures View() == Post(old(View()))
    {
      postedConnects := postedConnects + 1;
    }

    method ScheduleConnect(now: int, seconds: nat)
      modifies this`postedConnects, this`connectionInterval
      ensures View() == P.ScheduleConnect(old(View()), now, seconds)
    {
      if now - lastLaunch < seconds * SECOND {
        connectionInterval := None;
        connectionInterval := Some(lastLaunch + seconds * SECOND);
      } else {
        PostConnect();
      }
    }

    /** The OPENVPN_EXITED case of SetOpenVPNState: arranges the wake-up, returns the next state. */
    method ScheduleAfterExit(now: int) returns (next: State)
      modifies this`postedConnects, this`connectionInterval
      ensures View() == WakeAfterExit(old(View()), now) && next == AfterExit(old(state))
    {
      next := state;
      match state {
        case CONNECTED =>
          next := INTERRUPTED;
          PostConnect();
        case DISCONNECTING_TO_RECONNECT =>
          next := CONNECTING;
          ScheduleConnect(now, CONNECTION_ATTEMPT_INTERVAL);
        case CONNECTING =>
          ScheduleConnect(now, CONNECTION_ATTEMPT_INTERVAL);
        case STILL_CONNECTING =>
          ScheduleConnect(now, SLOW_CONNECTION_ATTEMPT_INTERVAL);
        case INTERRUPTED =>
          next := RECONNECTING;
          ScheduleConnect(now, RECONNECTION_ATTEMPT_INTERVAL);
        case RECONNECTING =>
          ScheduleConnect(now, RECONNECTION_ATTEMPT_INTERVAL);
        case STILL_RECONNECTING =>
          ScheduleConnect(now, SLOW_RECONNECTION_ATTEMPT_INTERVAL);
        case DISCONNECTING =>
          next := DISCONNECTED;
        case DISCONNECTED =>
      }
    }

    method SetOpenVPNState(now: int, newState: OpenVPNState)
      modifies this
      ensures View() == P.SetOpenVPNState(old(View()), now, newState)
    {
      var next := state;
      match newState {
        case OPENVPN_CONNECTED =>
          if state == DISCONNECTING || state == DISCONNECTED {
            if process.Some? { ShutdownProcess(); }
          } else {
            next := CONNECTED;
          }
        case OPENVPN_RECONNECTING =>
          connectionAttempts := Increment(connectionAttempts);
          if state == CONNECTING && connectionAttempts > MAX_CONNECTION_ATTEMPTS {
            next := STILL_CONNECTING;
          } else if state == RECONNECTING && connectionAttempts > MAX_RECONNECTION_ATTEMPTS {
            next := STILL_RECONNECTING;
          }
        case OPENVPN_EXITING =>
          if state == CONNECTED { next := INTERRUPTED; }
        case OPENVPN_EXITED =>
          next := ScheduleAfterExit(now);
        case _ =>
      }
      openvpnState := newState;
      SetState(next);
    }

    method SignalError(code: ErrorCode)
      modifies this
      ensures View() == P.SignalError(old(View()), code)
    {
      var critical := code != UNKNOWN_ERROR;
      notices := notices + [Error(code, critical)];
      if critical {
        if process.Some? { ShutdownProcess(); } else { PostConnect(); }
      }
    }

    method OnStateLine(now: int, pid: nat, reported: OpenVPNState, tlsError: bool)
      modifies this
      ensures View() == P.OnStateLine(old(View()), now, pid, reported, tlsError)
    {
      if process == Some(pid) { SetOpenVPNState(now, reported); }
      if reported == OPENVPN_EXITING && tlsError { SignalError(TLS_HANDSHAKE_ERROR); }
    }

    method OnSlowConnectionTimeout()
      modifies this
      ensures View() == P.OnSlowConnectionTimeout(old(View()))
    {
      match state {
        case CONNECTING => SetState(STILL_CONNECTING);
        case RECONNECTING => SetState(STILL_RECONNECTING);
        case _ =>
      }
    }

    method OnOpenVPNExited(now: int, pid: nat)
      modifies this
      ensures View() == P.OnOpenVPNExited(old(View()), now, pid)
    {
      if process == Some(pid) {
        process := None;
        exits := exits + 1;
        SetOpenVPNState(now, OPENVPN_EXITED);
      }
    }

    method NeedsReconnect(mismatch: bool) returns (needed: bool)
      modifies this`needsReconnect
      ensures (View(), needed) == P.NeedsReconnect(old(View()), mismatch)
    {
      if process.None? {
        needsReconnect := false;
        return false;
      }
      if needsReconnect { return true; }
      if mismatch {
        needsReconnect := true;
        return true;
      }
      return false;
    }

    method Connect(force: bool, mismatch: bool) returns (accepted: bool)
      modifies this
      ensures (View(), accepted) == P.Connect(old(View()), force, mismatch)
    {
      match state {
        case CONNECTING | STILL_CONNECTING | CONNECTED | RECONNECTING | STILL_RECONNECTING =>
          if !force {
            var needed := NeedsReconnect(mismatch);
            if !needed { return false; }
          }
          SetState(DISCONNECTING_TO_RECONNECT);
          if process.Some? { ShutdownProcess(); } else { PostConnect(); }
        case DISCONNECTING =>
          SetState(DISCONNECTING_TO_RECONNECT);
          if process.Some? { ShutdownProcess(); } else { PostConnect(); }
        case INTERRUPTED =>
          if process.Some? { ShutdownProcess(); } else { PostConnect(); }
        case DISCONNECTING_TO_RECONNECT | DISCONNECTED =>
          SetState(CONNECTING);
          PostConnect();
      }
      return true;
    }

    method Disconnect()
      modifies this
      ensures View() == P.Disconnect(old(View()))
    {
      if state == DISCONNECTED { return; }
      SetState(DISCONNECTING);
      if process.Some? && openvpnState != OPENVPN_EXITING && openvpnState != OPENVPN_EXITED {
        ShutdownProcess();
      }
      if openvpnState == OPENVPN_EXITED { SetState(DISCONNECTED); }
    }

    /** The second half of DoConnect, from the copying of the settings on. */
    method Launch(now: int, settingsChanged: bool)
      modifies this
      ensures View() == P.Launch(old(View()), now, settingsChanged)
    {
      TakeProcess(now, settingsChanged);
      hide Launched;
      PromoteIfSpent();
    }

    /** Lines 624-642: the settings are copied and the new process is owned, timed and counted. */
    method TakeProcess(now: int, settingsChanged: bool)
      modifies this
      ensures View() == Launched(old(View()), now, settingsChanged)
    {
      hide Increment;
      var number := launches;
      needsReconnect, connectionAttempts := false, if settingsChanged then 0 else connectionAttempts;
      process, processSignals, launches, lastLaunch, connectionInterval := Some(number), 0, number + 1, now, None;
      if connectionAttempts == 0 && (state == CONNECTING || state == RECONNECTING) {
        slowConnectionWaits := slowConnectionWaits + 1; // StartConnectionTimer
      }
      connectionAttempts := Increment(connectionAttempts);
      notices := notices + [Attempt(connectionAttempts)];
      assert state == old(state) && openvpnState == old(openvpnState);
      assert postedConnects == old(postedConnects) && exits == old(exits);
      assert connectionAttempts == Increment(if settingsChanged then 0 else old(connectionAttempts));
    }

    method PromoteIfSpent()
      modifies this
      ensures View() == P.SetState(old(View()), Promoted(old(state), old(connectionAttempts)))
    {
      if state == CONNECTING && connectionAttempts > MAX_CONNECTION_ATTEMPTS {
        SetState(STILL_CONNECTING);
      } else if state == RECONNECTING && connectionAttempts > MAX_RECONNECTION_ATTEMPTS {
        SetState(STILL_RECONNECTING);
      }
    }

    method DoConnect(now: int, settingsChanged: bool)
      modifies this
      ensures View() == P.DoConnect(old(View()), now, settingsChanged)
    {
      hide P.Launch;
      match state {
        case INTERRUPTED =>
          connectionAttempts := 0;
          SetState(RECONNECTING);
        case DISCONNECTING_TO_RECONNECT | DISCONNECTED =>
          connectionAttempts := 0;
          SetState(CONNECTING);
        case CONNECTING | RECONNECTING | STILL_CONNECTING | STILL_RECONNECTING =>
        case CONNECTED | DISCONNECTING =>
          return;
      }
      if process.Some? { return; }
      Launch(now, settingsChanged);
    }

    // ---------- Turns ----------

    /** One call from the daemon or one turn of the event loop, and what the fields are like after each. */
    method Turn(event: Event)
      requires CR.Inv(View()) && Enabled(View(), event)
      modifies this
      ensures View() == Step(old(View()), event) && CR.Inv(View())
      ensures state != DISCONNECTED ==> process.Some? || postedConnects > 0 || connectionInterval.Some?
      ensures state == CONNECTED ==> process.Some?
      ensures state == DISCONNECTING ==> process.Some? && openvpnState != OPENVPN_EXITED
      ensures connectionInterval.Some? ==>
        connectionInterval.value == lastLaunch + SECOND || connectionInterval.value == lastLaunch + 30 * SECOND
    {
      CR.StepKeepsInv(View(), event);
      CR.InvMeans(Step(View(), event));
      hide CR.Inv, Step, Enabled;
      Dispatch(event);
    }

    method Dispatch(event: Event)
      requires Enabled(View(), event)
      modifies this
      ensures View() == Step(old(View()), event)
    {
      hide P.Connect, P.Disconnect, P.NeedsReconnect, P.DoConnect, P.OnStateLine, P.SignalError,
        P.OnOpenVPNExited, P.OnSlowConnectionTimeout;
      match event {
        case UserConnect(force, mismatch) =>
          var accepted := Connect(force, mismatch);
        case UserDisconnect =>
          Disconnect();
        case QueryReconnect(mismatch) =>
          var needed := NeedsReconnect(mismatch);
        case PostedRuns(now, changed) =>
          postedConnects := postedConnects - 1;
          DoConnect(now, changed);
        case IntervalExpires(_) =>
          connectionInterval := None;
          PostConnect();
        case SlowTimeout =>
          slowConnectionWaits := slowConnectionWaits - 1;
          OnSlowConnectionTimeout();
        case StateLine(now, pid, reported, tlsError) =>
          OnStateLine(now, pid, reported, tlsError);
        case ErrorLine(_, code) =>
          SignalError(code);
        case ProcessExits(now, pid) =>
          OnOpenVPNExited(now, pid);
      }
    }
  }
}
