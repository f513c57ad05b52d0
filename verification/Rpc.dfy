/**
 The WebSocket transport of the client (client/src/rpc.js): outgoing JSON-RPC calls
 and posts, their queue while the socket is not open, reconnecting, and responses.
 */
module RpcProtocol {
  import opened Common

  // ---------- State ----------

  datatype ReadyState = CONNECTING | OPEN | CLOSING | CLOSED

  predicate Ending(r: ReadyState) { r.CLOSING? || r.CLOSED? }

  /** What a caller passed to be called back, whatever it is. */
  type Callback = nat

  datatype Answer = Result(text: string) | Error(text: string)

  datatype Call = Call(id: nat, callback: Callback)

  /** A call has an id, a post has none. */
  datatype Request = Request(text: string, call: Option<Call>)

  datatype Firing = Firing(id: nat, callback: Callback, answer: Answer)

  /**
   The id of a response: a number or the text of a number both name a property of
   the callback table; null, other texts and other values name none.
   */
  datatype ReplyId = Names(id: nat) | NamesNone

  /**
   The fields of WebSocketImpl. All sockets ever created are kept in order, with the
   number of armed timeouts and, as history, what was issued, transmitted, dropped by
   disconnect, which callback belongs to which id, and which callbacks were fired.
   */
  datatype Transport = Transport(
    sockets: seq<ReadyState>, socket: Option<nat>, queue: seq<Request>, nextId: nat, callbacks: map<nat, Callback>,
    timer: bool, armed: nat, issued: seq<Request>, transmitted: seq<Request>, dropped: seq<Request>,
    owner: map<nat, Callback>, fired: seq<Firing>, refused: seq<Callback>)

  function State(t: Transport): ReadyState
    requires t.socket.Some? && t.socket.value < |t.sockets|
  {
    t.sockets[t.socket.value]
  }

  predicate Attached(t: Transport) { t.socket.Some? && t.socket.value < |t.sockets| }

  // ---------- Handlers ----------

  function Connect(t: Transport): Transport {
    t.(sockets := t.sockets + [CONNECTING], socket := Some(|t.sockets|))
  }

  const START := Connect(Transport([], None, [], 1, map[], false, 0, [], [], [], map[], [], []))

  function Transmit(t: Transport, r: Request): Transport {
    t.(callbacks := if r.call.Some? then t.callbacks[r.call.value.id := r.call.value.callback] else t.callbacks,
       transmitted := t.transmitted + [r])
  }

  function TransmitAll(t: Transport, rs: seq<Request>): Transport
    decreases |rs|
  {
    if rs == [] then t else TransmitAll(Transmit(t, rs[0]), rs[1..])
  }

  function Send(t: Transport, text: string, callback: Option<Callback>): Transport {
    if !Attached(t) then
      if callback.Some? then t.(refused := t.refused + [callback.value]) else t
    else
      var r := Request(text, if callback.Some? then Some(Call(t.nextId, callback.value)) else None);
      var u := if callback.Some? then t.(nextId := t.nextId + 1, owner := t.owner[t.nextId := callback.value]) else t;
      var v := u.(issued := u.issued + [r]);
      if State(t).OPEN? then Transmit(v, r) else v.(queue := v.queue + [r])
  }

  function Opened(t: Transport): Transport
    requires Attached(t)
  {
    var u := t.(sockets := t.sockets[t.socket.value := OPEN]);
    TransmitAll(u, u.queue).(queue := [])
  }

  function Reconnect(t: Transport): Transport {
    if Attached(t) && Ending(State(t)) && !t.timer then t.(timer := true, armed := t.armed + 1) else t
  }

  function Close(t: Transport): Transport
    requires Attached(t)
  {
    t.(sockets := t.sockets[t.socket.value := if State(t).CLOSED? then CLOSED else CLOSING])
  }

  function Disconnect(t: Transport): Transport {
    var u := if Attached(t) then Close(t) else t;
    u.(socket := None, dropped := t.queue + t.dropped, queue := [], callbacks := map[])
  }

  /** An error or close event; the error handler's answer decides whether to try again. */
  function Failed(t: Transport, again: bool): Transport {
    if again then Reconnect(t) else Disconnect(t)
  }

  function TimerFired(t: Transport): Transport
    requires t.armed > 0
  {
    var u := t.(timer := false, armed := t.armed - 1);
    if Attached(u) && Ending(State(u)) then Connect(Close(u)) else u
  }

  function Received(t: Transport, id: ReplyId, answer: Answer): Transport {
    if id.Names? && id.id in t.callbacks then
      t.(callbacks := t.callbacks - {id.id}, fired := t.fired + [Firing(id.id, t.callbacks[id.id], answer)])
    else t
  }

  datatype Event =
    | CallSend(text: string, callback: Option<Callback>) | CallDisconnect
    | SocketOpens | SocketStartsClosing | SocketFails(again: bool) | SocketCloses(again: bool)
    | OldSocketCloses(k: nat) | TimeoutFires | ResponseArrives(id: ReplyId, answer: Answer)

  /** A socket opens once and closes once; responses may come at any time, also late from an old socket. */
  predicate CanHappen(t: Transport, e: Event) {
    match e
    case SocketOpens => Attached(t) && State(t).CONNECTING?
    case SocketStartsClosing => Attached(t) && (State(t).OPEN? || State(t).CONNECTING?)
    case SocketFails(_) => Attached(t)
    case SocketCloses(_) => Attached(t) && !State(t).CLOSED?
    case OldSocketCloses(k) => k < |t.sockets| && t.sockets[k].CLOSING? && t.socket != Some(k)
    case TimeoutFires => t.armed > 0
    case _ => true
  }

  function Happen(t: Transport, e: Event): Transport
    requires CanHappen(t, e)
  {
    match e
    case CallSend(text, callback) => Send(t, text, callback)
    case CallDisconnect => Disconnect(t)
    case SocketOpens => Opened(t)
    case SocketStartsClosing => t.(sockets := t.sockets[t.socket.value := CLOSING])
    case SocketFails(again) => Failed(t, again)
    case SocketCloses(again) => Failed(t.(sockets := t.sockets[t.socket.value := CLOSED]), again)
    case OldSocketCloses(k) => t.(sockets := t.sockets[k := CLOSED])
    case TimeoutFires => TimerFired(t)
    case ResponseArrives(id, answer) => Received(t, id, answer)
  }

  predicate CanRun(t: Transport, run: seq<Event>)
    decreases |run|
  {
    run == [] || (CanHappen(t, run[0]) && CanRun(Happen(t, run[0]), run[1..]))
  }

  function RunAll(t: Transport, run: seq<Event>): Transport
    requires CanRun(t, run)
    decreases |run|
  {
    if run == [] then t else RunAll(Happen(t, run[0]), run[1..])
  }

  // ---------- What every run keeps ----------

  /** Requests are transmitted in the order of issue, and only disconnect drops any. */
  ghost predicate Conserved(t: Transport) {
    && t.issued == t.transmitted + t.queue + t.dropped
    && (t.socket.Some? ==> t.dropped == [])
    && (t.socket.None? ==> t.queue == [] && t.callbacks == map[])
  }

  /** Only the newest socket can be alive, and none after disconnect. */
  ghost predicate OneAlive(t: Transport) {
    && (t.socket.Some? ==> t.socket.value + 1 == |t.sockets|)
    && forall k :: 0 <= k < |t.sockets| && t.socket != Some(k) ==> Ending(t.sockets[k])
  }

  /** An open socket leaves nothing queued; a closed one has a timeout to replace it, and never two. */
  ghost predicate Recovering(t: Transport) {
    && (Attached(t) && State(t).OPEN? ==> t.queue == [])
    && (Attached(t) && State(t).CLOSED? ==> t.timer)
    && t.armed == if t.timer then 1 else 0
  }

  ghost predicate NotFired(t: Transport, id: nat) {
    forall k :: 0 <= k < |t.fired| ==> t.fired[k].id != id
  }

  ghost predicate FreshCalls(t: Transport, rs: seq<Request>) {
    && (forall i :: 0 <= i < |rs| && rs[i].call.Some? ==>
         var c := rs[i].call.value;
         c.id in t.owner && t.owner[c.id] == c.callback && c.id !in t.callbacks && NotFired(t, c.id))
    && forall i, j :: 0 <= i < j < |rs| && rs[i].call.Some? && rs[j].call.Some? ==>
         rs[i].call.value.id != rs[j].call.value.id
  }

  /** Every id belongs to one callback, which is waiting in the table, queued, or fired once. */
  ghost predicate Owned(t: Transport) {
    && (forall id :: id in t.owner ==> id < t.nextId)
    && (forall id :: id in t.callbacks ==> id in t.owner && t.callbacks[id] == t.owner[id] && NotFired(t, id))
    && (forall k :: 0 <= k < |t.fired| ==> t.fired[k].id in t.owner && t.fired[k].callback == t.owner[t.fired[k].id])
    && forall i, j :: 0 <= i < j < |t.fired| ==> t.fired[i].id != t.fired[j].id
  }

  ghost predicate Inv(t: Transport) {
    Conserved(t) && OneAlive(t) && Recovering(t) && Owned(t) && FreshCalls(t, t.queue)
  }

  lemma InvMeans(t: Transport)
    requires Inv(t)
    ensures Recovering(t) && (t.socket.None? ==> t.queue == [] && t.callbacks == map[])
  {
  }

  lemma {:induction false} TransmitAllKeeps(t: Transport, rs: seq<Request>)
    requires Owned(t) && FreshCalls(t, rs)
    ensures var u := TransmitAll(t, rs);
            && Owned(u) && u.transmitted == t.transmitted + rs
            && u == t.(callbacks := u.callbacks, transmitted := u.transmitted)
    decreases |rs|
  {
    if rs != [] {
      var u := Transmit(t, rs[0]);
      assert Owned(u);
      assert FreshCalls(u, rs[1..]);
      hide Owned, FreshCalls, Transmit;
      TransmitAllKeeps(u, rs[1..]);
      assert t.transmitted + rs == (t.transmitted + [rs[0]]) + rs[1..];
      assert u.transmitted == t.transmitted + [rs[0]] by { TransmitFrame(t, rs[0]); }
      TransmitFrame(t, rs[0]);
    }
  }

  lemma TransmitFrame(t: Transport, r: Request)
    ensures var u := Transmit(t, r);
            u == t.(callbacks := u.callbacks, transmitted := t.transmitted + [r])
  {
  }
  lemma OpenedKeepsInv(t: Transport)
    requires Inv(t) && Attached(t) && State(t).CONNECTING?
    ensures Inv(Opened(t))
  {
    var u := t.(sockets := t.sockets[t.socket.value := OPEN]);
    assert Owned(u) && FreshCalls(u, u.queue);
    TransmitAllKeeps(u, u.queue);
    var v := TransmitAll(u, u.queue);
    hide TransmitAll, Owned;
    var w := v.(queue := []);
    assert w == Opened(t);
    OwnedFrame(v, w);
  }

  lemma OwnedFrame(t: Transport, u: Transport)
    requires Owned(t) && u.owner == t.owner && u.fired == t.fired && u.callbacks == t.callbacks && u.nextId == t.nextId
    ensures Owned(u)
    ensures forall rs :: FreshCalls(t, rs) ==> FreshCalls(u, rs)
  {
    assert forall id :: NotFired(t, id) ==> NotFired(u, id);
  }

  /** A post, or a call that finds no socket, leaves the callbacks alone. */
  lemma PostKeepsOwned(t: Transport, text: string, callback: Option<Callback>)
    requires Inv(t) && (callback.None? || !Attached(t))
    ensures Owned(Send(t, text, callback)) && FreshCalls(Send(t, text, callback), Send(t, text, callback).queue)
  {
    var u := Send(t, text, callback);
    OwnedFrame(t, u);
    hide Owned, Conserved, OneAlive, Recovering;
    assert FreshCalls(u, t.queue);
  }

  lemma NewIdIsFresh(t: Transport)
    requires Owned(t)
    ensures t.nextId !in t.owner && t.nextId !in t.callbacks && NotFired(t, t.nextId)
  {
  }

  lemma CallKeepsOwned(t: Transport, text: string, callback: Callback)
    requires Inv(t) && Attached(t)
    ensures var u := Send(t, text, Some(callback)); Owned(u) && FreshCalls(u, u.queue)
  {
    hide Conserved, OneAlive;
    NewIdIsFresh(t);
    var u := Send(t, text, Some(callback));
    assert forall id :: NotFired(u, id) <==> NotFired(t, id);
    assert Owned(u);
    hide Owned;
    if State(t).OPEN? {
      assert u.queue == [];
    } else {
      assert FreshCalls(u, t.queue);
    }
  }

  lemma SendKeepsRest(t: Transport, text: string, callback: Option<Callback>)
    requires Inv(t)
    ensures var u := Send(t, text, callback); Conserved(u) && OneAlive(u) && Recovering(u)
  {
    hide Owned, FreshCalls;
    var u := Send(t, text, callback);
    assert u == t.(issued := u.issued, transmitted := u.transmitted, queue := u.queue, nextId := u.nextId,
                   owner := u.owner, callbacks := u.callbacks, refused := u.refused);
    if Attached(t) {
      var r := Request(text, if callback.Some? then Some(Call(t.nextId, callback.value)) else None);
      assert u.issued == t.issued + [r];
      IssueOne(t, r);
      hide Transmit, Send;
    }
  }

  lemma IssueOne(t: Transport, r: Request)
    requires Conserved(t) && t.socket.Some?
    ensures t.issued + [r] == t.transmitted + (t.queue + [r]) + []
    ensures t.queue == [] ==> t.issued + [r] == (t.transmitted + [r]) + [] + []
  {
  }

  lemma SendKeepsInv(t: Transport, text: string, callback: Option<Callback>)
    requires Inv(t)
    ensures Inv(Send(t, text, callback))
  {
    hide Send, Owned, FreshCalls, Conserved, OneAlive, Recovering;
    SendKeepsRest(t, text, callback);
    if callback.Some? && Attached(t) {
      CallKeepsOwned(t, text, callback.value);
    } else {
      PostKeepsOwned(t, text, callback);
    }
  }

  lemma SocketsKeepInv(t: Transport, u: Transport)
    requires Inv(t) && OneAlive(u) && Recovering(u)
    requires u == t.(sockets := u.sockets, socket := u.socket, timer := u.timer, armed := u.armed)
    requires u.socket.Some? <==> t.socket.Some?
    ensures Inv(u)
  {
    OwnedFrame(t, u);
  }

  lemma DisconnectKeepsInv(t: Transport)
    requires Conserved(t) && OneAlive(t) && Owned(t) && t.armed == if t.timer then 1 else 0
    ensures Inv(Disconnect(t))
  {
    var u := Disconnect(t);
    assert t.transmitted + t.queue + t.dropped == t.transmitted + [] + (t.queue + t.dropped);
    assert forall id :: NotFired(t, id) ==> NotFired(u, id);
  }

  lemma FailedKeepsInv(t: Transport, again: bool)
    requires Conserved(t) && OneAlive(t) && Owned(t) && FreshCalls(t, t.queue) && t.socket.Some?
    requires t.armed == (if t.timer then 1 else 0) && (Attached(t) && State(t).OPEN? ==> t.queue == [])
    ensures Inv(Failed(t, again))
  {
    if again {
      OwnedFrame(t, Reconnect(t));
      hide Owned, FreshCalls;
    } else {
      hide FreshCalls;
      DisconnectKeepsInv(t);
    }
  }

  lemma ReceivedKeepsInv(t: Transport, id: ReplyId, answer: Answer)
    requires Inv(t)
    ensures Inv(Received(t, id, answer))
  {
    var u := Received(t, id, answer);
    hide Conserved, OneAlive, Recovering;
    assert Owned(u);
    assert FreshCalls(u, u.queue);
    hide Owned, FreshCalls;
    assert Conserved(u) && OneAlive(u) && Recovering(u) by { ReceivedFrame(t, id, answer); }
  }

  lemma ReceivedFrame(t: Transport, id: ReplyId, answer: Answer)
    requires Inv(t)
    ensures var u := Received(t, id, answer); Conserved(u) && OneAlive(u) && Recovering(u)
  {
    hide Owned, FreshCalls;
  }

  lemma HappenKeepsInv(t: Transport, e: Event)
    requires Inv(t) && CanHappen(t, e)
    ensures Inv(Happen(t, e))
  {
    hide Owned, FreshCalls, Send, Opened, Received, Failed, Disconnect;
    match e
    case CallSend(text, callback) => SendKeepsInv(t, text, callback);
    case CallDisconnect => DisconnectKeepsInv(t);
    case SocketOpens => OpenedKeepsInv(t);
    case SocketStartsClosing => SocketsKeepInv(t, Happen(t, e));
    case SocketFails(again) => FailedKeepsInv(t, again);
    case SocketCloses(again) =>
      var u := t.(sockets := t.sockets[t.socket.value := CLOSED]);
      OwnedFrame(t, u);
      FailedKeepsInv(u, again);
    case OldSocketCloses(k) => SocketsKeepInv(t, Happen(t, e));
    case TimeoutFires => SocketsKeepInv(t, Happen(t, e));
    case ResponseArrives(id, answer) => ReceivedKeepsInv(t, id, answer);
  }

  lemma {:induction false} RunKeepsInv(t: Transport, run: seq<Event>)
    requires Inv(t) && CanRun(t, run)
    ensures Inv(RunAll(t, run))
    decreases |run|
  {
    hide Inv, Happen;
    if run != [] {
      HappenKeepsInv(t, run[0]);
      RunKeepsInv(Happen(t, run[0]), run[1..]);
    }
  }

  // ---------- What callers can rely on ----------

  lemma InOrder(t: Transport)
    requires Conserved(t)
    ensures t.transmitted <= t.issued && (t.socket.Some? ==> t.issued == t.transmitted + t.queue)
  {
    assert t.issued == t.transmitted + (t.queue + t.dropped);
    assert t.dropped == [] ==> t.transmitted + t.queue + t.dropped == t.transmitted + t.queue;
  }

  /** Requests reach the wire in the order of issue; until disconnect none is lost from the queue. */
  lemma TransmittedInOrder(run: seq<Event>)
    requires CanRun(START, run)
    ensures var t := RunAll(START, run);
            && t.transmitted <= t.issued
            && (t.socket.Some? ==> t.issued == t.transmitted + t.queue)
  {
    RunKeepsInv(START, run);
    InOrder(RunAll(START, run));
    hide *;
  }

  /** Every callback fires at most once, for the id it was issued with. */
  lemma FiredOnce(run: seq<Event>)
    requires CanRun(START, run)
    ensures var t := RunAll(START, run);
            && (forall i, j :: 0 <= i < j < |t.fired| ==> t.fired[i].id != t.fired[j].id)
            && forall k :: 0 <= k < |t.fired| ==>
                 t.fired[k].id in t.owner && t.fired[k].callback == t.owner[t.fired[k].id]
  {
    RunKeepsInv(START, run);
  }

  /** At any time at most one socket is alive, at most one timeout is armed. */
  lemma OneSocketOneTimeout(run: seq<Event>)
    requires CanRun(START, run)
    ensures var t := RunAll(START, run);
            && (forall k :: 0 <= k < |t.sockets| - 1 ==> Ending(t.sockets[k]))
            && t.armed <= 1
  {
    RunKeepsInv(START, run);
  }

  /** A new socket comes only after the last one was closing or closed. */
  lemma NewSocketAfterLast(t: Transport, e: Event)
    requires Inv(t) && CanHappen(t, e) && |Happen(t, e).sockets| != |t.sockets|
    ensures e.TimeoutFires? && Attached(t) && Ending(State(t)) && |Happen(t, e).sockets| == |t.sockets| + 1
  {
    hide Conserved, Owned, FreshCalls;
    if e.SocketOpens? {
      OpenedSockets(t);
    }
  }

  lemma OpenedSockets(t: Transport)
    requires Inv(t) && Attached(t)
    ensures |Opened(t).sockets| == |t.sockets|
  {
    var u := t.(sockets := t.sockets[t.socket.value := OPEN]);
    TransmitAllFrame(u, u.queue);
  }

  lemma {:induction false} TransmitAllFrame(t: Transport, rs: seq<Request>)
    ensures TransmitAll(t, rs).sockets == t.sockets
    decreases |rs|
  {
    if rs != [] {
      TransmitAllFrame(Transmit(t, rs[0]), rs[1..]);
    }
  }

  /** After disconnect no socket is created, nothing is transmitted and no issued call is answered. */
  lemma {:induction false} QuietAfterDisconnect(t: Transport, run: seq<Event>)
    requires Inv(t) && t.socket.None? && CanRun(t, run)
    ensures var u := RunAll(t, run);
            && u.socket.None? && |u.sockets| == |t.sockets|
            && u.transmitted == t.transmitted && u.fired == t.fired && u.issued == t.issued
    decreases |run|
  {
    if run != [] {
      var u := Happen(t, run[0]);
      HappenKeepsInv(t, run[0]);
      assert u.socket.None? && |u.sockets| == |t.sockets| && u.transmitted == t.transmitted
        && u.fired == t.fired && u.issued == t.issued;
      hide Inv, Happen;
      QuietAfterDisconnect(u, run[1..]);
    }
  }

  /** What the surroundings do next for a transport to come online. */
  function Rescue(t: Transport): seq<Event>
    requires Attached(t)
  {
    match State(t)
    case OPEN => []
    case CONNECTING => [SocketOpens]
    case CLOSING => [SocketCloses(true), TimeoutFires, SocketOpens]
    case CLOSED => [TimeoutFires, SocketOpens]
  }

  /** A transport that was not disconnected is never stuck: at most three events bring everything onto the wire. */
  lemma NeverStuckOffline(t: Transport)
    requires Inv(t) && t.socket.Some?
    ensures Attached(t) && CanRun(t, Rescue(t))
    ensures RunAll(t, Rescue(t)).queue == [] && RunAll(t, Rescue(t)).transmitted == t.issued
  {
    hide Owned, FreshCalls;
    match State(t)
    case OPEN =>
    case CONNECTING => OpensNext(t);
    case CLOSED => TimeoutNext(t);
    case CLOSING =>
      var u := Happen(t, SocketCloses(true));
      HappenKeepsInv(t, SocketCloses(true));
      TimeoutNext(u);
      assert Rescue(t)[1..] == [TimeoutFires, SocketOpens];
  }

  lemma OpensNext(t: Transport)
    requires Inv(t) && Attached(t) && State(t).CONNECTING?
    ensures CanRun(t, [SocketOpens])
    ensures var u := RunAll(t, [SocketOpens]); u.queue == [] && u.transmitted == t.issued
  {
    var u := Happen(t, SocketOpens);
    HappenKeepsInv(t, SocketOpens);
    assert [SocketOpens][1..] == [];
    assert RunAll(u, []) == u;
    var v := t.(sockets := t.sockets[t.socket.value := OPEN]);
    OwnedFrame(t, v);
    TransmitAllKeeps(v, v.queue);
    assert t.issued == t.transmitted + t.queue;
  }

  lemma TimeoutNext(t: Transport)
    requires Inv(t) && Attached(t) && State(t).CLOSED?
    ensures CanRun(t, [TimeoutFires, SocketOpens])
    ensures var u := RunAll(t, [TimeoutFires, SocketOpens]); u.queue == [] && u.transmitted == t.issued
  {
    hide Owned, FreshCalls;
    var u := Happen(t, TimeoutFires);
    HappenKeepsInv(t, TimeoutFires);
    OpensNext(u);
    assert [TimeoutFires, SocketOpens][1..] == [SocketOpens];
  }
  // ---------- Every answer finds its callback ----------

  ghost predicate Queued(rs: seq<Request>, id: nat) {
    exists i :: 0 <= i < |rs| && rs[i].call.Some? && rs[i].call.value.id == id
  }

  /** Until disconnect every issued call is waiting in the table, queued, or answered. */
  ghost predicate Accounted(t: Transport) {
    t.socket.Some? ==>
      forall id :: id in t.owner ==> id in t.callbacks || !NotFired(t, id) || Queued(t.queue, id)
  }

  lemma {:induction false} TransmitAllRegisters(t: Transport, rs: seq<Request>, id: nat)
    requires id in t.callbacks || Queued(rs, id)
    ensures id in TransmitAll(t, rs).callbacks
    decreases |rs|
  {
    if rs != [] {
      if Queued(rs, id) {
        var i :| 0 <= i < |rs| && rs[i].call.Some? && rs[i].call.value.id == id;
        if i > 0 {
          assert rs[1..][i - 1] == rs[i];
        }
      }
      TransmitAllRegisters(Transmit(t, rs[0]), rs[1..], id);
    }
  }

  lemma OpenedAccounts(t: Transport)
    requires Inv(t) && Accounted(t) && Attached(t)
    ensures Accounted(Opened(t))
  {
    var u := t.(sockets := t.sockets[t.socket.value := OPEN]);
    OwnedFrame(t, u);
    TransmitAllKeeps(u, u.queue);
    var v := Opened(t);
    forall id | id in v.owner ensures id in v.callbacks || !NotFired(v, id) {
      if NotFired(t, id) {
        TransmitAllRegisters(u, u.queue, id);
      }
    }
  }

  lemma SendAccounts(t: Transport, text: string, callback: Option<Callback>)
    requires Accounted(t)
    ensures Accounted(Send(t, text, callback))
  {
    var u := Send(t, text, callback);
    forall id | u.socket.Some? && id in u.owner ensures id in u.callbacks || !NotFired(u, id) || Queued(u.queue, id) {
      if id in t.owner && Queued(t.queue, id) {
        var i :| 0 <= i < |t.queue| && t.queue[i].call.Some? && t.queue[i].call.value.id == id;
        assert u.queue[i] == t.queue[i];
      } else if id !in t.owner && !State(t).OPEN? {
        assert u.queue[|t.queue|].call.value.id == id;
      }
    }
  }

  lemma ReceivedAccounts(t: Transport, id: ReplyId, answer: Answer)
    requires Accounted(t)
    ensures Accounted(Received(t, id, answer))
  {
    var u := Received(t, id, answer);
    if u.fired != t.fired {
      assert u.fired[|t.fired|].id == id.id;
      assert forall k :: 0 <= k < |t.fired| ==> u.fired[k] == t.fired[k];
    }
  }

  lemma HappenAccounts(t: Transport, e: Event)
    requires Inv(t) && Accounted(t) && CanHappen(t, e)
    ensures Accounted(Happen(t, e))
  {
    hide Conserved, OneAlive, Recovering, Owned, FreshCalls;
    match e
    case CallSend(text, callback) => SendAccounts(t, text, callback);
    case SocketOpens => OpenedAccounts(t);
    case ResponseArrives(id, answer) => ReceivedAccounts(t, id, answer);
    case _ =>
      var u := Happen(t, e);
      hide Queued;
      assert u.socket.Some? ==> u.queue == t.queue && u.callbacks == t.callbacks && u.owner == t.owner;
      assert u.fired == t.fired && forall id :: NotFired(t, id) <==> NotFired(u, id);
  }

  lemma {:induction false} RunAccounts(t: Transport, run: seq<Event>)
    requires Inv(t) && Accounted(t) && CanRun(t, run)
    ensures Inv(RunAll(t, run)) && Accounted(RunAll(t, run))
    decreases |run|
  {
    hide Inv, Happen, Accounted;
    if run != [] {
      HappenKeepsInv(t, run[0]);
      HappenAccounts(t, run[0]);
      RunAccounts(Happen(t, run[0]), run[1..]);
    }
  }

  /** Until disconnect, the first response to a transmitted call fires its callback, and nothing else fires any. */
  lemma AnswerFires(run: seq<Event>, id: nat, answer: Answer)
    requires CanRun(START, run)
    ensures var t := RunAll(START, run);
            t.socket.Some? ==>
              Received(t, Names(id), answer).fired ==
              if id in t.owner && NotFired(t, id) && !Queued(t.queue, id)
              then t.fired + [Firing(id, t.owner[id], answer)] else t.fired
  {
    RunAccounts(START, run);
    var t := RunAll(START, run);
    hide RunAll, CanRun;
    if Queued(t.queue, id) {
      var i :| 0 <= i < |t.queue| && t.queue[i].call.Some? && t.queue[i].call.value.id == id;
      assert id !in t.callbacks;
    }
  }
}

/** The transport object, with its fields updated in place. */
module Rpc {
  import opened Common
  import opened RpcProtocol

  class WebSocketImpl {
    var sockets: seq<ReadyState>
    var socket: Option<nat>
    var queue: seq<Request>
    var nextId: nat
    var callbacks: map<nat, Callback>
    var reconnectTimeout: bool
    ghost var armed: nat
    ghost var issued: seq<Request>
    ghost var transmitted: seq<Request>
    ghost var dropped: seq<Request>
    ghost var owner: map<nat, Callback>
    ghost var fired: seq<Firing>
    ghost var refused: seq<Callback>

    ghost function View(): Transport
      reads this
    {
      Transport(sockets, socket, queue, nextId, callbacks, reconnectTimeout, armed, issued, transmitted, dropped,
                owner, fired, refused)
    }

    predicate HasSocket()
      reads this
    {
      socket.Some? && socket.value < |sockets|
    }

    constructor ()
      ensures View() == START
    {
      sockets, socket, queue, nextId, callbacks, reconnectTimeout := [CONNECTING], Some(0), [], 1, map[], false;
      armed, issued, transmitted, dropped, owner, fired, refused := 0, [], [], [], map[], [], [];
    }

    method NewSocket()
      modifies this`sockets, this`socket
      ensures View() == Connect(old(View()))
    {
      sockets := sockets + [CONNECTING];
      socket := Some(|sockets| - 1);
    }

    /** The closure that send runs at once or queues. */
    method SendInternal(r: Request)
      modifies this`callbacks, this`transmitted
      ensures View() == Transmit(old(View()), r)
    {
      if r.call.Some? {
        callbacks := callbacks[r.call.value.id := r.call.value.callback];
      }
      transmitted := transmitted + [r];
    }

    /** send, returning the id of a call. */
    method Send(text: string, callback: Option<Callback>) returns (id: Option<nat>)
      modifies this
      ensures View() == RpcProtocol.Send(old(View()), text, callback)
      ensures id == if old(HasSocket()) && callback.Some? then Some(old(nextId)) else None
    {
      id := None;
      if HasSocket() {
        var call := None;
        if callback.Some? {
          id := Some(nextId);
          call := Some(Call(nextId, callback.value));
          owner := owner[nextId := callback.value];
          nextId := nextId + 1;
        }
        var r := Request(text, call);
        issued := issued + [r];
        if sockets[socket.value] == OPEN {
          SendInternal(r);
        } else {
          queue := queue + [r];
        }
      } else if callback.Some? {
        refused := refused + [callback.value];
      }
    }

    /** The open event: everything queued is sent. */
    method OnOpen()
      requires HasSocket()
      modifies this
      ensures View() == Opened(old(View()))
    {
      sockets := sockets[socket.value := OPEN];
      ghost var before := View();
      for i := 0 to |queue|
        invariant queue == before.queue && sockets == before.sockets
        invariant TransmitAll(View(), queue[i..]) == TransmitAll(before, before.queue)
      {
        assert queue[i..][1..] == queue[i + 1..];
        SendInternal(queue[i]);
      }
      queue := [];
    }

    method Reconnect()
      modifies this`reconnectTimeout, this`armed
      ensures View() == RpcProtocol.Reconnect(old(View()))
    {
      if HasSocket() && Ending(sockets[socket.value]) && !reconnectTimeout {
        reconnectTimeout := true;
        armed := armed + 1;
      }
    }

    method CloseSocket()
      requires HasSocket()
      modifies this`sockets
      ensures View() == RpcProtocol.Close(old(View()))
    {
      if sockets[socket.value] != CLOSED {
        sockets := sockets[socket.value := CLOSING];
      } else {
        sockets := sockets[socket.value := CLOSED];
      }
    }

    method OnTimeout()
      requires armed > 0
      modifies this
      ensures View() == TimerFired(old(View()))
    {
      armed := armed - 1;
      reconnectTimeout := false;
      if HasSocket() && Ending(sockets[socket.value]) {
        CloseSocket();
        socket := None;
        NewSocket();
      }
    }

    /** An error event, or a close event once the socket is closed. */
    method OnError(again: bool)
      modifies this
      ensures View() == Failed(old(View()), again)
    {
      if again {
        Reconnect();
      } else {
        Disconnect();
      }
    }

    method Disconnect()
      modifies this
      ensures View() == RpcProtocol.Disconnect(old(View()))
    {
      if HasSocket() {
        CloseSocket();
      }
      socket := None;
      dropped := queue + dropped;
      queue := [];
      callbacks := map[];
    }

    /** The part of onmessage that handles a well-formed response; found is false when no call of its id is waiting. */
    method OnResponse(id: ReplyId, answer: Answer) returns (found: bool)
      modifies this`callbacks, this`fired
      ensures View() == Received(old(View()), id, answer)
      ensures found <==> id.Names? && id.id in old(callbacks)
    {
      found := id.Names? && id.id in callbacks;
      if found {
        fired := fired + [Firing(id.id, callbacks[id.id], answer)];
        callbacks := callbacks - {id.id};
      }
    }

    /** A call of the user, or an event of the socket, and what the fields are like after each. */
    method Turn(e: Event)
      requires Inv(View()) && CanHappen(View(), e)
      modifies this
      ensures View() == Happen(old(View()), e) && Inv(View())
      ensures HasSocket() && sockets[socket.value] == OPEN ==> queue == []
      ensures HasSocket() && sockets[socket.value] == CLOSED ==> reconnectTimeout
      ensures socket.None? ==> queue == [] && callbacks == map[]
    {
      HappenKeepsInv(View(), e);
      InvMeans(Happen(View(), e));
      hide Inv, RpcProtocol.Send, RpcProtocol.Disconnect, Opened, Failed, TimerFired, Received;
      match e {
        case CallSend(text, callback) => var id := Send(text, callback);
        case CallDisconnect => Disconnect();
        case SocketOpens => OnOpen();
        case SocketStartsClosing => sockets := sockets[socket.value := CLOSING];
        case SocketFails(again) => OnError(again);
        case SocketCloses(again) =>
          sockets := sockets[socket.value := CLOSED];
          OnError(again);
        case OldSocketCloses(k) => sockets := sockets[k := CLOSED];
        case TimeoutFires => OnTimeout();
        case ResponseArrives(id, answer) => var found := OnResponse(id, answer);
      }
    }
  }
}
