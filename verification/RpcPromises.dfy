/**
 What callers of client/src/rpc.js get, told from their own calls alone: which texts
 go onto the wire, with which ids, and which callbacks can be called back.
 */
module RpcPromises {
  import opened Common
  import opened RpcProtocol

  /** What a caller passed to send: the message, and a callback if it expects an answer. */
  datatype Wish = Wish(text: string, callback: Option<Callback>)

  /** A disconnect call, or an error handler that does not want to go on. */
  predicate Ends(e: Event) {
    e.CallDisconnect? || (e.SocketFails? && !e.again) || (e.SocketCloses? && !e.again)
  }

  /** What was sent before the first disconnect, in order. */
  function Asked(run: seq<Event>): seq<Wish> {
    if run == [] || Ends(run[0]) then []
    else Wishes(run[0]) + Asked(run[1..])
  }

  /** What an event adds to the wishes. */
  function Wishes(e: Event): seq<Wish> { if e.CallSend? then [Wish(e.text, e.callback)] else [] }

  /** The callbacks of what was sent after the first disconnect, in order. */
  function AskedTooLate(run: seq<Event>, ended: bool): seq<Callback> {
    if run == [] then []
    else Late(run[0], ended) + AskedTooLate(run[1..], ended || Ends(run[0]))
  }

  function Late(e: Event, ended: bool): seq<Callback> {
    if ended && e.CallSend? && e.callback.Some? then [e.callback.value] else []
  }

  function CallsIn(wishes: seq<Wish>): nat {
    if wishes == [] then 0 else CallsIn(wishes[..|wishes| - 1]) + if wishes[|wishes| - 1].callback.Some? then 1 else 0
  }

  /** A request carries the caller's text, and for a callback the next number as its id. */
  predicate Carries(r: Request, w: Wish, id: nat) {
    && r.text == w.text && (r.call.Some? <==> w.callback.Some?)
    && (r.call.Some? ==> r.call.value == Call(id, w.callback.value))
  }

  /** Requests that carry the wishes one by one, with ids counted from the given one. */
  ghost predicate Fulfils(rs: seq<Request>, wishes: seq<Wish>, first: nat) {
    |rs| == |wishes| && forall i :: 0 <= i < |rs| ==> Carries(rs[i], wishes[i], first + CallsIn(wishes[..i]))
  }

  /** Everything that is transmitted, waiting or dropped. */
  function Requests(t: Transport): seq<Request> { t.transmitted + t.queue + t.dropped }

  lemma FulfilsAppend(rs: seq<Request>, wishes: seq<Wish>, first: nat, r: Request, w: Wish)
    requires Fulfils(rs, wishes, first) && Carries(r, w, first + CallsIn(wishes))
    ensures Fulfils(rs + [r], wishes + [w], first)
    ensures CallsIn(wishes + [w]) == CallsIn(wishes) + if w.callback.Some? then 1 else 0
  {
    var all := wishes + [w];
    assert all[..|wishes|] == wishes;
    forall i | 0 <= i < |all| ensures Carries((rs + [r])[i], all[i], first + CallsIn(all[..i])) {
      if i < |wishes| { assert all[..i] == wishes[..i]; }
    }
  }

  lemma OpenedRequests(t: Transport)
    requires Inv(t) && Attached(t)
    ensures Requests(Opened(t)) == Requests(t) && Opened(t).nextId == t.nextId && Opened(t).socket == t.socket
    ensures Opened(t).refused == t.refused
  {
    var u := t.(sockets := t.sockets[t.socket.value := OPEN]);
    OwnedFrame(t, u);
    TransmitAllKeeps(u, u.queue);
    hide Owned, FreshCalls, TransmitAll;
    assert t.transmitted + t.queue + [] + t.dropped == t.transmitted + t.queue + t.dropped;
  }

  /** Only send adds a request, and it adds the caller's. */
  lemma SendRequests(t: Transport, text: string, callback: Option<Callback>)
    requires Inv(t) && t.socket.Some?
    ensures var u := Send(t, text, callback);
      && |Requests(u)| == |Requests(t)| + 1 && Requests(u)[..|Requests(t)|] == Requests(t)
      && Carries(Requests(u)[|Requests(t)|], Wish(text, callback), t.nextId)
      && u.nextId == t.nextId + (if callback.Some? then 1 else 0) && u.socket == t.socket && u.refused == t.refused
  {
    hide Owned, FreshCalls;
    var r := Request(text, if callback.Some? then Some(Call(t.nextId, callback.value)) else None);
    assert Attached(t) && t.dropped == [];
    assert State(t).OPEN? ==> t.queue == [];
    assert Requests(Send(t, text, callback)) == Requests(t) + [r];
  }

  /** A handler that leaves requests, ids and callbacks on record as they are. */
  predicate Leaves(t: Transport, u: Transport) {
    && Requests(u) == Requests(t) && u.nextId == t.nextId && u.refused == t.refused
    && u.issued == t.issued && u.owner == t.owner
  }

  lemma DisconnectLeaves(t: Transport)
    ensures Leaves(t, Disconnect(t)) && Disconnect(t).socket.None?
  {
    DroppedLast(t);
  }

  lemma DroppedLast(t: Transport)
    ensures Requests(t.(queue := [], dropped := t.queue + t.dropped)) == Requests(t)
  {
  }

  lemma TimeoutLeaves(t: Transport)
    requires t.armed > 0
    ensures Leaves(t, TimerFired(t)) && (TimerFired(t).socket.None? <==> t.socket.None?)
  {
  }

  lemma FailedLeaves(t: Transport, again: bool)
    ensures Leaves(t, Failed(t, again)) && (Failed(t, again).socket.None? <==> t.socket.None? || !again)
  {
    DisconnectLeaves(t);
    hide Disconnect;
  }

  lemma OpenedLeaves(t: Transport)
    requires Inv(t) && Attached(t)
    ensures Leaves(t, Opened(t)) && Opened(t).socket == t.socket
  {
    OpenedRequests(t);
    var u := t.(sockets := t.sockets[t.socket.value := OPEN]);
    OwnedFrame(t, u);
    TransmitAllKeeps(u, u.queue);
    hide Owned, FreshCalls, TransmitAll, Requests, Conserved, OneAlive, Recovering;
  }

  lemma OtherRequests(t: Transport, e: Event)
    requires Inv(t) && CanHappen(t, e) && !e.CallSend?
    ensures var u := Happen(t, e); Leaves(t, u) && (u.socket.None? <==> t.socket.None? || Ends(e))
  {
    hide Inv, Send, Opened, Failed, Disconnect, TimerFired;
    match e
    case SocketOpens => OpenedLeaves(t);
    case CallDisconnect => DisconnectLeaves(t);
    case SocketFails(again) => FailedLeaves(t, again);
    case SocketCloses(again) => FailedLeaves(t.(sockets := t.sockets[t.socket.value := CLOSED]), again);
    case TimeoutFires => TimeoutLeaves(t);
    case _ =>
  }

  lemma HappenFulfils(t: Transport, e: Event, wishes: seq<Wish>)
    requires Inv(t) && t.socket.Some? && CanHappen(t, e)
    requires Fulfils(Requests(t), wishes, 1) && t.nextId == 1 + CallsIn(wishes)
    ensures var u := Happen(t, e);
      && Fulfils(Requests(u), wishes + Wishes(e), 1) && u.nextId == 1 + CallsIn(wishes + Wishes(e))
      && (u.socket.None? <==> Ends(e))
  {
    hide Inv, Fulfils, Requests, CallsIn, Carries;
    if e.CallSend? {
      hide Send;
      var u, w, n := Happen(t, e), Wish(e.text, e.callback), |Requests(t)|;
      SendRequests(t, e.text, e.callback);
      assert Requests(u) == Requests(t) + [Requests(u)[n]];
      FulfilsAppend(Requests(t), wishes, 1, Requests(u)[n], w);
    } else {
      hide Happen, CanHappen;
      OtherRequests(t, e);
      assert wishes + [] == wishes;
    }
  }

  lemma {:induction false} RunFulfils(t: Transport, run: seq<Event>, wishes: seq<Wish>)
    requires Inv(t) && t.socket.Some? && CanRun(t, run)
    requires Fulfils(Requests(t), wishes, 1) && t.nextId == 1 + CallsIn(wishes)
    ensures Fulfils(Requests(RunAll(t, run)), wishes + Asked(run), 1)
    decreases |run|
  {
    hide Inv, Happen, CanHappen, Fulfils, Requests, CallsIn;
    if run == [] {
      assert wishes + [] == wishes;
    } else {
      var e, u := run[0], Happen(t, run[0]);
      HappenKeepsInv(t, e);
      HappenFulfils(t, e, wishes);
      if Ends(e) {
        EndedKeeps(u, run[1..]);
        assert wishes + Wishes(e) == wishes + [];
      } else {
        RunFulfils(u, run[1..], wishes + Wishes(e));
        hide Wishes, Ends, RunAll, CanRun;
        assert wishes + Wishes(e) + Asked(run[1..]) == wishes + (Wishes(e) + Asked(run[1..]));
      }
    }
  }

  lemma {:induction false} EndedKeeps(t: Transport, run: seq<Event>)
    requires Inv(t) && t.socket.None? && CanRun(t, run)
    ensures Requests(RunAll(t, run)) == Requests(t) && RunAll(t, run).socket.None?
    decreases |run|
  {
    if run != [] {
      var u := Happen(t, run[0]);
      HappenKeepsInv(t, run[0]);
      if !run[0].CallSend? { OtherRequests(t, run[0]); }
      assert Requests(u) == Requests(t) && u.socket.None?;
      hide Inv, Happen, Requests;
      EndedKeeps(u, run[1..]);
    }
  }

  /**
   Over every run: what is transmitted, then waiting, then dropped are exactly the texts
   passed to send before the first disconnect, in order; those with a callback have the
   ids 1, 2, 3 and so on, each with its caller's callback. Nothing is dropped before.
   */
  lemma WishesFulfilled(run: seq<Event>)
    requires CanRun(START, run)
    ensures var t := RunAll(START, run);
      && Fulfils(t.transmitted + t.queue + t.dropped, Asked(run), 1)
      && (t.socket.Some? ==> Fulfils(t.transmitted + t.queue, Asked(run), 1))
  {
    RunKeepsInv(START, run);
    RunFulfils(START, run, []);
    var t := RunAll(START, run);
    hide RunAll, CanRun, Fulfils, Asked;
    assert [] + Asked(run) == Asked(run);
    assert t.socket.Some? ==> t.transmitted + t.queue + t.dropped == t.transmitted + t.queue;
  }

  // ---------- Too late ----------

  lemma HappenRefuses(t: Transport, e: Event)
    requires Inv(t) && CanHappen(t, e)
    ensures var u := Happen(t, e);
      u.refused == t.refused + Late(e, t.socket.None?) && (u.socket.None? <==> t.socket.None? || Ends(e))
  {
    if e.CallSend? {
      if t.socket.Some? { SendRequests(t, e.text, e.callback); }
      hide Owned, FreshCalls, Recovering, Conserved, Requests;
    } else {
      OtherRequests(t, e);
      hide Happen, Inv, Requests;
    }
  }

  lemma {:induction false} RunRefuses(t: Transport, run: seq<Event>)
    requires Inv(t) && CanRun(t, run)
    ensures RunAll(t, run).refused == t.refused + AskedTooLate(run, t.socket.None?)
    decreases |run|
  {
    hide Inv, Happen, CanHappen, Late;
    if run == [] {
      assert t.refused + [] == t.refused;
    } else {
      var u := Happen(t, run[0]);
      HappenKeepsInv(t, run[0]);
      HappenRefuses(t, run[0]);
      hide Ends;
      RunRefuses(u, run[1..]);
    }
  }

  /** Over every run: whoever calls after the first disconnect is refused at once, everybody else is not. */
  lemma LateCallsRefused(run: seq<Event>)
    requires CanRun(START, run)
    ensures RunAll(START, run).refused == AskedTooLate(run, false)
  {
    RunRefuses(START, run);
    assert [] + AskedTooLate(run, false) == AskedTooLate(run, false);
  }

  // ---------- Answers ----------

  ghost predicate Requested(rs: seq<Request>, id: nat, callback: Callback) {
    exists i :: 0 <= i < |rs| && rs[i].call == Some(Call(id, callback))
  }

  /** The callback on record for an id is the one that was sent with it. */
  ghost predicate OwnersAsked(t: Transport) {
    forall id :: id in t.owner ==> Requested(t.issued, id, t.owner[id])
  }

  lemma HappenOwners(t: Transport, e: Event)
    requires Inv(t) && OwnersAsked(t) && CanHappen(t, e)
    ensures OwnersAsked(Happen(t, e))
  {
    var u := Happen(t, e);
    if e.CallSend? {
      hide Conserved, OneAlive, Recovering, Owned, FreshCalls;
      forall id | id in u.owner ensures Requested(u.issued, id, u.owner[id]) {
        if id in t.owner && (e.callback.None? || id != t.nextId || !Attached(t)) {
          var i :| 0 <= i < |t.issued| && t.issued[i].call == Some(Call(id, t.owner[id]));
          assert u.issued[i] == t.issued[i];
        } else {
          assert u.issued[|t.issued|].call == Some(Call(id, u.owner[id]));
        }
      }
    } else {
      OtherRequests(t, e);
      hide Happen, Inv, Requested;
    }
  }

  lemma {:induction false} RunOwners(t: Transport, run: seq<Event>)
    requires Inv(t) && OwnersAsked(t) && CanRun(t, run)
    ensures OwnersAsked(RunAll(t, run))
    decreases |run|
  {
    if run != [] {
      HappenKeepsInv(t, run[0]);
      HappenOwners(t, run[0]);
      hide Inv, Happen, OwnersAsked;
      RunOwners(Happen(t, run[0]), run[1..]);
    }
  }

  /** Over every run: a callback is fired only for the id that was sent with it, and that only once. */
  lemma FiredAsAsked(run: seq<Event>, k: nat)
    requires CanRun(START, run) && k < |RunAll(START, run).fired|
    ensures var t := RunAll(START, run);
      && Requested(t.transmitted + t.queue + t.dropped, t.fired[k].id, t.fired[k].callback)
      && forall j :: 0 <= j < |t.fired| && j != k ==> t.fired[j].id != t.fired[k].id
  {
    RunKeepsInv(START, run);
    RunOwners(START, run);
    FiredOnce(run);
    hide RunAll, CanRun, Requested, FreshCalls;
  }
}
