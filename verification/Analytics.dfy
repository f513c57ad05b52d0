/**
 The analytics queue of the client (client/src/web/analytics.js): hits are queued,
 and a long or a short timer sends them off in batches of at most twenty.
 */
module AnalyticsProtocol {
  import opened Common

  const BATCH := 20

  // ---------- State ----------

  /** What one call reports: an object, a list of such payloads, or something else. */
  datatype Payload = Object(data: string) | List(items: seq<Payload>) | Invalid

  datatype Hit = Hit(kind: string, client: string, data: string)

  datatype Outcome = InFlight | Resolved | Rejected | Cancelled

  datatype Batch = Batch(hits: seq<Hit>, outcome: Outcome)

  /** The module's variables, and as history every hit taken up and every batch that left the queue. */
  datatype State = State(
    enabled: bool, clientID: Option<string>, queue: seq<Hit>, long: bool, short: bool,
    accepted: seq<Hit>, batches: seq<Batch>)

  const START := State(false, None, [], false, false, [], [])

  /** The hits in a payload, in order. */
  function Hits(kind: string, client: string, payload: Payload): seq<Hit> {
    match payload
    case Object(data) => [Hit(kind, client, data)]
    case List(items) => HitsOfAll(kind, client, items)
    case Invalid => []
  }

  function HitsOfAll(kind: string, client: string, items: seq<Payload>): seq<Hit> {
    if items == [] then [] else Hits(kind, client, items[0]) + HitsOfAll(kind, client, items[1..])
  }

  // ---------- Handlers ----------

  /** Queues of twenty and more are sent off by the short timer, other non-empty ones by the long one. */
  function Timed(s: State, queue: seq<Hit>): State {
    s.(queue := queue, long := 0 < |queue| < BATCH, short := |queue| >= BATCH)
  }

  function Enqueue(s: State, hits: seq<Hit>): State {
    Timed(s.(accepted := s.accepted + hits), s.queue + hits)
  }

  function Send(s: State, kind: string, payload: Payload): State {
    if s.enabled && s.clientID.Some? then Enqueue(s, Hits(kind, s.clientID.value, payload)) else s
  }

  function Min(a: nat, b: nat): nat { if a < b then a else b }

  /** A timer fires. */
  function Process(s: State): State {
    var n := Min(BATCH, |s.queue|);
    Timed(s.(batches := s.batches + [Batch(s.queue[..n], InFlight)]), s.queue[n..])
  }

  function Activate(s: State, stored: Option<string>, made: string): State {
    if s.enabled then s
    else s.(enabled := true, queue := [],
            clientID := Some(if stored.Some? && |stored.value| == 36 then stored.value else made))
  }

  function Deactivate(s: State): State {
    if !s.enabled then s
    else s.(enabled := false, clientID := None, queue := [], long := false, short := false,
            batches := s.batches + [Batch(s.queue, Cancelled)])
  }

  /** The request for a batch came to its end. */
  function Settle(s: State, k: nat, ok: bool): State
    requires k < |s.batches|
  {
    s.(batches := s.batches[k := s.batches[k].(outcome := if ok then Resolved else Rejected)])
  }

  datatype Event =
    | UserActivates(stored: Option<string>, made: string)
    | UserDeactivates
    | Report(kind: string, payload: Payload)
    | TimerFires
    | RequestEnds(k: nat, ok: bool)

  /** A timer fires only while armed, and a request ends only once. */
  predicate CanHappen(s: State, e: Event) {
    match e
    case TimerFires => s.long || s.short
    case RequestEnds(k, _) => k < |s.batches| && s.batches[k].outcome == InFlight
    case _ => true
  }

  function Happen(s: State, e: Event): State
    requires CanHappen(s, e)
  {
    match e
    case UserActivates(stored, made) => Activate(s, stored, made)
    case UserDeactivates => Deactivate(s)
    case Report(kind, payload) => Send(s, kind, payload)
    case TimerFires => Process(s)
    case RequestEnds(k, ok) => Settle(s, k, ok)
  }

  predicate CanRun(s: State, run: seq<Event>)
    decreases |run|
  {
    run == [] || (CanHappen(s, run[0]) && CanRun(Happen(s, run[0]), run[1..]))
  }

  function RunAll(s: State, run: seq<Event>): State
    requires CanRun(s, run)
    decreases |run|
  {
    if run == [] then s else RunAll(Happen(s, run[0]), run[1..])
  }

  // ---------- What every run keeps ----------

  function Left(batches: seq<Batch>): seq<Hit> {
    if batches == [] then [] else Left(batches[..|batches| - 1]) + batches[|batches| - 1].hits
  }

  ghost predicate OneClient(hits: seq<Hit>) {
    forall i, j :: 0 <= i < |hits| && 0 <= j < |hits| ==> hits[i].client == hits[j].client
  }

  ghost predicate Inv(s: State) {
    && (s.short <==> |s.queue| >= BATCH)
    && (s.long <==> 0 < |s.queue| < BATCH)
    && (s.enabled <==> s.clientID.Some?)
    && (!s.enabled ==> s.queue == [])
    && (forall i :: 0 <= i < |s.queue| ==> Some(s.queue[i].client) == s.clientID)
    && s.accepted == Left(s.batches) + s.queue
    && forall k :: 0 <= k < |s.batches| ==> Proper(s.batches[k])
  }

  /** What goes out in one request: one to twenty hits of one client. */
  ghost predicate Proper(b: Batch) {
    OneClient(b.hits) && (!b.outcome.Cancelled? ==> 1 <= |b.hits| <= BATCH)
  }

  lemma {:induction false} HitsOfClient(kind: string, client: string, payload: Payload)
    ensures forall i :: 0 <= i < |Hits(kind, client, payload)| ==> Hits(kind, client, payload)[i].client == client
    decreases payload, 1
  {
    if payload.List? {
      HitsOfAllOfClient(kind, client, payload.items);
    }
  }

  lemma {:induction false} HitsOfAllOfClient(kind: string, client: string, items: seq<Payload>)
    ensures forall i :: 0 <= i < |HitsOfAll(kind, client, items)| ==> HitsOfAll(kind, client, items)[i].client == client
    decreases items, 0
  {
    if items != [] {
      HitsOfClient(kind, client, items[0]);
      HitsOfAllOfClient(kind, client, items[1..]);
    }
  }

  lemma LeftSnoc(batches: seq<Batch>, b: Batch)
    ensures Left(batches + [b]) == Left(batches) + b.hits
  {
    assert (batches + [b])[..|batches|] == batches;
  }

  lemma {:induction false} LeftOfSettled(batches: seq<Batch>, k: nat, b: Batch)
    requires k < |batches| && b.hits == batches[k].hits
    ensures Left(batches[k := b]) == Left(batches)
  {
    var n := |batches| - 1;
    if k == n {
      assert batches[k := b][..n] == batches[..n];
    } else {
      assert batches[k := b][..n] == batches[..n][k := b];
      LeftOfSettled(batches[..n], k, b);
    }
  }

  lemma HappenKeepsInv(s: State, e: Event)
    requires Inv(s) && CanHappen(s, e)
    ensures Inv(Happen(s, e))
  {
    hide Hits, Left;
    match e
    case Report(kind, payload) =>
      if s.enabled {
        HitsOfClient(kind, s.clientID.value, payload);
      }
    case TimerFires =>
      var n := Min(BATCH, |s.queue|);
      LeftSnoc(s.batches, Batch(s.queue[..n], InFlight));
      assert s.queue == s.queue[..n] + s.queue[n..];
    case UserDeactivates =>
      LeftSnoc(s.batches, Batch(s.queue, Cancelled));
    case RequestEnds(k, ok) =>
      LeftOfSettled(s.batches, k, Happen(s, e).batches[k]);
    case _ =>
  }

  /**
   The timers match the queue, every hit taken up is in the queue or left it in
   order in exactly one batch, and no request mixes the identities of two activations.
   */
  lemma {:induction false} RunKeepsInv(s: State, run: seq<Event>)
    requires Inv(s) && CanRun(s, run)
    ensures Inv(RunAll(s, run))
    decreases |run|
  {
    hide Inv, Happen;
    if run != [] {
      HappenKeepsInv(s, run[0]);
      RunKeepsInv(Happen(s, run[0]), run[1..]);
    }
  }

  lemma StartedInv(run: seq<Event>)
    requires CanRun(START, run)
    ensures Inv(RunAll(START, run))
  {
    RunKeepsInv(START, run);
  }

  /** Batches stay what they are, and their outcome changes once, from in flight. */
  ghost predicate Grown(old_: seq<Batch>, new_: seq<Batch>) {
    && |old_| <= |new_|
    && forall k :: 0 <= k < |old_| ==>
         && new_[k].hits == old_[k].hits
         && (old_[k].outcome != InFlight ==> new_[k].outcome == old_[k].outcome)
         && (new_[k].outcome == Cancelled ==> old_[k].outcome == Cancelled)
  }

  /** Every hit's promise is settled at most once. */
  lemma {:induction false} SettledOnce(s: State, run: seq<Event>)
    requires CanRun(s, run)
    ensures Grown(s.batches, RunAll(s, run).batches)
    decreases |run|
  {
    if run != [] {
      var next := Happen(s, run[0]);
      assert Grown(s.batches, next.batches) by { hide Hits, HitsOfAll; }
      hide Happen;
      SettledOnce(next, run[1..]);
    }
  }

  /** Until the next activation nothing is taken up and nothing is sent. */
  lemma {:induction false} SilentWhileDisabled(s: State, run: seq<Event>)
    requires Inv(s) && !s.enabled && CanRun(s, run)
    requires forall i :: 0 <= i < |run| ==> !run[i].UserActivates?
    ensures var t := RunAll(s, run);
            !t.enabled && t.accepted == s.accepted && |t.batches| == |s.batches|
    decreases |run|
  {
    if run != [] {
      HappenKeepsInv(s, run[0]);
      SilentWhileDisabled(Happen(s, run[0]), run[1..]);
    }
  }

  function Firings(n: nat): seq<Event> { seq(n, _ => TimerFires) }

  /** Left alone, the timers empty the queue, in as few batches as possible. */
  lemma {:induction false} TimersDrain(s: State)
    requires Inv(s)
    ensures var n := (|s.queue| + BATCH - 1) / BATCH;
            && CanRun(s, Firings(n)) && RunAll(s, Firings(n)).queue == []
            && Left(RunAll(s, Firings(n)).batches) == s.accepted
    decreases |s.queue|
  {
    var n := (|s.queue| + BATCH - 1) / BATCH;
    if s.queue != [] {
      var next := Process(s);
      HappenKeepsInv(s, TimerFires);
      hide Inv, Left;
      TimersDrain(next);
      assert (|next.queue| + BATCH - 1) / BATCH == n - 1;
      assert Firings(n)[1..] == Firings(n - 1);
      assert next.accepted == s.accepted;
    } else {
      assert Left(s.batches) + [] == Left(s.batches);
    }
  }

  // ---------- What was asked for ----------

  /** The objects in a payload, however deep they are nested. */
  function Objects(payload: Payload): seq<string> {
    match payload
    case Object(data) => [data]
    case List(items) => AllObjects(items)
    case Invalid => []
  }

  function AllObjects(items: seq<Payload>): seq<string> {
    if items == [] then [] else Objects(items[0]) + AllObjects(items[1..])
  }

  /** Who the user is after an event: a stored identity counts if it has the length of one. */
  function Identity(id: Option<string>, e: Event): Option<string> {
    if e.UserDeactivates? then None
    else if e.UserActivates? && id.None? then
      Some(if e.stored.Some? && |e.stored.value| == 36 then e.stored.value else e.made)
    else id
  }

  function Wished(kind: string, client: string, data: seq<string>): seq<Hit> {
    seq(|data|, i requires 0 <= i < |data| => Hit(kind, client, data[i]))
  }

  /** From the events alone: the hits to be sent, in order, if the user starts as id. */
  function AllWished(id: Option<string>, run: seq<Event>): seq<Hit>
    decreases |run|
  {
    if run == [] then []
    else
      var rest := AllWished(Identity(id, run[0]), run[1..]);
      if run[0].Report? && id.Some? then Wished(run[0].kind, id.value, Objects(run[0].payload)) + rest else rest
  }

  lemma {:induction false} HitsAsWished(kind: string, client: string, payload: Payload)
    ensures Hits(kind, client, payload) == Wished(kind, client, Objects(payload))
    decreases payload, 1
  {
    if payload.List? {
      AllHitsAsWished(kind, client, payload.items);
    }
  }

  lemma {:induction false} AllHitsAsWished(kind: string, client: string, items: seq<Payload>)
    ensures HitsOfAll(kind, client, items) == Wished(kind, client, AllObjects(items))
    decreases items, 0
  {
    if items != [] {
      HitsAsWished(kind, client, items[0]);
      AllHitsAsWished(kind, client, items[1..]);
    }
  }

  lemma HappenAsWished(s: State, e: Event)
    requires Inv(s) && CanHappen(s, e)
    ensures Happen(s, e).clientID == Identity(s.clientID, e)
    ensures var wished := if e.Report? && s.clientID.Some?
                          then Wished(e.kind, s.clientID.value, Objects(e.payload)) else [];
            Happen(s, e).accepted == s.accepted + wished
  {
    hide Hits, Left, Objects, Wished;
    if e.Report? && s.clientID.Some? {
      HitsAsWished(e.kind, s.clientID.value, e.payload);
    }
  }

  lemma {:induction false} RunAsWished(s: State, run: seq<Event>)
    requires Inv(s) && CanRun(s, run)
    ensures RunAll(s, run).accepted == s.accepted + AllWished(s.clientID, run)
    decreases |run|
  {
    hide Inv, Happen, Objects, Wished;
    if run != [] {
      HappenKeepsInv(s, run[0]);
      HappenAsWished(s, run[0]);
      RunAsWished(Happen(s, run[0]), run[1..]);
    }
  }

  /** In every run, what left and what still waits is what the enabled user's reports asked for, in order and once. */
  lemma NothingLost(run: seq<Event>)
    requires CanRun(START, run)
    ensures Left(RunAll(START, run).batches) + RunAll(START, run).queue == AllWished(None, run)
  {
    StartedInv(run);
    RunAsWished(START, run);
  }

  /** In every run, twenty waiting hits are on the short timer and fewer on the long one, and no request is larger. */
  lemma TimersFit(run: seq<Event>)
    requires CanRun(START, run)
    ensures var s := RunAll(START, run);
            && s.short == (|s.queue| >= 20) && s.long == (1 <= |s.queue| <= 19)
            && forall k :: 0 <= k < |s.batches| && s.batches[k].outcome != Cancelled ==> 1 <= |s.batches[k].hits| <= 20
  {
    StartedInv(run);
  }

  /** A timer takes the first twenty hits, or all if there are fewer; being turned off gives up all. */
  lemma BatchTaken(s: State, e: Event)
    requires Inv(s) && CanHappen(s, e)
    ensures var t := Happen(s, e);
            if e.TimerFires? then
              && |t.batches| == |s.batches| + 1 && t.batches[..|s.batches|] == s.batches
              && var taken := t.batches[|s.batches|];
                 && taken.outcome == InFlight && s.queue == taken.hits + t.queue
                 && (|taken.hits| == 20 || (|taken.hits| < 20 && t.queue == []))
            else if e.UserDeactivates? && s.enabled then
              t.batches == s.batches + [Batch(s.queue, Cancelled)] && t.queue == []
            else if e.RequestEnds? then
              t == s.(batches := s.batches[e.k := Batch(s.batches[e.k].hits, if e.ok then Resolved else Rejected)])
            else t.batches == s.batches && s.queue <= t.queue
  {
  }
}

/** The module itself, with its variables updated in place. */
module Analytics {
  import opened Common
  import opened AnalyticsProtocol

  class AnalyticsQueue {
    var enabled: bool
    var clientID: Option<string>
    var queue: seq<Hit>
    var queueTimeout: bool
    var queueShortTimeout: bool
    ghost var accepted: seq<Hit>
    ghost var batches: seq<Batch>

    ghost function View(): State
      reads this
    {
      State(enabled, clientID, queue, queueTimeout, queueShortTimeout, accepted, batches)
    }

    constructor ()
      ensures View() == START
    {
      enabled, clientID, queue, queueTimeout, queueShortTimeout := false, None, [], false, false;
      accepted, batches := [], [];
    }

    method Activate(stored: Option<string>, made: string)
      modifies this
      ensures View() == AnalyticsProtocol.Activate(old(View()), stored, made)
    {
      if !enabled {
        enabled := true;
        queue := [];
        if stored.Some? && |stored.value| == 36 {
          clientID := stored;
        } else {
          clientID := Some(made);
        }
      }
    }

    method Deactivate()
      modifies this
      ensures View() == AnalyticsProtocol.Deactivate(old(View()))
    {
      if enabled {
        enabled := false;
        clientID := None;
        CancelQueue();
      }
    }

    method CancelQueue()
      modifies this`queue, this`queueTimeout, this`queueShortTimeout, this`batches
      ensures queue == [] && !queueTimeout && !queueShortTimeout
      ensures batches == old(batches) + [Batch(old(queue), Cancelled)]
    {
      if queueTimeout {
        queueTimeout := false;
      }
      if queueShortTimeout {
        queueShortTimeout := false;
      }
      batches := batches + [Batch(queue, Cancelled)];
      queue := [];
    }

    /** processQueue, returning the hits of the request. */
    method ProcessQueue() returns (items: seq<Hit>)
      requires Inv(View()) && CanHappen(View(), TimerFires)
      modifies this
      ensures View() == Process(old(View())) && Inv(View())
      ensures 1 <= |items| <= BATCH && items <= old(queue)
    {
      HappenKeepsInv(View(), TimerFires);
      queueTimeout := false;
      queueShortTimeout := false;
      var n := Min(20, |queue|);
      items := queue[..n];
      queue := queue[n..];
      batches := batches + [Batch(items, InFlight)];
      if |queue| >= 20 {
        queueShortTimeout := true;
      } else if |queue| > 0 {
        queueTimeout := true;
      }
    }

    /** The guard of pageview, screenview and the other reporting methods, and then sendInternal. */
    method Report(kind: string, payload: Payload)
      requires Inv(View())
      modifies this
      ensures View() == AnalyticsProtocol.Send(old(View()), kind, payload) && Inv(View())
    {
      HappenKeepsInv(View(), Event.Report(kind, payload));
      if enabled {
        SendInternal(kind, payload);
      }
    }

    predicate TimersMatch()
      reads this
    {
      (queueShortTimeout <==> |queue| >= 20) && (queueTimeout <==> 0 < |queue| < 20)
    }

    method SendInternal(kind: string, payload: Payload)
      requires clientID.Some? && TimersMatch()
      modifies this`queue, this`queueTimeout, this`queueShortTimeout, this`accepted
      ensures View() == Enqueue(old(View()), Hits(kind, clientID.value, payload)) && TimersMatch()
      decreases payload
    {
      hide Hits, HitsOfAll;
      match payload
      case List(items) =>
        HitsOfList(kind, clientID.value, payload);
        for i := 0 to |items|
          invariant TimersMatch()
          invariant View() == Enqueue(old(View()), HitsOfAll(kind, clientID.value, items[..i]))
        {
          HitsSnoc(kind, clientID.value, items, i);
          SendInternal(kind, items[i]);
        }
        assert items[..|items|] == items;
      case Object(data) =>
        HitsOfObject(kind, clientID.value, payload);
        ghost var hit := Hit(kind, clientID.value, data);
        queue := queue + [Hit(kind, clientID.value, data)];
        accepted := accepted + [hit];
        if |queue| == 20 {
          if queueTimeout {
            queueTimeout := false;
          }
          if !queueShortTimeout {
            queueShortTimeout := true;
          }
        } else if !queueShortTimeout && !queueTimeout {
          queueTimeout := true;
        }
      case Invalid =>
        HitsOfInvalid(kind, clientID.value);
    }

    method RequestEnds(k: nat, ok: bool)
      requires CanHappen(View(), Event.RequestEnds(k, ok))
      modifies this`batches
      ensures View() == Settle(old(View()), k, ok)
    {
      batches := batches[k := batches[k].(outcome := if ok then Resolved else Rejected)];
    }
  }

  lemma HitsOfList(kind: string, client: string, payload: Payload)
    requires payload.List?
    ensures Hits(kind, client, payload) == HitsOfAll(kind, client, payload.items)
    ensures HitsOfAll(kind, client, []) == []
  {
  }

  lemma HitsOfObject(kind: string, client: string, payload: Payload)
    requires payload.Object?
    ensures Hits(kind, client, payload) == [Hit(kind, client, payload.data)]
  {
  }

  lemma HitsOfInvalid(kind: string, client: string)
    ensures Hits(kind, client, Invalid) == []
  {
  }

  lemma {:induction false} HitsAppend(kind: string, client: string, a: seq<Payload>, b: seq<Payload>)
    ensures HitsOfAll(kind, client, a + b) == HitsOfAll(kind, client, a) + HitsOfAll(kind, client, b)
  {
    hide Hits;
    if a == [] {
      assert a + b == b;
    } else {
      assert (a + b)[1..] == a[1..] + b;
      HitsAppend(kind, client, a[1..], b);
    }
  }

  lemma HitsSnoc(kind: string, client: string, items: seq<Payload>, i: nat)
    requires i < |items|
    ensures HitsOfAll(kind, client, items[..i + 1]) ==
            HitsOfAll(kind, client, items[..i]) + Hits(kind, client, items[i])
  {
    hide Hits;
    assert items[..i + 1] == items[..i] + [items[i]];
    HitsAppend(kind, client, items[..i], [items[i]]);
    assert [items[i]][1..] == [];
  }
}
