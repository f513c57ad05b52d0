/**
 The management channel to an OpenVPN process (daemon/openvpn.cpp): commands are
 posted, queued, and written one at a time once the process has connected.
 */
module ManagementProtocol {

  // ---------- State ----------

  /** Callbacks on the io_service, which runs them in the order they were posted. */
  datatype Task = Listen | Append(text: string) | Close

  /**
   The socket opens when the operating system hands over the connection, which is
   before the accept handler runs.
   */
  datatype Phase = Unused | Listening | HandedOver | Accepted | Refused

  /** Also counted: calls of Shutdown and of Kill, everything issued, and everything written. */
  datatype Pump = Pump(
    phase: Phase, open_: bool, failed: bool, queue: seq<string>, writing: seq<string>, posted: seq<Task>,
    signaled: bool, started: bool, kills: nat, shutdowns: nat, issued: seq<string>, written: seq<string>)

  const START := Pump(Unused, false, false, [], [], [], false, false, 0, 0, [], [])
  const NEWLINES := "\n\n\n"
  const SIGNAL := "\nsignal SIGTERM\n"

  // ---------- Handlers ----------

  function StartInterface(p: Pump): Pump {
    p.(started := true, posted := p.posted + [Listen], issued := p.issued + [NEWLINES])
  }

  function Issue(p: Pump, cmd: string): Pump {
    p.(posted := p.posted + [Append(cmd + "\n")], issued := p.issued + [cmd + "\n"])
  }

  function Write(p: Pump): Pump
    requires p.queue != []
  {
    p.(writing := p.writing + [p.queue[0]])
  }

  function RunTask(p: Pump): Pump
    requires p.posted != []
  {
    var q := p.(posted := p.posted[1..]);
    match p.posted[0]
    case Listen => q.(queue := q.queue + [NEWLINES], phase := Listening)
    case Append(text) =>
      var r := q.(queue := q.queue + [text]);
      if q.queue == [] && q.open_ then Write(r) else r
    case Close => q.(open_ := false)
  }

  /** The accept handler, which takes the front of the queue without asking whether there is one. */
  function OnAccept(p: Pump, error: bool): Pump
    requires !error ==> p.queue != []
  {
    if error then p.(phase := Refused) else Write(p.(phase := Accepted))
  }

  /** One pending write ends. */
  function OnWritten(p: Pump, k: nat, error: bool): Pump
    requires k < |p.writing| && (!error ==> p.queue != [])
  {
    var q := p.(writing := p.writing[..k] + p.writing[k + 1..]);
    if error then q.(failed := true)
    else
      var r := q.(queue := q.queue[1..], written := q.written + [p.writing[k]]);
      if r.queue != [] && r.open_ then Write(r) else r
  }

  function Shutdown(p: Pump): Pump {
    var q := p.(shutdowns := p.shutdowns + 1);
    if p.signaled then q.(kills := p.kills + 1)
    else (if p.open_ then Issue(q, SIGNAL) else q).(signaled := true)
  }

  datatype Event =
    | CallStart | CallSend(cmd: string) | CallStop | CallShutdown
    | TaskRuns | PeerConnects | AcceptEnds(refused: bool) | WriteEnds(k: nat, broken: bool)

  /** The interface is started once; only an open socket is closed; a pending operation ends once. */
  predicate CanHappen(p: Pump, e: Event) {
    match e
    case CallStart => !p.started
    case TaskRuns => p.posted != [] && (p.posted[0].Close? ==> p.open_)
    case PeerConnects => p.phase.Listening?
    case AcceptEnds(refused) => if refused then p.phase.Listening? else p.phase.HandedOver?
    case WriteEnds(k, _) => k < |p.writing|
    case _ => true
  }

  function Happen(p: Pump, e: Event): Pump
    requires CanHappen(p, e) && Inv(p)
  {
    match e
    case CallStart => StartInterface(p)
    case CallSend(cmd) => Issue(p, cmd)
    case CallStop => p.(posted := p.posted + [Close])
    case CallShutdown => Shutdown(p)
    case TaskRuns => RunTask(p)
    case PeerConnects => p.(phase := HandedOver, open_ := true)
    case AcceptEnds(refused) => OnAccept(p, refused)
    case WriteEnds(k, broken) => OnWritten(p, k, broken)
  }

  // ---------- What every run keeps ----------

  /** The texts that posted callbacks will put into the queue. */
  function Texts(tasks: seq<Task>): seq<string> {
    if tasks == [] then []
    else (match tasks[0] case Listen => [NEWLINES] case Append(text) => [text] case Close => []) + Texts(tasks[1..])
  }

  lemma {:induction false} TextsAppend(a: seq<Task>, b: seq<Task>)
    ensures Texts(a + b) == Texts(a) + Texts(b)
  {
    if a == [] {
      assert a + b == b;
    } else {
      assert (a + b)[1..] == a[1..] + b;
      TextsAppend(a[1..], b);
    }
  }

  /** What is issued is written, then queued, then posted, in this order. */
  predicate Conserved(p: Pump) { p.issued == p.written + p.queue + Texts(p.posted) }

  /** At most one write is pending, and its buffer is the front of the queue. */
  predicate OneWrite(p: Pump) {
    p.writing == [] || (p.queue != [] && p.writing == [p.queue[0]] && p.phase.Accepted?)
  }

  /** Once accepted, on an open socket without a write error, a non-empty queue is being written. */
  predicate Pumping(p: Pump) {
    p.phase.Accepted? && p.open_ && !p.failed && p.queue != [] ==> p.writing != []
  }

  /** Until the first write the queue has something to write. */
  predicate Phased(p: Pump) {
    && (p.open_ ==> p.phase.HandedOver? || p.phase.Accepted?)
    && (p.phase.Listening? || p.phase.HandedOver? ==> p.queue != [])
    && (p.phase.Accepted? || p.written == [])
    && (p.failed ==> p.phase.Accepted? && p.writing == [] && p.queue != [])
  }

  predicate Listens(p: Pump) {
    && (!p.started ==> p.phase.Unused?)
    && (!p.phase.Unused? ==> forall i :: 0 <= i < |p.posted| ==> !p.posted[i].Listen?)
    && (forall i, j :: 0 <= i < j < |p.posted| ==> !(p.posted[i].Listen? && p.posted[j].Listen?))
    && (!p.started ==> forall i :: 0 <= i < |p.posted| ==> !p.posted[i].Listen?)
  }

  /** The first shutdown asks, every further one kills. */
  predicate Signals(p: Pump) {
    (p.signaled <==> p.shutdowns > 0) && p.kills == if p.shutdowns == 0 then 0 else p.shutdowns - 1
  }

  predicate Inv(p: Pump) {
    Conserved(p) && OneWrite(p) && Pumping(p) && Phased(p) && Listens(p) && Signals(p)
  }

  lemma InvMeans(p: Pump)
    requires Inv(p)
    ensures OneWrite(p) && Pumping(p)
    ensures |p.writing| <= 1 && (p.writing != [] ==> p.queue != [] && p.writing[0] == p.queue[0])
    ensures p.phase.Accepted? && p.open_ && !p.failed && p.queue != [] ==> p.writing != []
  {
  }

  lemma TaskConserves(p: Pump)
    requires Conserved(p) && p.posted != []
    ensures Conserved(RunTask(p))
  {
    var q := RunTask(p);
    var text := match p.posted[0] case Listen => [NEWLINES] case Append(text) => [text] case Close => [];
    assert Texts(p.posted) == text + Texts(q.posted);
    assert q.written == p.written && q.issued == p.issued;
    assert q.queue == p.queue + text by { hide Texts; }
    hide Texts, RunTask;
    Regroup(p.written, p.queue, text, Texts(q.posted));
  }

  lemma Regroup(a: seq<string>, b: seq<string>, c: seq<string>, d: seq<string>)
    ensures a + b + (c + d) == a + (b + c) + d
  {
  }

  lemma WriteConserves(p: Pump, k: nat, broken: bool)
    requires Conserved(p) && OneWrite(p) && k < |p.writing|
    ensures Conserved(OnWritten(p, k, broken))
  {
    hide Texts;
    if !broken {
      assert p.queue == [p.queue[0]] + p.queue[1..];
      assert p.written + p.queue == (p.written + [p.queue[0]]) + p.queue[1..];
    }
  }

  lemma PostConserves(p: Pump, task: Task, q: Pump)
    requires Conserved(p) && q.written == p.written && q.queue == p.queue
    requires q.posted == p.posted + [task] && q.issued == p.issued + Texts([task])
    ensures Conserved(q)
  {
    PostOne(p.posted, task);
    hide Texts;
    assert p.written + p.queue + (Texts(p.posted) + Texts([task])) == p.issued + Texts([task]);
  }

  lemma HappenConserves(p: Pump, e: Event)
    requires Inv(p) && CanHappen(p, e)
    ensures Conserved(Happen(p, e))
  {
    hide Texts, Pumping, Phased, Listens, Signals;
    match e
    case TaskRuns => TaskConserves(p);
    case WriteEnds(k, broken) => WriteConserves(p, k, broken);
    case CallStart =>
      PostOne([], Listen);
      PostConserves(p, Listen, Happen(p, e));
    case CallSend(cmd) =>
      PostOne([], Append(cmd + "\n"));
      PostConserves(p, Append(cmd + "\n"), Happen(p, e));
    case CallStop =>
      PostOne([], Close);
      PostConserves(p, Close, Happen(p, e));
    case CallShutdown =>
      if !p.signaled && p.open_ {
        PostOne([], Append(SIGNAL + "\n"));
        PostConserves(p, Append(SIGNAL + "\n"), Happen(p, e));
      }
    case _ =>
  }

  lemma PostOne(tasks: seq<Task>, task: Task)
    ensures Texts(tasks + [task]) == Texts(tasks) + Texts([task])
    ensures Texts([task]) == match task case Listen => [NEWLINES] case Append(text) => [text] case Close => []
  {
    TextsAppend(tasks, [task]);
    assert [task][1..] == [];
  }

  predicate IsCall(e: Event) { e.CallStart? || e.CallSend? || e.CallStop? || e.CallShutdown? }

  /** A call only posts, at most one callback. */
  lemma CallsOnlyPost(p: Pump, e: Event)
    requires Inv(p) && CanHappen(p, e) && IsCall(e)
    ensures var q := Happen(p, e);
            && q.phase == p.phase && q.open_ == p.open_ && q.failed == p.failed
            && q.queue == p.queue && q.writing == p.writing && q.written == p.written
            && (q.started <==> p.started || e.CallStart?)
            && (q.posted == p.posted ||
                (exists t: Task :: q.posted == p.posted + [t] && (t.Listen? ==> e.CallStart?)))
  {
    hide Inv;
    match e
    case CallStart => assert Happen(p, e).posted == p.posted + [Listen];
    case CallSend(cmd) => assert Happen(p, e).posted == p.posted + [Append(cmd + "\n")];
    case CallStop => assert Happen(p, e).posted == p.posted + [Close];
    case CallShutdown =>
      assert Happen(p, e).posted == if !p.signaled && p.open_ then p.posted + [Append(SIGNAL + "\n")] else p.posted;
  }

  lemma TaskOutcome(p: Pump)
    requires p.posted != []
    ensures var q := RunTask(p);
            && q.posted == p.posted[1..] && q.issued == p.issued && q.started == p.started
            && q.failed == p.failed && q.written == p.written
            && q.phase == (if p.posted[0].Listen? then Listening else p.phase)
            && q.open_ == (p.open_ && !p.posted[0].Close?)
            && q.queue == p.queue + Texts(p.posted[..1])
            && q.writing == p.writing +
                            (if p.posted[0].Append? && p.queue == [] && p.open_ then [q.queue[0]] else [])
  {
    assert p.posted[..1][1..] == [];
  }

  lemma HappenListens(p: Pump, e: Event)
    requires Inv(p) && CanHappen(p, e)
    ensures Listens(Happen(p, e))
  {
    if IsCall(e) {
      CallsOnlyPost(p, e);
      hide Happen, Conserved, Pumping, Signals, OneWrite, Phased;
    } else if e.TaskRuns? {
      TaskOutcome(p);
      hide RunTask, Conserved, Pumping, Signals, OneWrite, Phased;
    } else {
      hide Conserved, Pumping, Signals, Phased;
    }
  }

  lemma HappenPumps(p: Pump, e: Event)
    requires Inv(p) && CanHappen(p, e)
    ensures OneWrite(Happen(p, e)) && Pumping(Happen(p, e)) && Phased(Happen(p, e))
  {
    if IsCall(e) {
      CallsOnlyPost(p, e);
      hide Happen, Conserved, Signals, Listens;
    } else if e.TaskRuns? {
      TaskOutcome(p);
      if p.posted[0].Listen? { assert p.phase.Unused?; }
      assert p.posted[..1][1..] == [];
      hide RunTask, Conserved, Signals, Listens;
    } else {
      hide Conserved, Signals, Listens;
    }
  }

  lemma HappenKeepsInv(p: Pump, e: Event)
    requires Inv(p) && CanHappen(p, e)
    ensures Inv(Happen(p, e))
  {
    HappenConserves(p, e);
    HappenListens(p, e);
    HappenPumps(p, e);
    HappenSignals(p, e);
    hide Happen, Conserved, OneWrite, Pumping, Phased, Listens, Signals;
  }

  lemma HappenSignals(p: Pump, e: Event)
    requires Inv(p) && CanHappen(p, e)
    ensures Signals(Happen(p, e))
  {
    hide Conserved, Pumping, Listens;
  }

  predicate CanRun(p: Pump, run: seq<Event>)
    requires Inv(p)
    decreases |run|
  {
    run == [] || (CanHappen(p, run[0]) &&
                  (HappenKeepsInv(p, run[0]); CanRun(Happen(p, run[0]), run[1..])))
  }

  function RunAll(p: Pump, run: seq<Event>): Pump
    requires Inv(p) && CanRun(p, run)
    decreases |run|
  {
    if run == [] then p
    else HappenKeepsInv(p, run[0]); RunAll(Happen(p, run[0]), run[1..])
  }

  lemma {:induction false} RunKeepsInv(p: Pump, run: seq<Event>)
    requires Inv(p) && CanRun(p, run)
    ensures Inv(RunAll(p, run))
    decreases |run|
  {
    if run != [] {
      HappenKeepsInv(p, run[0]);
      hide Inv, Happen;
      RunKeepsInv(Happen(p, run[0]), run[1..]);
    }
  }

  lemma WrittenIsPrefix(p: Pump)
    requires Conserved(p)
    ensures p.written <= p.issued
  {
    assert p.issued == p.written + (p.queue + Texts(p.posted));
  }

  /** What the process has read is always a prefix of what was issued, in the order of issue. */
  lemma WrittenInOrder(run: seq<Event>)
    requires CanRun(START, run)
    ensures var p := RunAll(START, run);
            && p.written <= p.issued
            && p.issued == p.written + p.queue + Texts(p.posted)
            && (p.writing == [] || (p.queue != [] && p.writing == [p.queue[0]]))
  {
    RunKeepsInv(START, run);
    WrittenIsPrefix(RunAll(START, run));
    hide RunAll, CanRun, Texts, Happen;
  }

  /** Over every run, a working socket with something to write is writing it. */
  lemma NeverStalls(run: seq<Event>)
    requires CanRun(START, run)
    ensures var p := RunAll(START, run);
            p.phase.Accepted? && p.open_ && !p.failed && p.queue != [] ==> p.writing == [p.queue[0]]
  {
    RunKeepsInv(START, run);
  }

  /** No callback writes anything, and with a failed channel nothing is pending that could. */
  lemma FailedStays(p: Pump, e: Event)
    requires OneWrite(p) && Phased(p) && p.failed && Inv(p) && CanHappen(p, e)
    ensures Happen(p, e).failed && Happen(p, e).written == p.written
  {
    if IsCall(e) {
      CallsOnlyPost(p, e);
      hide Happen, Inv, OneWrite, Phased;
    } else if e.TaskRuns? {
      TaskOutcome(p);
      hide RunTask, Inv, OneWrite, Phased;
    } else {
      hide Conserved, Pumping, Listens, Signals, RunTask, Issue, Shutdown, Texts;
    }
  }

  /** After a write error nothing is written any more. */
  lemma {:induction false} FailureIsFinal(p: Pump, run: seq<Event>)
    requires Inv(p) && p.failed && CanRun(p, run)
    ensures RunAll(p, run).failed && RunAll(p, run).written == p.written
    decreases |run|
  {
    if run != [] {
      HappenKeepsInv(p, run[0]);
      FailedStays(p, run[0]);
      hide Inv, Happen, CanHappen;
      FailureIsFinal(Happen(p, run[0]), run[1..]);
    }
  }

  /** A working channel that is left alone: every callback and every write has its turn. */
  ghost predicate Working(p: Pump) {
    p.phase.Accepted? && p.open_ && !p.failed && forall i :: 0 <= i < |p.posted| ==> !p.posted[i].Close?
  }

  /** On a working channel everything issued gets written, after one turn for each callback and each text. */
  lemma {:induction false} EverythingIsWritten(p: Pump) returns (run: seq<Event>)
    requires Inv(p) && Working(p)
    ensures CanRun(p, run) && RunAll(p, run).written == RunAll(p, run).issued == p.issued
    ensures |run| == |p.queue| + 2 * |p.posted|
    decreases |p.queue| + 2 * |p.posted|
  {
    if p.posted != [] {
      HappenKeepsInv(p, TaskRuns);
      var next := Happen(p, TaskRuns);
      assert !p.posted[0].Listen?;
      assert Working(next) && |next.queue| == |p.queue| + 1 && next.issued == p.issued;
      hide Inv, Happen;
      var rest := EverythingIsWritten(next);
      run := [TaskRuns] + rest;
      assert run[1..] == rest;
    } else if p.queue != [] {
      HappenKeepsInv(p, WriteEnds(0, false));
      var next := Happen(p, WriteEnds(0, false));
      assert Working(next) && |next.queue| == |p.queue| - 1 && next.issued == p.issued;
      hide Inv, Happen;
      var rest := EverythingIsWritten(next);
      run := [WriteEnds(0, false)] + rest;
      assert run[1..] == rest;
    } else {
      run := [];
      assert p.written + [] + [] == p.written;
    }
  }

  lemma HappenIssues(p: Pump, e: Event)
    requires Inv(p) && CanHappen(p, e)
    ensures p.issued <= Happen(p, e).issued
  {
    hide Inv;
    if e.TaskRuns? {
      TaskOutcome(p);
      hide RunTask;
    }
  }

  lemma {:induction false} IssuedGrows(p: Pump, run: seq<Event>)
    requires Inv(p) && CanRun(p, run)
    ensures p.issued <= RunAll(p, run).issued
    decreases |run|
  {
    if run != [] {
      var next := Happen(p, run[0]);
      HappenKeepsInv(p, run[0]);
      HappenIssues(p, run[0]);
      hide Inv, Happen;
      IssuedGrows(next, run[1..]);
    }
  }

  /** When the interface is started first, the process reads the newlines first. */
  lemma NewlinesComeFirst(run: seq<Event>)
    requires CanRun(START, run) && run != [] && run[0] == CallStart
    ensures var p := RunAll(START, run); p.written == [] || p.written[0] == NEWLINES
  {
    var next := Happen(START, CallStart);
    HappenKeepsInv(START, CallStart);
    IssuedGrows(next, run[1..]);
    assert next.issued[0] == NEWLINES;
    var p := RunAll(START, run);
    assert p == RunAll(next, run[1..]);
    assert p.issued[0] == NEWLINES;
    WrittenInOrder(run);
  }

  // ---------- What the callers asked for ----------

  /** The text that an event asks to be sent to the process, if it does. */
  function Demand(open_: bool, first: bool, e: Event): seq<string> {
    match e
    case CallStart => ["\n\n\n"]
    case CallSend(cmd) => [cmd + "\n"]
    case CallShutdown => if open_ && first then ["\nsignal SIGTERM\n\n"] else []
    case _ => []
  }

  /** All texts asked for in a run, in order; only the first shutdown of a connected process asks for one. */
  function Demanded(p: Pump, run: seq<Event>): seq<string>
    requires Inv(p) && CanRun(p, run)
    decreases |run|
  {
    if run == [] then []
    else
      HappenKeepsInv(p, run[0]);
      Demand(p.open_, p.shutdowns == 0, run[0]) + Demanded(Happen(p, run[0]), run[1..])
  }

  lemma HappenDemands(p: Pump, e: Event)
    requires Inv(p) && CanHappen(p, e)
    ensures Happen(p, e).issued == p.issued + Demand(p.open_, p.shutdowns == 0, e)
    ensures Happen(p, e).shutdowns == p.shutdowns + if e.CallShutdown? then 1 else 0
  {
    if e.TaskRuns? {
      TaskOutcome(p);
      hide RunTask, Inv;
    } else if e.CallShutdown? {
      assert p.signaled <==> p.shutdowns > 0;
      assert SIGNAL + "\n" == "\nsignal SIGTERM\n\n";
      hide Inv;
    } else {
      hide Inv;
    }
  }

  lemma {:induction false} RunDemands(p: Pump, run: seq<Event>)
    requires Inv(p) && CanRun(p, run)
    ensures RunAll(p, run).issued == p.issued + Demanded(p, run)
    ensures RunAll(p, run).shutdowns == p.shutdowns + Shutdowns(run)
    decreases |run|
  {
    hide Inv, Happen, CanHappen, Demand;
    if run == [] {
      assert p.issued + [] == p.issued;
    } else {
      var q := Happen(p, run[0]);
      HappenKeepsInv(p, run[0]);
      HappenDemands(p, run[0]);
      RunDemands(q, run[1..]);
      var d := Demand(p.open_, p.shutdowns == 0, run[0]);
      assert p.issued + d + Demanded(q, run[1..]) == p.issued + (d + Demanded(q, run[1..]));
    }
  }

  function Shutdowns(run: seq<Event>): nat {
    if run == [] then 0 else (if run[0].CallShutdown? then 1 else 0) + Shutdowns(run[1..])
  }

  /**
   Over every run: what the process has read, then what is queued, then what is posted
   are exactly the texts that were asked for, in order, and every shutdown call but the
   first has killed the process.
   */
  lemma WrittenAsDemanded(run: seq<Event>)
    requires CanRun(START, run)
    ensures var p := RunAll(START, run);
            && p.written + p.queue + Texts(p.posted) == Demanded(START, run)
            && p.kills == (if Shutdowns(run) == 0 then 0 else Shutdowns(run) - 1)
  {
    RunKeepsInv(START, run);
    RunDemands(START, run);
    hide RunAll, CanRun, Demanded, Shutdowns, Texts;
    assert [] + Demanded(START, run) == Demanded(START, run);
  }

  /** Over runs without a stop call: the socket is open exactly once the process has connected. */
  lemma {:induction false} OpenOnceConnected(p: Pump, run: seq<Event>)
    requires Inv(p) && CanRun(p, run) && forall i :: 0 <= i < |run| ==> run[i] != CallStop
    requires forall i :: 0 <= i < |p.posted| ==> !p.posted[i].Close?
    ensures RunAll(p, run).open_ <==> p.open_ || PeerConnects in run
    decreases |run|
  {
    if run != [] {
      var q := Happen(p, run[0]);
      HappenKeepsInv(p, run[0]);
      HappenOpens(p, run[0]);
      assert run == [run[0]] + run[1..];
      hide Inv, Happen, CanHappen;
      OpenOnceConnected(q, run[1..]);
    }
  }

  lemma HappenOpens(p: Pump, e: Event)
    requires Inv(p) && CanHappen(p, e) && e != CallStop
    requires forall i :: 0 <= i < |p.posted| ==> !p.posted[i].Close?
    ensures var q := Happen(p, e);
            (q.open_ <==> p.open_ || e == PeerConnects) && forall i :: 0 <= i < |q.posted| ==> !q.posted[i].Close?
  {
    if e.TaskRuns? {
      TaskOutcome(p);
      hide RunTask, Inv;
    } else {
      hide Inv;
    }
  }

  /** A shutdown before the process has connected is not passed on to it, and the next one kills. */
  lemma EarlyShutdownKills(p: Pump)
    requires Inv(p) && !p.signaled && !p.open_
    ensures Shutdown(p).issued == p.issued && Shutdown(Shutdown(p)).kills == 1
  {
  }
}

/** The process object, with its fields updated in place. */
module Management {
  import opened ManagementProtocol

  class OpenVPNProcess {
    var writeQueue: seq<string>
    var socketOpen: bool
    var signaled: bool
    ghost var phase: Phase
    ghost var failed: bool
    ghost var writing: seq<string>
    var posted: seq<Task>
    ghost var started: bool
    ghost var kills: nat
    ghost var shutdowns: nat
    ghost var issued: seq<string>
    ghost var written: seq<string>

    ghost function View(): Pump
      reads this
    {
      Pump(phase, socketOpen, failed, writeQueue, writing, posted, signaled, started, kills, shutdowns, issued, written)
    }

    constructor ()
      ensures View() == ManagementProtocol.START
    {
      writeQueue, socketOpen, signaled, posted := [], false, false, [];
      phase, failed, writing, started, kills, shutdowns, issued, written := Unused, false, [], false, 0, 0, [], [];
    }

    method StartManagementInterface()
      modifies this
      ensures View() == StartInterface(old(View()))
    {
      posted := posted + [Listen];
      started, issued := true, issued + [NEWLINES];
    }

    method SendManagementCommand(cmd: string)
      modifies this`posted, this`issued
      ensures View() == Issue(old(View()), cmd)
    {
      posted := posted + [Append(cmd + "\n")];
      issued := issued + [cmd + "\n"];
    }

    method AsyncWrite(text: string)
      modifies this`writing
      ensures writing == old(writing) + [text]
    {
      writing := writing + [text];
    }

    /** The io_service runs the callback posted first. */
    method RunPosted()
      requires posted != []
      modifies this
      ensures View() == RunTask(old(View()))
    {
      var task := posted[0];
      posted := posted[1..];
      match task
      case Listen =>
        writeQueue := writeQueue + ["\n\n\n"];
        phase := Listening;
      case Append(text) =>
        var first := writeQueue == [];
        writeQueue := writeQueue + [text];
        if first && socketOpen {
          AsyncWrite(writeQueue[0]);
        }
      case Close =>
        socketOpen := false;
    }

    method HandleAccept(error: bool)
      requires Inv(View()) && CanHappen(View(), AcceptEnds(error))
      modifies this
      ensures View() == OnAccept(old(View()), error)
    {
      if !error {
        phase := Accepted;
        AsyncWrite(writeQueue[0]);
      } else {
        phase := Refused;
      }
    }

    method HandleManagementWrite(k: nat, error: bool)
      requires Inv(View()) && CanHappen(View(), WriteEnds(k, error))
      modifies this
      ensures View() == OnWritten(old(View()), k, error)
    {
      ghost var text := writing[k];
      writing := writing[..k] + writing[k + 1..];
      if !error {
        writeQueue := writeQueue[1..];
        written := written + [text];
        if writeQueue != [] && socketOpen {
          AsyncWrite(writeQueue[0]);
        }
      } else {
        failed := true;
      }
    }

    method Shutdown()
      modifies this
      ensures View() == ManagementProtocol.Shutdown(old(View()))
    {
      shutdowns := shutdowns + 1;
      if !signaled {
        if socketOpen {
          SendManagementCommand("\nsignal SIGTERM\n");
        }
        signaled := true;
      } else {
        kills := kills + 1;
      }
    }

    method Called(e: Event)
      requires Inv(View()) && CanHappen(View(), e) && IsCall(e)
      modifies this
      ensures View() == Happen(old(View()), e)
    {
      hide Inv, ManagementProtocol.Shutdown, StartInterface, Issue;
      match e {
        case CallStart => StartManagementInterface();
        case CallSend(cmd) => SendManagementCommand(cmd);
        case CallStop => StopManagementInterface();
        case CallShutdown => Shutdown();
      }
    }

    /** A call, a posted callback or the end of an operation, and what the fields are like after each. */
    method Turn(e: Event)
      requires Inv(View()) && CanHappen(View(), e)
      modifies this
      ensures View() == Happen(old(View()), e) && Inv(View())
      ensures |writing| <= 1 && (writing != [] ==> writeQueue != [] && writing[0] == writeQueue[0])
      ensures phase.Accepted? && socketOpen && !failed && writeQueue != [] ==> writing != []
    {
      HappenKeepsInv(View(), e);
      InvMeans(Happen(View(), e));
      hide Inv, RunTask, OnAccept, OnWritten, OneWrite, Pumping;
      match e {
        case TaskRuns => RunPosted();
        case PeerConnects => phase, socketOpen := HandedOver, true;
        case AcceptEnds(refused) => HandleAccept(refused);
        case WriteEnds(k, broken) => HandleManagementWrite(k, broken);
        case _ => Called(e);
      }
    }

    method StopManagementInterface()
      modifies this`posted
      ensures posted == old(posted) + [Close]
    {
      posted := posted + [Close];
    }
  }
}
