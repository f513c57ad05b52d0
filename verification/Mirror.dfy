/**
 The copies of the daemon's data in the client: the main process of
 client/src/daemon.js and the renderer of client/src/web/daemon.js.
 */
module Mirror {
  import opened Common
  import opened Json
  import opened DaemonProtocol

  /** Whether a member of a delta leaves the copy as it is, told by typeof and by the JSON text. */
  predicate Unchanged(target: map<Key, Json>, delta: map<Key, Json>, k: Key)
    requires k in delta
  {
    k in target && TypeOf(target[k]) == TypeOf(delta[k]) && Stringify(target[k]) == Stringify(delta[k])
  }

  /** filterChanges: what remains of a delta. */
  function FilterChanges(target: map<Key, Json>, delta: map<Key, Json>): map<Key, Json> {
    map k | k in delta && !Unchanged(target, delta, k) :: delta[k]
  }

  function Apply(target: map<Key, Json>, delta: map<Key, Json>): map<Key, Json> {
    target + FilterChanges(target, delta)
  }

  /** Filtering drops exactly the members that the copy already holds, so it never changes the outcome. */
  lemma FilterIsSound(target: map<Key, Json>, delta: map<Key, Json>)
    ensures Apply(target, delta) == target + delta
    ensures forall k :: k in FilterChanges(target, delta) <==> k in delta && !(k in target && target[k] == delta[k])
  {
    forall k | k in delta && k in target
      ensures Unchanged(target, delta, k) <==> target[k] == delta[k]
    {
      UniqueText(target[k], delta[k]);
    }
  }

  // ---------- The main process ----------

  /** What the main process sends to a window. */
  datatype Ipc = Up(values: map<Key, Json>) | Down | Post(values: map<Key, Json>)

  /** The main process; halted once it has disconnected from a daemon of another version.
      The Ipc messages are the ones it sent to the window, oldest first. */
  datatype Main = Main(version: string, open: bool, halted: bool, mirror: map<Key, Json>, toWindow: seq<Ipc>)

  predicate Complete(m: Message) {
    m.Data? && {CONFIG, ACCOUNT, SETTINGS, STATE_TABLE} <= m.tables
  }

  function Forward(p: Main, values: map<Key, Json>): Main {
    var delta := FilterChanges(p.mirror, values);
    p.(mirror := p.mirror + delta, toWindow := p.toWindow + [Post(delta)])
  }

  function AfterPost(p: Main, m: Message): Main {
    if p.open then Forward(p, if m.Data? then m.values else map[])
    else if !Complete(m) then p
    else if m.version != Some(p.version) then p.(halted := true)
    else Forward(p.(open := true, toWindow := p.toWindow + [Up(p.mirror)]), m.values)
  }

  function AfterError(p: Main): Main {
    p.(open := false, toWindow := p.toWindow + [Down])
  }

  /** notifyWindowCreated. */
  function NotifyWindow(p: Main): Main {
    p.(toWindow := p.toWindow + [if p.open then Up(p.mirror) else Down])
  }

  class MainProcess {
    const version: string
    var isopen: bool
    var halted: bool
    var mirror: map<Key, Json>
    var toWindow: seq<Ipc>

    ghost function View(): Main
      reads this
    {
      Main(version, isopen, halted, mirror, toWindow)
    }

    constructor (version: string)
      ensures View() == Main(version, false, false, map[], [])
    {
      this.version := version;
      isopen, halted, mirror, toWindow := false, false, map[], [];
    }

    /** filterChanges, which deletes from the delta in place. */
    method Filter(target: map<Key, Json>, delta: map<Key, Json>) returns (filtered: map<Key, Json>)
      ensures filtered == FilterChanges(target, delta)
    {
      filtered := delta;
      var rest := delta.Keys;
      while rest != {}
        invariant rest <= delta.Keys
        invariant forall k :: k in filtered <==> k in delta && (k in rest || !Unchanged(target, delta, k))
        invariant forall k :: k in filtered ==> filtered[k] == delta[k]
        decreases |rest|
      {
        var k :| k in rest;
        if k in target && TypeOf(target[k]) == TypeOf(delta[k]) {
          if Stringify(target[k]) == Stringify(delta[k]) { filtered := filtered - {k}; }
        }
        rest := rest - {k};
      }
    }

    method OnPost(m: Message)
      modifies this
      ensures View() == AfterPost(old(View()), m)
    {
      if !isopen {
        if !Complete(m) { return; }
        if m.version != Some(version) {
          halted := true;
          return;
        }
        isopen := true;
        toWindow := toWindow + [Up(mirror)];
      }
      var delta := Filter(mirror, if m.Data? then m.values else map[]);
      mirror := mirror + delta;
      toWindow := toWindow + [Post(delta)];
    }

    method OnError()
      modifies this
      ensures View() == AfterError(old(View()))
    {
      isopen := false;
      toWindow := toWindow + [Down];
    }

    method NotifyWindowCreated()
      modifies this
      ensures View() == NotifyWindow(old(View()))
    {
      if isopen { toWindow := toWindow + [Up(mirror)]; } else { toWindow := toWindow + [Down]; }
    }
  }

  // ---------- The renderer ----------

  datatype Renderer = Renderer(isOpen: bool, mirror: map<Key, Json>)

  function OnIpc(r: Renderer, i: Ipc): Renderer {
    match i
    case Up(values) => Renderer(true, r.mirror + values)
    case Down => r
    case Post(values) => Renderer(r.isOpen, r.mirror + values)
  }

  class RendererProcess {
    var isOpen: bool
    var mirror: map<Key, Json>

    ghost function View(): Renderer
      reads this
    {
      Renderer(isOpen, mirror)
    }

    constructor ()
      ensures View() == Renderer(false, map[])
    {
      isOpen, mirror := false, map[];
    }

    /** onpost: returns what filterChanges left of the delta. */
    method OnPost(delta: map<Key, Json>) returns (filtered: map<Key, Json>)
      modifies this`mirror
      ensures mirror == old(mirror) + delta && filtered == FilterChanges(old(mirror), delta)
    {
      filtered := FilterChanges(mirror, delta);
      FilterIsSound(mirror, delta);
      mirror := mirror + filtered;
    }

    /** up: the data are applied as a whole, and what is left of them once more table by table. */
    method GoUp(data: map<Key, Json>)
      modifies this
      ensures View() == OnIpc(old(View()), Up(data))
    {
      var left := OnPost(data);
      var tables := [CONFIG, ACCOUNT, SETTINGS, STATE_TABLE];
      var i := 0;
      while i < |tables|
        invariant mirror == old(mirror) + data
      {
        var again := OnPost(map k | k in left && TableOf(k) == tables[i] :: left[k]);
        i := i + 1;
      }
      isOpen := true;
    }
  }
}
