/** The browser source: its lifecycle fields, the tasks it hands to the
    engine thread, and the process-wide intrusive list of all sources.

    QueueCEFTask is `Engine.QueueCEFTask`: whether it accepts a task is the
    engine's `accepting` field, and every accepted task, together with every
    call made straight into a browser, is appended to `Engine.calls`. A
    synchronous task is taken to run when it is submitted. */
module BrowserSources {
  import opened Wrappers
  import opened Settings
  import opened KeyEvents
  import opened Cef

  /** Where a `p_prev_next` pointer points: at the list head
      `first_browser`, or at the `next` field of another source. */
  datatype Slot = Head | NextOf(owner: BrowserSource)

  /** A task handed to QueueCEFTask. */
  datatype Task =
      /** Asynchronous ExecuteOnBrowser: the handle is captured by value. */
    | Run(browser: Handle, op: BrowserOp)
      /** Synchronous ExecuteOnBrowser: the task reads the source's live
          handle when it runs; `found` is what it read (None: op skipped). */
    | RunSync(source: BrowserSource, op: BrowserOp, found: Option<Handle>)
      /** CreateBrowser's task; it reads the source's fields when it runs. */
    | Create(source: BrowserSource)
      /** ClearAudioStreams's task. */
    | ClearAudio(source: BrowserSource)

  datatype EngineCall =
    | Queued(task: Task)
      /** A call made straight into a browser from the caller's thread. */
    | Direct(browser: Handle, op: BrowserOp)

  /** The engine thread, seen from the sources. */
  class Engine {
    var accepting: bool
    var calls: seq<EngineCall>

    constructor (accepting: bool)
      ensures this.accepting == accepting && calls == []
    {
      this.accepting := accepting;
      calls := [];
    }

    method QueueCEFTask(task: Task) returns (ok: bool)
      modifies this`calls
      ensures ok == accepting
      ensures calls == old(calls) + Submitted(task, accepting)
    {
      if accepting {
        calls := calls + [Queued(task)];
      }
      ok := accepting;
    }

    method CallDirect(browser: Handle, op: BrowserOp)
      modifies this`calls
      ensures calls == old(calls) + [Direct(browser, op)]
    {
      calls := calls + [Direct(browser, op)];
    }
  }

  /** What one QueueCEFTask call adds to the log. */
  function Submitted(task: Task, accepting: bool): (calls: seq<EngineCall>)
    ensures calls == [] <==> !accepting
    ensures accepting ==> calls == [Queued(task)]
  {
    if accepting then [Queued(task)] else []
  }

  /** What an asynchronous ExecuteOnBrowser adds: nothing without a browser,
      else one task bound to the handle the source held at the call. */
  function AsyncCalls(browser: Option<Handle>, op: BrowserOp, accepting: bool): (calls: seq<EngineCall>)
    ensures browser.None? ==> calls == []
    ensures browser.Some? ==> calls == Submitted(Run(browser.value, op), accepting)
  {
    match browser
    case None => []
    case Some(h) => Submitted(Run(h, op), accepting)
  }

  /** What SendBrowserVisibility adds: a direct call when there is a browser. */
  function VisibilityCalls(browser: Option<Handle>, visible: bool): (calls: seq<EngineCall>)
    ensures browser.None? ==> calls == []
    ensures browser.Some? ==> calls == [Direct(browser.value, Visibility(visible))]
  {
    match browser
    case None => []
    case Some(h) => [Direct(h, Visibility(visible))]
  }

  /** The direct calls the creation task makes once CreateBrowserSync has
      returned `created`, as written: the audio mute dereferences the result
      with no null check, so a failed creation with audio rerouted faults
      (None here); SendBrowserVisibility does check. */
  function CreateFollowUpAsWritten(created: Option<Handle>, reroute: bool, showing: bool): (r: Option<seq<EngineCall>>)
    ensures r.None? <==> reroute && created.None?
    ensures r.Some? ==> r.value == CreateFollowUp(created, reroute, showing)
  {
    if !reroute then Some(VisibilityCalls(created, showing))
    else match created
      case None => None
      case Some(h) => Some([Direct(h, MuteAudio)] + VisibilityCalls(created, showing))
  }

  /** The direct calls as intended: mute the new browser only if there is
      one, then report the visibility to it. */
  function CreateFollowUp(created: Option<Handle>, reroute: bool, showing: bool): (r: seq<EngineCall>)
    ensures |r| == (if created.None? then 0 else if reroute then 2 else 1)
    ensures forall c :: c in r ==> c.Direct? && created == Some(c.browser)
    ensures created.Some? ==> r[|r| - 1] == Direct(created.value, Visibility(showing))
    ensures created.Some? ==> (Direct(created.value, MuteAudio) in r <==> reroute)
  {
    (if reroute && created.Some? then [Direct(created.value, MuteAudio)] else []) + VisibilityCalls(created, showing)
  }

  const VisibleChangedEvent: string := "obsSourceVisibleChanged"
  const ActiveChangedEvent: string := "obsSourceActiveChanged"

  class BrowserSource {
    // Intrusive list linkage: `next` and `p_prev_next`.
    var next: BrowserSource?
    var prevNext: Slot

    /** The engine's browser; None is a null CefRefPtr. */
    var cefBrowser: Option<Handle>
    /** A browser is to be created on the next Tick. */
    var createBrowser: bool
    var isShowing: bool
    var firstUpdate: bool
    /** The ten settings fields compared and stored by Update. */
    var current: Snapshot

    /** The source that owns the slot pointing at this one, if any. */
    function Predecessor(): BrowserSource?
      reads this
    {
      match prevNext
      case Head => null
      case NextOf(p) => p
    }

    /** Construction links the new source in at the head of the list. */
    constructor (registry: Registry, defaults: Snapshot)
      requires registry.Valid()
      modifies registry, (if registry.first == null then {} else {registry.first})`prevNext
      ensures registry.Valid() && registry.nodes == [this] + old(registry.nodes)
      ensures cefBrowser == None && !createBrowser && !isShowing && firstUpdate && current == defaults
    {
      cefBrowser := None;
      createBrowser := false;
      isShowing := false;
      firstUpdate := true;
      current := defaults;
      prevNext := Head;
      next := registry.first;
      new;
      ghost var nodes := registry.nodes;
      var oldFirst := registry.first;
      label Linked:
      if oldFirst != null {
        oldFirst.prevNext := NextOf(this);
      }
      registry.first := this;
      registry.nodes := [this] + registry.nodes;
      ghost var r := registry.nodes;
      forall i | 0 <= i < |r|
        ensures LinkedAt(r, i)
      {
        if i > 0 {
          var j := i - 1;
          assert r[i] == nodes[j] != this;
          assert old@Linked(LinkedAt(nodes, j));
          if j > 0 {
            assert DistinctAt(nodes, 0, j);
          }
        }
      }
      PrependKeepsDistinct(nodes, this);
    }

    /** The unlink the destructor performs: the successor's slot pointer
        takes this source's, and this source's slot takes its successor. */
    method Unlink(registry: Registry)
      requires registry.Valid() && this in registry.nodes
      modifies registry, (if next == null then {} else {next})`prevNext
      modifies (if Predecessor() == null then {} else {Predecessor()})`next
      ensures registry.Valid()
      ensures registry.nodes == RemoveAt(old(registry.nodes), IndexOf(old(registry.nodes), this))
      ensures unchanged(this)
    {
      ghost var nodes := registry.nodes;
      ghost var k := IndexOf(nodes, this);
      assert nodes[k] == this;
      assert LinkedAt(nodes, k);
      var successor := next;
      if successor != null {
        successor.prevNext := prevNext;
      }
      match prevNext {
        case Head =>
          registry.first := successor;
        case NextOf(p) =>
          p.next := successor;
      }
      registry.nodes := RemoveAt(registry.nodes, k);
      ghost var r := registry.nodes;
      if |r| > 0 {
        assert r[0] == nodes[if k == 0 then 1 else 0];
      }
      // Only nodes[k - 1].next and nodes[k + 1].prevNext were written.
      forall i | 0 <= i < |nodes|
        ensures i != k - 1 ==> nodes[i].next == old(nodes[i].next)
        ensures i != k + 1 ==> nodes[i].prevNext == old(nodes[i].prevNext)
      {
        if k > 0 && i != k - 1 {
          if i < k - 1 { assert DistinctAt(nodes, i, k - 1); } else { assert DistinctAt(nodes, k - 1, i); }
        }
        if k + 1 < |nodes| && i != k + 1 {
          if i < k + 1 { assert DistinctAt(nodes, i, k + 1); } else { assert DistinctAt(nodes, k + 1, i); }
        }
      }
      ghost var nexts, slots := old(Nexts(nodes)), old(Slots(nodes));
      forall i | 0 <= i < |nodes|
        ensures nexts[i] == SuccessorIn(nodes, i) && slots[i] == SlotIn(nodes, i)
      {
        assert old(LinkedAt(nodes, i));
      }
      UnlinkedListIsLinked(nodes, k, nexts, slots);
      RemoveAtKeepsDistinct(nodes, k);
    }

    /** ExecuteOnBrowser: the synchronous path queues a task that runs on
        the live handle; the asynchronous path queues nothing without a
        browser and otherwise binds the task to the current handle. */
    method ExecuteOnBrowser(engine: Engine, op: BrowserOp, async: bool)
      modifies engine`calls
      ensures async ==> engine.calls == old(engine.calls) + AsyncCalls(cefBrowser, op, engine.accepting)
      ensures !async ==> engine.calls == old(engine.calls) + Submitted(RunSync(this, op, cefBrowser), engine.accepting)
    {
      if !async {
        var ok := engine.QueueCEFTask(RunSync(this, op, cefBrowser));
      } else {
        var browser := cefBrowser;
        if browser.Some? {
          var ok := engine.QueueCEFTask(Run(browser.value, op));
        }
      }
    }

    /** CreateBrowser: queue the creation task and report whether it was taken. */
    method CreateBrowser(engine: Engine) returns (ok: bool)
      modifies engine`calls
      ensures ok == engine.accepting
      ensures engine.calls == old(engine.calls) + Submitted(Create(this), engine.accepting)
    {
      ok := engine.QueueCEFTask(Create(this));
    }

    /** The body of CreateBrowser's task, run by the engine thread: the
        browser CreateBrowserSync returns (`created`, None when creation
        failed) is stored, muted when audio is rerouted, and told whether the
        source is showing. */
    method RunCreateTask(engine: Engine, created: Option<Handle>, platform: Platform) returns (params: CreateParams)
      requires Queued(Create(this)) in engine.calls
      modifies this`cefBrowser, engine`calls
      ensures params == CreateParams(current.width, current.height, current.fps, current.url,
                                     platform.localFileScheme && current.isLocal, current.rerouteAudio)
      ensures cefBrowser == created
      ensures engine.calls == old(engine.calls) + CreateFollowUp(created, current.rerouteAudio, isShowing)
    {
      params := CreateParams(current.width, current.height, current.fps, current.url,
                             platform.localFileScheme && current.isLocal, current.rerouteAudio);
      cefBrowser := created;
      if current.rerouteAudio && created.Some? {
        engine.CallDirect(created.value, MuteAudio);
      }
      SendBrowserVisibility(engine, cefBrowser, isShowing);
    }

    /** DestroyBrowser: ask the engine to close the browser, then drop the
        handle whatever the engine does. */
    method DestroyBrowser(engine: Engine, async: bool)
      modifies this`cefBrowser, engine`calls
      ensures cefBrowser == None
      ensures async ==> engine.calls == old(engine.calls) + AsyncCalls(old(cefBrowser), Close, engine.accepting)
      ensures !async ==> engine.calls == old(engine.calls) + Submitted(RunSync(this, Close, old(cefBrowser)), engine.accepting)
    {
      ExecuteOnBrowser(engine, Close, async);
      cefBrowser := None;
    }

    method ClearAudioStreams(engine: Engine)
      modifies engine`calls
      ensures engine.calls == old(engine.calls) + Submitted(ClearAudio(this), engine.accepting)
    {
      var ok := engine.QueueCEFTask(ClearAudio(this));
    }

    /** The tail of Update, also run by `Update()` with no settings: drop the
        browser, clear audio, and ask for a new browser unless the source
        shuts down while invisible and is not showing. */
    method RestartBrowser(engine: Engine, sourceShowing: bool)
      modifies this`cefBrowser, this`createBrowser, this`firstUpdate, engine`calls
      ensures cefBrowser == None && !firstUpdate
      ensures createBrowser == (old(createBrowser) || !current.shutdown || sourceShowing)
      ensures engine.calls == old(engine.calls) + AsyncCalls(old(cefBrowser), Close, engine.accepting)
                              + Submitted(ClearAudio(this), engine.accepting)
    {
      DestroyBrowser(engine, true);
      ClearAudioStreams(engine);
      if !current.shutdown || sourceShowing {
        createBrowser := true;
      }
      firstUpdate := false;
    }

    /** Update: normalise the settings; when all ten values equal the stored
        ones, change nothing; otherwise store them and restart the browser. */
    method Update(engine: Engine, settings: Option<Data>, platform: Platform,
                  encode: string -> string, sourceShowing: bool)
      modifies this`current, this`cefBrowser, this`createBrowser, this`firstUpdate, engine`calls
      ensures settings.Some? && Normalize(settings.value, platform, encode) == old(current) ==>
                && current == old(current) && cefBrowser == old(cefBrowser)
                && createBrowser == old(createBrowser) && firstUpdate == old(firstUpdate)
                && engine.calls == old(engine.calls)
      ensures !(settings.Some? && Normalize(settings.value, platform, encode) == old(current)) ==>
                && current == (if settings.Some? then Normalize(settings.value, platform, encode) else old(current))
                && cefBrowser == None && !firstUpdate
                && createBrowser == (old(createBrowser) || !current.shutdown || sourceShowing)
                && engine.calls == old(engine.calls) + AsyncCalls(old(cefBrowser), Close, engine.accepting)
                                   + Submitted(ClearAudio(this), engine.accepting)
    {
      if settings.Some? {
        var d := settings.value;
        var url := if d.isLocalFile then d.localFile else d.url;
        if d.isLocalFile {
          url := NormalizeLocalFile(encode(url), platform);
        }
        var (u, local) := UpgradeLegacyUrl(url, d.isLocalFile, platform);
        var n := Snapshot(local, Int32(d.width), Int32(d.height), d.fpsCustom, Int32(d.fps),
                          d.shutdown, d.restartWhenActive, d.rerouteAudio, u, d.css);
        if n == current {
          return;
        }
        current := n;
      }
      RestartBrowser(engine, sourceShowing);
    }

    /** Tick: a pending creation is cleared only when the engine took the task. */
    method Tick(engine: Engine)
      modifies this`createBrowser, engine`calls
      ensures createBrowser == (old(createBrowser) && !engine.accepting)
      ensures engine.calls == old(engine.calls) + (if old(createBrowser) then Submitted(Create(this), engine.accepting) else [])
    {
      if createBrowser {
        var ok := CreateBrowser(engine);
        if ok {
          createBrowser := false;
        }
      }
    }

    /** SetShowing: a source that shuts down while invisible restarts on show
        and drops its browser on hide; any other source tells its page. */
    method SetShowing(engine: Engine, showing: bool, sourceShowing: bool)
      modifies this`isShowing, this`cefBrowser, this`createBrowser, this`firstUpdate, engine`calls
      ensures isShowing == showing
      ensures current.shutdown && showing ==>
                && cefBrowser == None && !firstUpdate
                && createBrowser == (old(createBrowser) || sourceShowing)
                && engine.calls == old(engine.calls) + AsyncCalls(old(cefBrowser), Close, engine.accepting)
                                   + Submitted(ClearAudio(this), engine.accepting)
      ensures current.shutdown && !showing ==>
                && cefBrowser == None && createBrowser == old(createBrowser) && firstUpdate == old(firstUpdate)
                && engine.calls == old(engine.calls) + AsyncCalls(old(cefBrowser), Close, engine.accepting)
      ensures !current.shutdown ==>
                && cefBrowser == old(cefBrowser) && createBrowser == old(createBrowser) && firstUpdate == old(firstUpdate)
                && engine.calls == old(engine.calls) + AsyncCalls(cefBrowser, Visibility(showing), engine.accepting)
                                   + AsyncCalls(cefBrowser, JSEvent(VisibleChangedEvent, BoolField("visible", showing)), engine.accepting)
                                   + VisibilityCalls(cefBrowser, showing)
    {
      isShowing := showing;
      if current.shutdown {
        if showing {
          RestartBrowser(engine, sourceShowing);
        } else {
          DestroyBrowser(engine, true);
        }
      } else {
        ExecuteOnBrowser(engine, Visibility(showing), true);
        ExecuteOnSource(engine, JSEvent(VisibleChangedEvent, BoolField("visible", showing)), this);
        SendBrowserVisibility(engine, cefBrowser, showing);
      }
    }

    /** SetActive: tell the page, then raise the JavaScript event for this source. */
    method SetActive(engine: Engine, active: bool)
      modifies engine`calls
      ensures engine.calls == old(engine.calls) + AsyncCalls(cefBrowser, Active(active), engine.accepting)
                              + AsyncCalls(cefBrowser, JSEvent(ActiveChangedEvent, BoolField("active", active)), engine.accepting)
    {
      ExecuteOnBrowser(engine, Active(active), true);
      ExecuteOnSource(engine, JSEvent(ActiveChangedEvent, BoolField("active", active)), this);
    }

    method Refresh(engine: Engine)
      modifies engine`calls
      ensures engine.calls == old(engine.calls) + AsyncCalls(cefBrowser, Reload, engine.accepting)
    {
      ExecuteOnBrowser(engine, Reload, true);
    }

    /** SendKeyClick: the key events of one press or release, as one task. */
    method SendKeyClick(engine: Engine, input: KeyInput, keyUp: bool, linux: bool, toWide: string -> seq<nat>)
      modifies engine`calls
      ensures engine.calls == old(engine.calls)
                              + AsyncCalls(cefBrowser, Keys(KeyEventsFor(input, keyUp, linux, toWide)), engine.accepting)
    {
      ExecuteOnBrowser(engine, Keys(KeyEventsFor(input, keyUp, linux, toWide)), true);
    }

    /** The destructor: close the browser synchronously, then unlink. */
    method Destroy(engine: Engine, registry: Registry)
      requires registry.Valid() && this in registry.nodes
      modifies this`cefBrowser, engine`calls, registry, (if next == null then {} else {next})`prevNext
      modifies (if Predecessor() == null then {} else {Predecessor()})`next
      ensures cefBrowser == None
      ensures engine.calls == old(engine.calls) + Submitted(RunSync(this, Close, old(cefBrowser)), engine.accepting)
      ensures registry.Valid()
      ensures registry.nodes == RemoveAt(old(registry.nodes), IndexOf(old(registry.nodes), this))
    {
      DestroyBrowser(engine, false);
      ghost var nodes := registry.nodes;
      forall i | 0 <= i < |nodes|
        ensures LinkedAt(nodes, i)
      {
        assert old(LinkedAt(nodes, i));
      }
      Unlink(registry);
    }
  }

  /** SendBrowserVisibility: a direct call, made only when there is a browser. */
  method SendBrowserVisibility(engine: Engine, browser: Option<Handle>, visible: bool)
    modifies engine`calls
    ensures engine.calls == old(engine.calls) + VisibilityCalls(browser, visible)
  {
    if browser.Some? {
      engine.CallDirect(browser.value, Visibility(visible));
    }
  }

  /** The static ExecuteOnBrowser: the asynchronous path for a given source, if any. */
  method ExecuteOnSource(engine: Engine, op: BrowserOp, bs: BrowserSource?)
    modifies engine`calls
    ensures bs == null ==> engine.calls == old(engine.calls)
    ensures bs != null ==> engine.calls == old(engine.calls) + AsyncCalls(bs.cefBrowser, op, engine.accepting)
  {
    if bs != null {
      bs.ExecuteOnBrowser(engine, op, true);
    }
  }

  /** The list of all sources, headed by `first_browser`. */
  class Registry {
    var first: BrowserSource?
    /** The sources in list order. */
    ghost var nodes: seq<BrowserSource>

    /** The list is well linked: `first` heads it, each `next` points at the
        following source, each `p_prev_next` at the slot referring to its
        source, and no source appears twice. */
    ghost predicate Valid()
      reads this, nodes
    {
      && first == (if |nodes| == 0 then null else nodes[0])
      && (forall i, j :: 0 <= i < j < |nodes| ==> DistinctAt(nodes, i, j))
      && (forall i :: 0 <= i < |nodes| ==> LinkedAt(nodes, i))
    }

    constructor ()
      ensures Valid() && nodes == []
    {
      first := null;
      nodes := [];
    }

    /** ExecuteOnAllBrowsers: with the list locked, walk it and run `op`
        asynchronously on each source. */
    method ExecuteOnAllBrowsers(engine: Engine, op: BrowserOp)
      requires Valid()
      modifies engine`calls
      ensures engine.calls == old(engine.calls) + Broadcast(Handles(nodes), op, engine.accepting)
    {
      WalkList(engine, op, first, nodes);
    }

    /** DispatchJSEvent: to every source in list order, or only to `target`. */
    method DispatchJSEvent(engine: Engine, name: string, payload: Payload, target: BrowserSource?)
      requires Valid()
      modifies engine`calls
      ensures target == null ==> engine.calls == old(engine.calls) + Broadcast(Handles(nodes), JSEvent(name, payload), engine.accepting)
      ensures target != null ==> engine.calls == old(engine.calls) + AsyncCalls(target.cefBrowser, JSEvent(name, payload), engine.accepting)
    {
      if target == null {
        ExecuteOnAllBrowsers(engine, JSEvent(name, payload));
      } else {
        ExecuteOnSource(engine, JSEvent(name, payload), target);
      }
    }
  }

  /** The walk of ExecuteOnAllBrowsers: from `first`, follow `next` to the
      end of the list, running `op` asynchronously on each source. */
  method WalkList(engine: Engine, op: BrowserOp, first: BrowserSource?, ghost sources: seq<BrowserSource>)
    requires first == (if |sources| == 0 then null else sources[0])
    requires forall i :: 0 <= i < |sources| ==> LinkedAt(sources, i)
    modifies engine`calls
    ensures engine.calls == old(engine.calls) + Broadcast(Handles(sources), op, engine.accepting)
  {
    var bs := first;
    ghost var k := 0;
    ghost var hs := Handles(sources);
    while bs != null
      invariant 0 <= k <= |sources|
      invariant bs == (if k < |sources| then sources[k] else null)
      invariant engine.calls == old(engine.calls) + Broadcast(hs[..k], op, engine.accepting)
      decreases |sources| - k
    {
      // The walk changes only the log, so the links are those on entry.
      assert old(LinkedAt(sources, k));
      bs.ExecuteOnBrowser(engine, op, true);
      BroadcastPrefix(hs, k, op, engine.accepting);
      bs := bs.next;
      k := k + 1;
    }
    assert hs[..k] == hs;
  }

  /** The source at position `i` points at its successor, and its
      `p_prev_next` at the slot that refers to it. */
  ghost predicate LinkedAt(sources: seq<BrowserSource>, i: int)
    requires 0 <= i < |sources|
    reads sources
  {
    sources[i].next == SuccessorIn(sources, i) && sources[i].prevNext == SlotIn(sources, i)
  }

  /** Positions `i` and `j` of a list hold different sources. */
  ghost predicate DistinctAt(sources: seq<BrowserSource>, i: int, j: int)
    requires 0 <= i < |sources| && 0 <= j < |sources|
  {
    sources[i] != sources[j]
  }

  /** The `next` pointers of a list of sources, position by position. */
  ghost function Nexts(sources: seq<BrowserSource>): (r: seq<BrowserSource?>)
    reads sources
    ensures |r| == |sources| && forall i :: 0 <= i < |sources| ==> r[i] == sources[i].next
  {
    seq(|sources|, i requires 0 <= i < |sources| reads sources => sources[i].next)
  }

  /** The `p_prev_next` slots of a list of sources, position by position. */
  ghost function Slots(sources: seq<BrowserSource>): (r: seq<Slot>)
    reads sources
    ensures |r| == |sources| && forall i :: 0 <= i < |sources| ==> r[i] == sources[i].prevNext
  {
    seq(|sources|, i requires 0 <= i < |sources| reads sources => sources[i].prevNext)
  }

  /** Bypassing position `k` of a well-linked list whose links were `nexts`
      and `slots` (its predecessor's `next` takes its `next`, its successor's
      `p_prev_next` takes its `p_prev_next`) leaves the other sources well
      linked. */
  lemma UnlinkedListIsLinked(nodes: seq<BrowserSource>, k: nat, nexts: seq<BrowserSource?>, slots: seq<Slot>)
    requires k < |nodes| == |nexts| == |slots|
    requires forall i :: 0 <= i < |nodes| ==> nexts[i] == SuccessorIn(nodes, i)
    requires forall i :: 0 <= i < |nodes| ==> slots[i] == SlotIn(nodes, i)
    requires forall i :: 0 <= i < |nodes| && i != k - 1 ==> nodes[i].next == nexts[i]
    requires forall i :: 0 <= i < |nodes| && i != k + 1 ==> nodes[i].prevNext == slots[i]
    requires k > 0 ==> nodes[k - 1].next == nexts[k]
    requires k + 1 < |nodes| ==> nodes[k + 1].prevNext == slots[k]
    ensures forall i :: 0 <= i < |nodes| - 1 ==> LinkedAt(RemoveAt(nodes, k), i)
  {
    var r := RemoveAt(nodes, k);
    forall i | 0 <= i < |r|
      ensures LinkedAt(r, i)
    {
      var j := if i < k then i else i + 1;
      assert r[i] == nodes[j];
      if i + 1 < |r| {
        assert r[i + 1] == nodes[if i + 1 < k then i + 1 else i + 2];
      }
      if i > 0 {
        assert r[i - 1] == nodes[if i - 1 < k then i - 1 else i];
      }
    }
  }

  /** A source not yet listed can be put in front of a repeat-free list. */
  lemma PrependKeepsDistinct(sources: seq<BrowserSource>, s: BrowserSource)
    requires s !in sources
    requires forall i, j :: 0 <= i < j < |sources| ==> DistinctAt(sources, i, j)
    ensures forall i, j :: 0 <= i < j < |sources| + 1 ==> DistinctAt([s] + sources, i, j)
  {
    var r := [s] + sources;
    forall i, j | 0 <= i < j < |r|
      ensures DistinctAt(r, i, j)
    {
      if i > 0 {
        assert DistinctAt(sources, i - 1, j - 1);
      }
    }
  }

  /** Removing a position from a repeat-free list keeps it repeat-free. */
  lemma RemoveAtKeepsDistinct(sources: seq<BrowserSource>, k: nat)
    requires k < |sources|
    requires forall i, j :: 0 <= i < j < |sources| ==> DistinctAt(sources, i, j)
    ensures forall i, j :: 0 <= i < j < |sources| - 1 ==> DistinctAt(RemoveAt(sources, k), i, j)
  {
    var r := RemoveAt(sources, k);
    forall i, j | 0 <= i < j < |r|
      ensures DistinctAt(r, i, j)
    {
      var i', j' := if i < k then i else i + 1, if j < k then j else j + 1;
      assert DistinctAt(sources, i', j');
    }
  }

  /** The source after position `i` of a list, or null at its end. */
  function SuccessorIn(sources: seq<BrowserSource>, i: int): BrowserSource?
    requires 0 <= i < |sources|
  {
    if i + 1 < |sources| then sources[i + 1] else null
  }

  /** The slot that refers to position `i` of a list. */
  function SlotIn(sources: seq<BrowserSource>, i: int): Slot
    requires 0 <= i < |sources|
  {
    if i == 0 then Head else NextOf(sources[i - 1])
  }

  // ---------------------------------------------------------------------------
  // Sequences of sources and of handles.

  /** The browsers the sources hold, in list order. */
  function Handles(sources: seq<BrowserSource>): (hs: seq<Option<Handle>>)
    reads sources
    ensures |hs| == |sources|
    ensures forall i :: 0 <= i < |sources| ==> hs[i] == sources[i].cefBrowser
  {
    if sources == [] then [] else Handles(sources[..|sources| - 1]) + [sources[|sources| - 1].cefBrowser]
  }

  lemma HandlesAppend(sources: seq<BrowserSource>, s: BrowserSource)
    ensures Handles(sources + [s]) == Handles(sources) + [s.cefBrowser]
  {
  }

  /** What a walk over the list adds to the log, source by source. */
  function Broadcast(hs: seq<Option<Handle>>, op: BrowserOp, accepting: bool): seq<EngineCall>
  {
    if hs == [] then [] else Broadcast(hs[..|hs| - 1], op, accepting) + AsyncCalls(hs[|hs| - 1], op, accepting)
  }

  /** One more step of the walk adds that source's submission at the end. */
  lemma BroadcastPrefix(hs: seq<Option<Handle>>, k: nat, op: BrowserOp, accepting: bool)
    requires k < |hs|
    ensures Broadcast(hs[..k + 1], op, accepting) == Broadcast(hs[..k], op, accepting) + AsyncCalls(hs[k], op, accepting)
  {
    assert hs[..k + 1][..k] == hs[..k];
  }

  /** The handles that are present, in order. */
  function Live(hs: seq<Option<Handle>>): (live: seq<Handle>)
    ensures |live| <= |hs|
    ensures forall i :: 0 <= i < |hs| && hs[i].Some? ==> hs[i].value in live
    ensures forall h :: h in live ==> Some(h) in hs
  {
    if hs == [] then []
    else match hs[|hs| - 1]
      case None => Live(hs[..|hs| - 1])
      case Some(h) => Live(hs[..|hs| - 1]) + [h]
  }

  /** One Run task per handle, in order. */
  function RunAll(live: seq<Handle>, op: BrowserOp): (calls: seq<EngineCall>)
    ensures |calls| == |live|
    ensures forall i :: 0 <= i < |live| ==> calls[i] == Queued(Run(live[i], op))
  {
    seq(|live|, i requires 0 <= i < |live| => Queued(Run(live[i], op)))
  }

  /** A broadcast queues exactly one task per source that has a browser, in
      list order, when the engine accepts tasks, and nothing otherwise. */
  lemma {:induction false} BroadcastInListOrder(hs: seq<Option<Handle>>, op: BrowserOp, accepting: bool)
    ensures Broadcast(hs, op, accepting) == (if accepting then RunAll(Live(hs), op) else [])
  {
    if hs != [] {
      BroadcastInListOrder(hs[..|hs| - 1], op, accepting);
    }
  }

  // ---------------------------------------------------------------------------
  // Removal from the list.

  function IndexOf<T(==)>(s: seq<T>, x: T): (i: nat)
    requires x in s
    ensures i < |s| && s[i] == x
    ensures forall j :: 0 <= j < i ==> s[j] != x
  {
    if s[0] == x then 0 else 1 + IndexOf(s[1..], x)
  }

  function RemoveAt<T>(s: seq<T>, i: nat): (r: seq<T>)
    requires i < |s|
    ensures |r| == |s| - 1
    ensures forall j :: 0 <= j < |r| ==> r[j] == s[if j < i then j else j + 1]
  {
    s[..i] + s[i + 1..]
  }

  predicate Distinct<T(==)>(s: seq<T>) {
    forall i, j :: 0 <= i < j < |s| ==> s[i] != s[j]
  }

  /** `x` comes before `y` in `s`. */
  predicate Before<T(==)>(s: seq<T>, x: T, y: T) {
    exists a, b :: 0 <= a < b < |s| && s[a] == x && s[b] == y
  }

  /** Unlinking one source keeps exactly the others. */
  lemma RemoveAtKeepsOthers<T>(s: seq<T>, i: nat, x: T)
    requires i < |s| && Distinct(s)
    ensures x in RemoveAt(s, i) <==> x in s && x != s[i]
  {
    var r := RemoveAt(s, i);
    if x in s && x != s[i] {
      var a :| 0 <= a < |s| && s[a] == x;
      if a < i { assert r[a] == x; } else { assert r[a - 1] == x; }
    }
    if x in r {
      var a :| 0 <= a < |r| && r[a] == x;
      if a < i { assert s[a] == x; } else { assert s[a + 1] == x; }
    }
  }

  /** Unlinking one source leaves every other pair in the same relative order. */
  lemma RemoveAtKeepsOrder<T>(s: seq<T>, i: nat, x: T, y: T)
    requires i < |s| && x != s[i] && y != s[i]
    ensures Before(RemoveAt(s, i), x, y) <==> Before(s, x, y)
  {
    var r := RemoveAt(s, i);
    if Before(s, x, y) {
      var a, b :| 0 <= a < b < |s| && s[a] == x && s[b] == y;
      assert a != i && b != i;
      var a' := if a < i then a else a - 1;
      var b' := if b < i then b else b - 1;
      assert r[a'] == x && r[b'] == y;
    }
    if Before(r, x, y) {
      var a, b :| 0 <= a < b < |r| && r[a] == x && r[b] == y;
      var a' := if a < i then a else a + 1;
      var b' := if b < i then b else b + 1;
      assert s[a'] == x && s[b'] == y;
    }
  }
}
