/**
 * The viewer's options and the handlers that change them: the GUI
 * controls, the slice-stepping keys and the two routes.
 */
module Controls {
  import opened Loader
  import opened Slice
  import opened SceneGraph

  /** The processes of an event, in the order their objects are created and redrawn. */
  const Processes: seq<string> := ["Cerenkov", "Transportation", "Attenuation", "G4FastSimulationManagerProcess"]

  /**
   * The options the handlers read and write: event id, camera kind, helper
   * outlines, time-slice parameters and per-process visibility. The depth
   * and the material options are not part of this model.
   */
  datatype Options = Options(
    id: int,
    orthocamera: bool,
    boxHelper: bool,
    cylinderHelper: bool,
    frameMode: bool,
    start: real,
    width: real,
    showProcess: map<string, bool>)

  /** The options before any route or control has changed them. */
  const Defaults: Options := Options(0, false, true, false, false, 0.0, 0.3,
    map["Cerenkov" := true, "Transportation" := true, "Attenuation" := true,
        "G4FastSimulationManagerProcess" := true])

  /** The whole state of the viewer. */
  datatype App = App(options: Options, scene: Scene)

  /** One process object per process, in process order, and no stale cloud in the group. */
  predicate Wf(a: App)
  {
    && NoStaleCloud(a.scene)
    && |a.scene.pcos| == |Processes|
    && forall i | 0 <= i < |Processes| :: a.scene.pcos[i].name == Processes[i]
  }

  /**
   * The scene as the page starts it: the helper outlines the options ask
   * for, and one process object per process, each waiting for its document.
   */
  function Init(o: Options): (a: App)
    ensures Wf(a)
    ensures a.options == o
    ensures forall i | 0 <= i < |a.scene.pcos| :: a.scene.pcos[i].Unloaded?
    ensures forall obj: ObjId :: obj in a.scene.group <==>
              (obj == HelperBox && o.boxHelper) || (obj == HelperCylinder && o.cylinderHelper)
  {
    var group := (if o.boxHelper then {HelperBox} else {}) + (if o.cylinderHelper then {HelperCylinder} else {});
    App(o, Scene(seq(|Processes|, i requires 0 <= i < |Processes| => Unloaded(Processes[i])), group))
  }

  /** The window the current options draw: the slice in frame mode, otherwise all time. */
  function Window(o: Options): (w: (real, real))
  {
    if o.frameMode then (o.start, o.width) else (0.0, AllTimeWidth)
  }

  /** Every loaded process shows exactly the points of the window the options select. */
  predicate Consistent(a: App)
  {
    forall i | 0 <= i < |a.scene.pcos| && a.scene.pcos[i].Loaded? ::
      a.scene.pcos[i].geometry
        == Filter(a.scene.pcos[i].rec, Window(a.options).0, Window(a.options).1, a.scene.pcos[i].color)
  }

  /** Redraw every process inside the current slice, but only in frame mode. */
  function ReDrawAllPCO(a: App): (r: App)
    ensures r.options == a.options
    ensures !a.options.frameMode ==> r == a
    ensures a.options.frameMode ==> r.scene == RedrawAll(a.scene, a.options.start, a.options.width)
    ensures Wf(a) ==> Wf(r)
  {
    if a.options.frameMode then a.(scene := RedrawAll(a.scene, a.options.start, a.options.width)) else a
  }

  /**
   * The frame-mode checkbox: the flag is set, then every process is redrawn,
   * inside the slice when the flag is on and over all time when it is off.
   */
  function OnFrameModeChange(a: App, value: bool): (r: App)
    ensures r.options == a.options.(frameMode := value)
    ensures value ==> r.scene == RedrawAll(a.scene, a.options.start, a.options.width)
    ensures !value ==> r.scene == RedrawAll(a.scene, 0.0, AllTimeWidth)
    ensures Wf(a) ==> Wf(r)
  {
    var o := a.options.(frameMode := value);
    if value then App(o, RedrawAll(a.scene, o.start, o.width))
    else App(o, RedrawAll(a.scene, 0.0, AllTimeWidth))
  }

  /** The slice-start slider: the start is set, then the processes are redrawn in frame mode. */
  function OnStartChange(a: App, value: real): (r: App)
    ensures r.options == a.options.(start := value)
    ensures !a.options.frameMode ==> r.scene == a.scene
    ensures a.options.frameMode ==> r.scene == RedrawAll(a.scene, value, a.options.width)
    ensures Wf(a) ==> Wf(r)
  {
    ReDrawAllPCO(a.(options := a.options.(start := value)))
  }

  /** The slice-width slider: the width is set, then the processes are redrawn in frame mode. */
  function OnWidthChange(a: App, value: real): (r: App)
    ensures r.options == a.options.(width := value)
    ensures !a.options.frameMode ==> r.scene == a.scene
    ensures a.options.frameMode ==> r.scene == RedrawAll(a.scene, a.options.start, value)
    ensures Wf(a) ==> Wf(r)
  {
    ReDrawAllPCO(a.(options := a.options.(width := value)))
  }

  /**
   * Step the slice forward by 0.1 unless its start is already 10 or more.
   * The guard is checked before the step only.
   */
  function NextSlice(a: App): (r: App)
    ensures a.options.start >= 10.0 ==> r == a
    ensures a.options.start < 10.0 ==> r.options == a.options.(start := a.options.start + 0.1)
    ensures a.options.start < 10.0 && a.options.frameMode ==>
              r.scene == RedrawAll(a.scene, a.options.start + 0.1, a.options.width)
    ensures !a.options.frameMode ==> r.scene == a.scene
    ensures Wf(a) ==> Wf(r)
  {
    if a.options.start >= 10.0 then a
    else ReDrawAllPCO(a.(options := a.options.(start := a.options.start + 0.1)))
  }

  /**
   * Step the slice back by 0.1 unless its start is already 0 or less.
   * The guard is checked before the step only.
   */
  function PrevSlice(a: App): (r: App)
    ensures a.options.start <= 0.0 ==> r == a
    ensures a.options.start > 0.0 ==> r.options == a.options.(start := a.options.start - 0.1)
    ensures a.options.start > 0.0 && a.options.frameMode ==>
              r.scene == RedrawAll(a.scene, a.options.start - 0.1, a.options.width)
    ensures !a.options.frameMode ==> r.scene == a.scene
    ensures Wf(a) ==> Wf(r)
  {
    if a.options.start <= 0.0 then a
    else ReDrawAllPCO(a.(options := a.options.(start := a.options.start - 0.1)))
  }

  /** The key handler: 'k' (key code 107) steps forward, 'j' (106) steps back, any other key does nothing. */
  function OnKeyPress(a: App, which: int): (r: App)
    ensures which == 107 ==> r == NextSlice(a)
    ensures which == 106 ==> r == PrevSlice(a)
    ensures which != 106 && which != 107 ==> r == a
    ensures Wf(a) ==> Wf(r)
  {
    if which == 107 then NextSlice(a)
    else if which == 106 then PrevSlice(a)
    else a
  }

  /**
   * The visibility checkbox of process i: the flag is set and the process's
   * current cloud is attached or detached. A process without a cloud has
   * nothing to attach, and the group is left as it is.
   */
  function OnProcessToggle(a: App, i: nat, value: bool): (r: App)
    requires i < |a.scene.pcos|
    ensures r.options == a.options.(showProcess := a.options.showProcess[a.scene.pcos[i].name := value])
    ensures r.scene.pcos == a.scene.pcos
    ensures a.scene.pcos[i].Loaded? ==> (CloudOf(i, a.scene.pcos[i]) in r.scene.group <==> value)
    ensures a.scene.pcos[i].Unloaded? ==> r.scene.group == a.scene.group
    ensures forall o: ObjId | !o.Cloud? || o.process != i :: o in r.scene.group <==> o in a.scene.group
    ensures Wf(a) ==> Wf(r)
  {
    var p := a.scene.pcos[i];
    var o := a.options.(showProcess := a.options.showProcess[p.name := value]);
    var group :=
      if p.Unloaded? then a.scene.group
      else if value then a.scene.group + {CloudOf(i, p)}
      else a.scene.group - {CloudOf(i, p)};
    App(o, a.scene.(group := group))
  }

  /**
   * The fetch of process i succeeded with document d. The options are not
   * read: the process is drawn over all time even in frame mode.
   */
  function OnFetched(a: App, i: nat, d: Document): (r: App)
    requires i < |a.scene.pcos|
    ensures r.options == a.options
    ensures |r.scene.pcos| == |a.scene.pcos|
    ensures Load(d).Success? ==>
              && r.scene.pcos[i].Loaded?
              && r.scene.pcos[i].geometry == FilterAllTime(Load(d).value, ProcessColor(a.scene.pcos[i].name))
    ensures Wf(a) ==> Wf(r)
  {
    a.(scene := OnLoaded(a.scene, i, d))
  }

  /** Outside frame mode, a document that arrives keeps a consistent viewer consistent. */
  lemma FetchKeepsConsistencyOutsideFrameMode(a: App, i: nat, d: Document)
    requires i < |a.scene.pcos|
    requires !a.options.frameMode && Consistent(a)
    ensures Consistent(OnFetched(a, i, d))
  {
  }

  /**
   * A document that arrives in frame mode breaks consistency. With frame
   * mode turned on before any document arrived, the slice is [0, 0.3); the
   * Cerenkov document x = [1], y = [2], z = [3], t = [5] then shows its
   * point at t = 5, outside the slice.
   */
  lemma FetchInFrameModeIgnoresSlice()
    ensures var a := OnFrameModeChange(Init(Defaults), true);
            var r := OnFetched(a, 0, Document([1.0], [2.0], [3.0], [5.0]));
            && Wf(r) && r.options.frameMode
            && r.scene.pcos[0].geometry.vertices == [Vec3(1.0, 3.0, 2.0)]
            && !Consistent(r)
  {
    var a := OnFrameModeChange(Init(Defaults), true);
    var d := Document([1.0], [2.0], [3.0], [5.0]);
    var r := OnFetched(a, 0, d);
    var rec := Load(d).value;
    var p := r.scene.pcos[0];
    AllTimeDrawsEverything(rec, p.color);
    FilterSpec(rec, 0.0, 0.3, p.color);
    KeptIndicesExactly(rec.t, 0.0, 0.3, 1, 0);
    assert |Filter(rec, 0.0, 0.3, p.color).vertices| == 0;
    assert p.geometry != Filter(p.rec, Window(r.options).0, Window(r.options).1, p.color);
  }

  /** The box-helper checkbox attaches or detaches the box outline and nothing else. */
  function OnBoxHelperChange(a: App, value: bool): (r: App)
    ensures r.options == a.options.(boxHelper := value)
    ensures r.scene.pcos == a.scene.pcos
    ensures HelperBox in r.scene.group <==> value
    ensures forall o: ObjId | o != HelperBox :: o in r.scene.group <==> o in a.scene.group
    ensures Wf(a) ==> Wf(r)
  {
    var group := if value then a.scene.group + {HelperBox} else a.scene.group - {HelperBox};
    App(a.options.(boxHelper := value), a.scene.(group := group))
  }

  /** The tank-helper checkbox attaches or detaches the cylinder outline and nothing else. */
  function OnCylinderHelperChange(a: App, value: bool): (r: App)
    ensures r.options == a.options.(cylinderHelper := value)
    ensures r.scene.pcos == a.scene.pcos
    ensures HelperCylinder in r.scene.group <==> value
    ensures forall o: ObjId | o != HelperCylinder :: o in r.scene.group <==> o in a.scene.group
    ensures Wf(a) ==> Wf(r)
  {
    var group := if value then a.scene.group + {HelperCylinder} else a.scene.group - {HelperCylinder};
    App(a.options.(cylinderHelper := value), a.scene.(group := group))
  }

  /** The route `/:eventId`: the event id is set and no other option changes. */
  function Reload(o: Options, eventId: int): (r: Options)
    ensures r.id == eventId
    ensures r.(id := o.id) == o
  {
    o.(id := eventId)
  }

  /** The route `/:eventId/orthocamera`: the event id is set and the orthographic camera is chosen. */
  function SetOrthoCamera(o: Options, eventId: int): (r: Options)
    ensures r.id == eventId && r.orthocamera
    ensures r.(id := o.id, orthocamera := o.orthocamera) == o
  {
    o.(id := eventId, orthocamera := true)
  }

  /** The orthographic route is the plain route followed by the camera choice; the fragment `/2/orthocamera` selects event 2 in orthographic mode. */
  lemma OrthoRouteExtendsReload(o: Options, eventId: int)
    ensures SetOrthoCamera(o, eventId) == Reload(o, eventId).(orthocamera := true)
    ensures SetOrthoCamera(Defaults, 2).id == 2 && SetOrthoCamera(Defaults, 2).orthocamera
    ensures !Reload(Defaults, 2).orthocamera
  {
  }

  /**
   * Whatever the state before, the frame-mode checkbox leaves every process
   * of a fully loaded viewer showing exactly the window the options now select.
   */
  lemma FrameModeRestoresConsistency(a: App, value: bool)
    requires AllLoaded(a.scene)
    ensures Consistent(OnFrameModeChange(a, value))
  {
    var r := OnFrameModeChange(a, value);
    RedrawAllLoaded(a.scene, Window(r.options).0, Window(r.options).1);
  }

  /** In a fully loaded, consistent viewer, the start and width sliders keep it consistent. */
  lemma SlidersKeepConsistency(a: App, value: real)
    requires AllLoaded(a.scene)
    requires Consistent(a)
    ensures Consistent(OnStartChange(a, value))
    ensures Consistent(OnWidthChange(a, value))
  {
    assert Consistent(OnStartChange(a, value)) by {
      RedrawAllLoaded(a.scene, value, a.options.width);
    }
    assert Consistent(OnWidthChange(a, value)) by {
      RedrawAllLoaded(a.scene, a.options.start, value);
    }
  }

  /** In a fully loaded, consistent viewer, the slice-stepping keys keep it consistent. */
  lemma SliceStepsKeepConsistency(a: App)
    requires AllLoaded(a.scene)
    requires Consistent(a)
    ensures Consistent(NextSlice(a))
    ensures Consistent(PrevSlice(a))
  {
    assert Consistent(NextSlice(a)) by {
      RedrawAllLoaded(a.scene, a.options.start + 0.1, a.options.width);
    }
    assert Consistent(PrevSlice(a)) by {
      RedrawAllLoaded(a.scene, a.options.start - 0.1, a.options.width);
    }
  }

  /**
   * A redraw does not look at the visibility flags: after the frame-mode
   * checkbox, the cloud of every loaded process is attached, including the
   * processes whose checkbox is off.
   */
  lemma RedrawReattachesHiddenProcesses(a: App, value: bool)
    requires AllLoaded(a.scene)
    ensures var r := OnFrameModeChange(a, value);
            forall i | 0 <= i < |r.scene.pcos| :: CloudOf(i, r.scene.pcos[i]) in r.scene.group
  {
    var r := OnFrameModeChange(a, value);
    RedrawAllLoaded(a.scene, Window(r.options).0, Window(r.options).1);
  }

  /**
   * Toggling the checkbox twice does not restore the group in every
   * reachable state. A redraw re-attaches the cloud of a hidden process;
   * showing it and hiding it again then detaches that cloud.
   */
  lemma ToggleTwiceAfterRedrawDetaches(a: App, i: nat, value: bool)
    requires AllLoaded(a.scene) && i < |a.scene.pcos|
    requires a.scene.pcos[i].name in a.options.showProcess && !a.options.showProcess[a.scene.pcos[i].name]
    ensures var b := OnFrameModeChange(a, value);
            var c := CloudOf(i, b.scene.pcos[i]);
            && !b.options.showProcess[b.scene.pcos[i].name]
            && c in b.scene.group
            && c !in OnProcessToggle(OnProcessToggle(b, i, true), i, false).scene.group
  {
    var b := OnFrameModeChange(a, value);
    RedrawAllLoaded(a.scene, Window(b.options).0, Window(b.options).1);
  }

  /**
   * When the document of the first process never arrived, the redraw loop
   * fails on that process first, so the frame-mode checkbox leaves every
   * point cloud as it was.
   */
  lemma FirstUnloadedBlocksRedraw(a: App, value: bool)
    requires |a.scene.pcos| > 0 && a.scene.pcos[0].Unloaded?
    ensures OnFrameModeChange(a, value).scene == a.scene
  {
  }

  /**
   * Hiding a visible loaded process and showing it again restores the
   * options and the group, and so does showing a hidden one and hiding it again.
   */
  lemma ToggleTwiceRestores(a: App, i: nat)
    requires i < |a.scene.pcos| && a.scene.pcos[i].Loaded?
    ensures var name := a.scene.pcos[i].name;
            name in a.options.showProcess && a.options.showProcess[name] && CloudOf(i, a.scene.pcos[i]) in a.scene.group ==>
              OnProcessToggle(OnProcessToggle(a, i, false), i, true) == a
    ensures var name := a.scene.pcos[i].name;
            name in a.options.showProcess && !a.options.showProcess[name] && CloudOf(i, a.scene.pcos[i]) !in a.scene.group ==>
              OnProcessToggle(OnProcessToggle(a, i, true), i, false) == a
  {
    var name := a.scene.pcos[i].name;
    var c := CloudOf(i, a.scene.pcos[i]);
    if name in a.options.showProcess && a.options.showProcess[name] && c in a.scene.group {
      var r := OnProcessToggle(OnProcessToggle(a, i, false), i, true);
      assert r.options.showProcess == a.options.showProcess;
      assert r.scene.group == a.scene.group;
    }
    if name in a.options.showProcess && !a.options.showProcess[name] && c !in a.scene.group {
      var r := OnProcessToggle(OnProcessToggle(a, i, true), i, false);
      assert r.options.showProcess == a.options.showProcess;
      assert r.scene.group == a.scene.group;
    }
  }

  /**
   * Stepping forward and then back returns to the same slice start from any
   * start in (-0.1, 10). The guards bound the start only before each step:
   * from [0, 10] a step forward ends below 10.1 and a step back ends above
   * -0.1, and from 9.95 a step forward ends at 10.05, past 10.
   */
  lemma SliceSteps(a: App)
    ensures -0.1 < a.options.start < 10.0 ==> PrevSlice(NextSlice(a)).options == a.options
    ensures 0.0 <= a.options.start <= 10.0 ==> 0.0 <= NextSlice(a).options.start < 10.1
    ensures 0.0 <= a.options.start <= 10.0 ==> -0.1 < PrevSlice(a).options.start <= 10.0
    ensures a.options.start == 9.95 ==> NextSlice(a).options.start == 10.05
  {
  }
}
