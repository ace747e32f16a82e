/**
 * The process objects and the shared scene group: loading a process,
 * redrawing it inside a time window, and redrawing every process in turn.
 */
module SceneGraph {
  import opened Wrappers
  import opened Loader
  import opened Slice

  /**
   * An object that can be a member of the shared group: one of the two
   * helper outlines, or a point cloud. Every redraw of a process creates a
   * new cloud object; a cloud is identified by the index of its process and
   * by how many clouds that process had made before it.
   */
  datatype ObjId = HelperBox | HelperCylinder | Cloud(process: nat, serial: nat)

  /**
   * A process object. It stays `Unloaded` while its document is being
   * fetched and for good when the fetch fails; once loaded it holds its
   * record, its colour, the geometry of its current cloud and that cloud's
   * serial number.
   */
  datatype Pco =
    | Unloaded(name: string)
    | Loaded(name: string, rec: Record, color: Color, geometry: Geometry, serial: nat)

  /** The process objects in the order of the process list, and the members of the shared group. */
  datatype Scene = Scene(pcos: seq<Pco>, group: set<ObjId>)

  /** The current point cloud of the loaded process object at index i. */
  function CloudOf(i: nat, p: Pco): (o: ObjId)
    requires p.Loaded?
    ensures o.Cloud? && o.process == i
  {
    Cloud(i, p.serial)
  }

  /**
   * No stale cloud is attached: every cloud in the group is the current
   * cloud of a loaded process object.
   */
  predicate NoStaleCloud(s: Scene)
  {
    forall o | o in s.group && o.Cloud? ::
      o.process < |s.pcos| && s.pcos[o.process].Loaded? && o.serial == s.pcos[o.process].serial
  }

  /** A process has at most one cloud attached at a time. */
  lemma OneCloudPerProcess(s: Scene, o1: ObjId, o2: ObjId)
    requires NoStaleCloud(s)
    requires o1 in s.group && o2 in s.group && o1.Cloud? && o2.Cloud? && o1.process == o2.process
    ensures o1 == o2
  {
  }

  /** The error of drawing a process object that has no record: reading the length of an undefined array. */
  datatype Fault = UndefinedRecord

  /** Detach the previous cloud, when there is one, then attach the next. */
  function Replace(group: set<ObjId>, prev: Option<ObjId>, next: ObjId): (g: set<ObjId>)
    ensures next in g
    ensures prev.Some? && prev.value != next ==> prev.value !in g
    ensures forall o :: o != next && prev != Some(o) ==> (o in g <==> o in group)
  {
    (if prev.Some? then group - {prev.value} else group) + {next}
  }

  /**
   * Redraw process object i inside [start, start + width): the old cloud
   * leaves the group and a new cloud with the filtered geometry joins it,
   * whatever the visibility of the process. A process object without a
   * record fails with a fault and changes nothing.
   */
  function DrawInsideTimeSlice(s: Scene, i: nat, start: real, width: real): (r: Result<Scene, Fault>)
    requires i < |s.pcos|
    ensures r.Success? <==> s.pcos[i].Loaded?
    ensures r.Success? ==> |r.value.pcos| == |s.pcos|
    ensures r.Success? ==> forall j | 0 <= j < |s.pcos| && j != i :: r.value.pcos[j] == s.pcos[j]
    ensures r.Success? ==>
              var p, q := s.pcos[i], r.value.pcos[i];
              && q.Loaded? && q.name == p.name && q.rec == p.rec && q.color == p.color
              && q.geometry == Filter(p.rec, start, width, p.color)
              && CloudOf(i, q) in r.value.group
              && CloudOf(i, p) !in r.value.group
              && forall o | o != CloudOf(i, p) && o != CloudOf(i, q) :: o in r.value.group <==> o in s.group
    ensures r.Success? && NoStaleCloud(s) ==> NoStaleCloud(r.value)
  {
    match s.pcos[i]
    case Unloaded(_) => Failure(UndefinedRecord)
    case Loaded(name, rec, color, _, serial) =>
      var q := Loaded(name, rec, color, Filter(rec, start, width, color), serial + 1);
      Success(Scene(s.pcos[i := q], Replace(s.group, Some(Cloud(i, serial)), Cloud(i, serial + 1))))
  }

  /**
   * The fetch of process object i succeeded with document d: the record is
   * loaded, the colour is chosen by the process name, and the process is
   * drawn over all time. A document the loader refuses changes nothing, as
   * a failed fetch does.
   */
  function OnLoaded(s: Scene, i: nat, d: Document): (r: Scene)
    requires i < |s.pcos|
    ensures Load(d).Failure? ==> r == s
    ensures |r.pcos| == |s.pcos|
    ensures forall j | 0 <= j < |s.pcos| && j != i :: r.pcos[j] == s.pcos[j]
    ensures Load(d).Success? ==>
              var q := r.pcos[i];
              && q.Loaded? && q.name == s.pcos[i].name
              && q.rec == Load(d).value
              && q.color == ProcessColor(q.name)
              && q.geometry == FilterAllTime(q.rec, q.color)
              && CloudOf(i, q) in r.group
              && (s.pcos[i].Loaded? ==> CloudOf(i, s.pcos[i]) !in r.group)
              && forall o: ObjId | !o.Cloud? || o.process != i :: o in r.group <==> o in s.group
    ensures NoStaleCloud(s) ==> NoStaleCloud(r)
  {
    match Load(d)
    case Failure(_) => s
    case Success(rec) =>
      var p := s.pcos[i];
      var color := ProcessColor(p.name);
      var serial := if p.Loaded? then p.serial + 1 else 0;
      var prev := if p.Loaded? then Some(Cloud(i, p.serial)) else None;
      Scene(s.pcos[i := Loaded(p.name, rec, color, FilterAllTime(rec, color), serial)],
            Replace(s.group, prev, Cloud(i, serial)))
  }

  /** Every process object at an index in [k, u) holds a record. */
  predicate LoadedBetween(s: Scene, k: nat, u: nat)
  {
    forall j | k <= j < u && j < |s.pcos| :: s.pcos[j].Loaded?
  }

  /** Every process object holds a record. */
  predicate AllLoaded(s: Scene)
  {
    LoadedBetween(s, 0, |s.pcos|)
  }

  /**
   * Process object j of `s` was redrawn inside [start, start + width) to
   * give process object j of `r`: same record and colour, the window's
   * geometry, and its new cloud attached in place of the old one.
   */
  predicate Redrawn(s: Scene, r: Scene, j: nat, start: real, width: real)
    requires j < |s.pcos| && j < |r.pcos|
  {
    && s.pcos[j].Loaded? && r.pcos[j].Loaded?
    && r.pcos[j].rec == s.pcos[j].rec && r.pcos[j].color == s.pcos[j].color
    && r.pcos[j].geometry == Filter(s.pcos[j].rec, start, width, s.pcos[j].color)
    && CloudOf(j, r.pcos[j]) in r.group
    && CloudOf(j, s.pcos[j]) !in r.group
  }

  /**
   * Redraw the process objects from index k on, in order. Each one up to
   * the first process object without a record is redrawn; that one raises
   * a fault that ends the loop, so it and every later one stay as they were.
   */
  function RedrawFrom(s: Scene, k: nat, start: real, width: real): (r: Scene)
    requires k <= |s.pcos|
    ensures |r.pcos| == |s.pcos|
    ensures forall j | 0 <= j < |s.pcos| :: r.pcos[j].name == s.pcos[j].name && r.pcos[j].Loaded? == s.pcos[j].Loaded?
    ensures forall j | 0 <= j < k :: r.pcos[j] == s.pcos[j]
    ensures forall o: ObjId | !o.Cloud? || o.process < k :: o in r.group <==> o in s.group
    ensures forall j | k <= j < |s.pcos| && LoadedBetween(s, k, j + 1) :: Redrawn(s, r, j, start, width)
    ensures forall u, m | k <= u <= m < |s.pcos| && s.pcos[u].Unloaded? :: r.pcos[m] == s.pcos[m]
    ensures forall u, o: ObjId | k <= u < |s.pcos| && s.pcos[u].Unloaded? && o.Cloud? && u <= o.process ::
              o in r.group <==> o in s.group
    ensures NoStaleCloud(s) ==> NoStaleCloud(r)
    decreases |s.pcos| - k
  {
    if k == |s.pcos| then s
    else
      match DrawInsideTimeSlice(s, k, start, width)
      case Failure(_) => s
      case Success(s') =>
        var r := RedrawFrom(s', k + 1, start, width);
        RedrawStep(s, s', r, k, start, width);
        r
  }

  /**
   * One turn of the redraw loop: when process object k is drawn into s'
   * and the rest of the loop turns s' into r, each process object from k
   * up to the first one without a record is redrawn from s to r.
   */
  lemma RedrawStep(s: Scene, s': Scene, r: Scene, k: nat, start: real, width: real)
    requires k < |s.pcos|
    requires DrawInsideTimeSlice(s, k, start, width) == Success(s')
    requires |r.pcos| == |s.pcos|
    requires r.pcos[k] == s'.pcos[k]
    requires forall o: ObjId | !o.Cloud? || o.process < k + 1 :: o in r.group <==> o in s'.group
    requires forall j | k + 1 <= j < |s'.pcos| && LoadedBetween(s', k + 1, j + 1) :: Redrawn(s', r, j, start, width)
    ensures forall j | k <= j < |s.pcos| && LoadedBetween(s, k, j + 1) :: Redrawn(s, r, j, start, width)
  {
    forall j | k <= j < |s.pcos| && LoadedBetween(s, k, j + 1)
      ensures Redrawn(s, r, j, start, width)
    {
      if j == k {
        assert CloudOf(k, s'.pcos[k]) in s'.group;
      } else {
        assert s'.pcos[j] == s.pcos[j];
        assert LoadedBetween(s', k + 1, j + 1);
        assert Redrawn(s', r, j, start, width);
      }
    }
  }

  /**
   * Redraw every process object inside [start, start + width): each one
   * before the first process object without a record is redrawn, and that
   * one and every later one stay as they were.
   */
  function RedrawAll(s: Scene, start: real, width: real): (r: Scene)
    ensures |r.pcos| == |s.pcos|
    ensures forall j | 0 <= j < |s.pcos| :: r.pcos[j].name == s.pcos[j].name && r.pcos[j].Loaded? == s.pcos[j].Loaded?
    ensures forall o: ObjId | !o.Cloud? :: o in r.group <==> o in s.group
    ensures forall j | 0 <= j < |s.pcos| && LoadedBetween(s, 0, j + 1) :: Redrawn(s, r, j, start, width)
    ensures forall u, m | 0 <= u <= m < |s.pcos| && s.pcos[u].Unloaded? :: r.pcos[m] == s.pcos[m]
    ensures forall u, o: ObjId | 0 <= u < |s.pcos| && s.pcos[u].Unloaded? && o.Cloud? && u <= o.process ::
              o in r.group <==> o in s.group
    ensures NoStaleCloud(s) ==> NoStaleCloud(r)
  {
    RedrawFrom(s, 0, start, width)
  }

  /** Redrawing every loaded process object gives each the window's geometry and a freshly attached cloud. */
  lemma RedrawAllLoaded(s: Scene, start: real, width: real)
    requires AllLoaded(s)
    ensures var r := RedrawAll(s, start, width);
            forall j | 0 <= j < |s.pcos| ::
              && r.pcos[j].Loaded?
              && r.pcos[j].rec == s.pcos[j].rec && r.pcos[j].color == s.pcos[j].color
              && r.pcos[j].geometry == Filter(s.pcos[j].rec, start, width, s.pcos[j].color)
              && CloudOf(j, r.pcos[j]) in r.group
              && CloudOf(j, s.pcos[j]) !in r.group
  {
    var r := RedrawAll(s, start, width);
    forall j | 0 <= j < |s.pcos|
      ensures r.pcos[j].Loaded? && r.pcos[j].rec == s.pcos[j].rec && r.pcos[j].color == s.pcos[j].color
      ensures r.pcos[j].geometry == Filter(s.pcos[j].rec, start, width, s.pcos[j].color)
      ensures CloudOf(j, r.pcos[j]) in r.group && CloudOf(j, s.pcos[j]) !in r.group
    {
      assert LoadedBetween(s, 0, j + 1);
      assert Redrawn(s, r, j, start, width);
    }
  }
}
