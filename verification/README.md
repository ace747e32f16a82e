# Point-cloud viewer: time-slice pipeline model

This project models the logic of `js/wbls.js`, a browser viewer for the
simulated hits of a physics detector. Each event has one JSON document per
physics process (Cerenkov, Transportation, Attenuation,
G4FastSimulationManagerProcess). A process object (a PCO) loads its
document into four parallel sequences `x`, `y`, `z`, `t`. It then builds a
point cloud of the points whose time lies in a window, with the y and z
axes swapped and one colour per process. That cloud goes into the shared
scene group, replacing the process's previous cloud. GUI controls and two
keys change the options and trigger redraws.

Modules, one per component:

- `Wrappers` (`wrappers.dfy`): `Option` and `Result`.
- `Loader` (`loader.dfy`): the document, the loader as written (`InitData`, with JavaScript `undefined` for a missing entry), and the corrected loader `Load` that the rest of the model uses.
- `Slice` (`slice.dfy`): the process colour, the half-open time window, the vertex with its axis swap, and the filter that builds a cloud's vertices and colours.
- `SceneGraph` (`scene.dfy`): process objects, the group as a set of object identifiers, drawing one process, loading one process, and redrawing all processes in order.
- `Controls` (`controls.dfy`): the options, the GUI handlers, slice stepping, the key handler and the two routes.

Times are `real`. The source only compares and adds them, so the 0.1 steps are exact here.
Each new point cloud is a fresh object. The model identifies it by the index of its process and a serial number that each redraw of that process increments.
The main invariant is `SceneGraph.NoStaleCloud`: every cloud in the group is the current cloud of a loaded process. Every handler preserves it.

The redraw loop follows the source in two ways:
- It does not check visibility, so a redraw re-attaches the cloud of a hidden process.
- A process whose document never arrived has no `x` array. Drawing it throws, which ends the loop at that process.

The key-press slice steps are not clamped to [0, 10]. Each step is guarded only before it is taken, as the code does.

## Model

| member | source | states |
|---|---|---|
| `Loader.InitData` | js/wbls.js:85-99 | the loader copies exactly `x.length` entries of each array, in order; entry i of `x` is `x[i]`, and entry i of `y`, `z` or `t` is that array's value or `undefined` when the array is shorter |
| `Loader.Load` | js/wbls.js:92-97 | the corrected loader succeeds exactly when `y`, `z` and `t` are at least as long as `x`, and then holds four equal-length sequences whose element i equals element i of the document; otherwise it names the first short sequence |
| `Loader.LoadAgreesWithInitData` | js/wbls.js:85-99 | the corrected loader accepts a document exactly when the loader as written copies no `undefined`, and then both hold the same numbers |
| `Slice.ProcessColor` | js/wbls.js:104-114 | yellow 0xffff14 for Cerenkov, red 0xff0000 for Attenuation, green 0x00ff00 for G4FastSimulationManagerProcess, and blue 0x0000ff for exactly every other name |
| `Slice.ProcessColorsDistinct` | js/wbls.js:104-114 | Transportation is blue, and the four processes of the viewer get four different colours |
| `Slice.Vertex` | js/wbls.js:141-144 | the vertex of point i is `(x[i], z[i], y[i])`, which swaps the y and z axes |
| `Slice.KeptIndices` | js/wbls.js:137-140 | the kept indices among the first n points are at most n in number and all below n |
| `Slice.FilterUpTo` | js/wbls.js:136-148 | after n iterations the vertex list and the colour list both have one entry per kept index, and every colour is the process colour |
| `Slice.Filter` | js/wbls.js:128-148 | the built cloud has equally many vertices and colours, no more than the record has points, all in the process colour |
| `Slice.KeptIndicesExactly` | js/wbls.js:139-140 | index i is kept exactly when it is within the record and `start <= t[i] < start + width` |
| `Slice.KeptIndicesAscending` | js/wbls.js:137-140 | the kept indices are strictly ascending, so the record's order is preserved and no point is drawn twice |
| `Slice.FilterUpToVertices` | js/wbls.js:137-147 | the k-th pushed vertex is the swapped vertex of the k-th kept index |
| `Slice.FilterSpec` | js/wbls.js:128-148 | the filter draws exactly the in-window points, in record order, each with y and z swapped and in the process colour |
| `Slice.KeptIndicesAll` | js/wbls.js:137-140 | when every time is in the window, every index is kept, in order |
| `Slice.KeptIndicesMissing` | js/wbls.js:140 | an index outside the window leaves fewer kept indices than points |
| `Slice.AllTimeDrawsEverything` | js/wbls.js:157-159 | the all-time view `[0, 1e9)` draws every point, in order, when all times are in that range, and drops a point with a time below 0 or at or above 1e9 |
| `Slice.FilterAllTime` | js/wbls.js:157-159 | the all-time view has one colour per vertex, all the process colour, and draws every point in record order with y and z swapped when all times are in [0, 1e9) |
| `Slice.WindowBoundaries` | js/wbls.js:140 | the window is half-open: a point at `start` is drawn when the width is positive, and a point at `start + width` is not |
| `Slice.TwoPointExample` | js/wbls.js:137-147 | x = [1, 2], y = [3, 4], z = [5, 6], t = [0.1, 0.5] with start 0 and width 0.3 draws only (1, 5, 3) |
| `Slice.JsKeptNumber` | js/wbls.js:140 | on a time that is present, the skip test `t < start \|\| t >= start + width` keeps exactly the half-open window |
| `Slice.MissingTimeShownInEveryWindow` | js/wbls.js:139-140 | a document with a short `t` gives a point whose time is `undefined`, every window keeps it, and the corrected loader refuses that document |
| `SceneGraph.OneCloudPerProcess` | js/wbls.js:132-153 | with no stale cloud in the group, at most one cloud per process is attached |
| `SceneGraph.Replace` | js/wbls.js:132-153 | detach-then-attach: the new cloud is a member, the previous one (when there was one) is not, and every other object keeps its membership |
| `SceneGraph.DrawInsideTimeSlice` | js/wbls.js:128-155 | drawing fails exactly for a process object without a record; otherwise the process keeps its record and colour, gets the window's geometry, and its new cloud replaces the old one in the group; nothing else changes; the group stays free of stale clouds |
| `SceneGraph.OnLoaded` | js/wbls.js:101-126 | built on the corrected loader `Loader.Load`: a refused document changes nothing; an accepted one loads the record, picks the colour by name, draws all time, and attaches the process's cloud; every other process object and every object that is not one of this process's clouds is unchanged |
| `SceneGraph.RedrawFrom` | js/wbls.js:362-369 | redrawing from index k redraws, in order, every process object from k up to the first one without a record: each keeps its record and colour, gets the window's geometry, and its new cloud replaces its old one in the group. That first unloaded process object and every later one stay as they were, and so does their clouds' membership. The earlier process objects and the helpers are untouched, names and loaded-ness are kept, and the group stays free of stale clouds |
| `SceneGraph.RedrawStep` | js/wbls.js:364-367 | one turn of the loop: drawing process object k and then redrawing the rest redraws every process object from k up to the first one without a record |
| `SceneGraph.RedrawAll` | js/wbls.js:362-369 | every process object before the first one without a record is redrawn with the window, and its new cloud replaces its old one in the group. That unloaded process object and every later one stay as they were, with their clouds' membership. The helpers' membership and the names are kept, and the group stays free of stale clouds |
| `SceneGraph.RedrawAllLoaded` | js/wbls.js:362-369 | when all process objects are loaded, every process is redrawn with the given window, and its cloud is replaced in the group |
| `Controls.Init` | js/wbls.js:193-214 | the group starts with the box and cylinder outlines the options ask for, and one unloaded process object per process, in process order |
| `Controls.ReDrawAllPCO` | js/wbls.js:362-369 | changes nothing outside frame mode; in frame mode it redraws every process with the current start and width; options unchanged |
| `Controls.OnFrameModeChange` | js/wbls.js:311-324 | sets the flag, then redraws every process inside the slice when on and inside `[0, 1e9)` when off |
| `Controls.OnStartChange` | js/wbls.js:330-334 | sets the start; outside frame mode the scene is unchanged, and in frame mode every process is redrawn with the new start and the current width |
| `Controls.OnWidthChange` | js/wbls.js:325-329 | sets the width; outside frame mode the scene is unchanged, and in frame mode every process is redrawn with the current start and the new width |
| `Controls.NextSlice` | js/wbls.js:371-375 | a start of 10 or more is left alone; otherwise the start grows by 0.1 and, in frame mode, every process is redrawn at the new start |
| `Controls.PrevSlice` | js/wbls.js:377-381 | a start of 0 or less is left alone; otherwise the start shrinks by 0.1 and, in frame mode, every process is redrawn at the new start |
| `Controls.OnKeyPress` | js/wbls.js:383-400 | 'k' steps forward, 'j' steps back, and every other key changes nothing; the viewer invariant is kept |
| `Controls.OnProcessToggle` | js/wbls.js:341-352 | sets the process's flag; its current cloud is attached exactly when the flag is set; a process without a cloud leaves the group alone; no other process's membership changes |
| `Controls.OnFetched` | js/wbls.js:73-78 | the fetch callback changes no option and keeps the viewer invariant; an accepted document leaves its process loaded with the all-time geometry in the process colour, whatever the frame mode |
| `Controls.FetchKeepsConsistencyOutsideFrameMode` | js/wbls.js:101-126 | outside frame mode, a document that arrives keeps a consistent viewer consistent |
| `Controls.FetchInFrameModeIgnoresSlice` | js/wbls.js:101-126 | a document that arrives in frame mode is drawn over all time: with frame mode on and the slice [0, 0.3), a Cerenkov point at t = 5 is shown, and the viewer is no longer consistent |
| `Controls.OnBoxHelperChange` | js/wbls.js:267-276 | the box outline is attached exactly when set, and nothing else changes |
| `Controls.OnCylinderHelperChange` | js/wbls.js:277-286 | the cylinder outline is attached exactly when set, and nothing else changes |
| `Controls.Reload` | js/wbls.js:47-50 | the route `/:eventId` sets the event id and no other option |
| `Controls.SetOrthoCamera` | js/wbls.js:52-55 | the route `/:eventId/orthocamera` sets the event id and the orthographic camera, and no other option |
| `Controls.OrthoRouteExtendsReload` | js/wbls.js:47-55 | the orthographic route is the plain route plus the camera choice; `/2/orthocamera` gives event 2 with the orthographic camera |
| `Controls.FrameModeRestoresConsistency` | js/wbls.js:311-324 | with every process loaded, after the frame-mode checkbox every process shows exactly the window the options now select |
| `Controls.SlidersKeepConsistency` | js/wbls.js:325-334 | with every process loaded and consistent, the start and width sliders keep every process showing the selected window |
| `Controls.SliceStepsKeepConsistency` | js/wbls.js:371-381 | with every process loaded and consistent, both slice steps keep every process showing the selected window |
| `Controls.RedrawReattachesHiddenProcesses` | js/wbls.js:149-153 | after the frame-mode checkbox, every loaded process's cloud is attached, including hidden ones, because no visibility flag is read |
| `Controls.FirstUnloadedBlocksRedraw` | js/wbls.js:314-323 | when the first process has no record, the frame-mode checkbox leaves the whole scene unchanged |
| `Controls.ToggleTwiceRestores` | js/wbls.js:341-352 | hiding a visible process and showing it again restores options and group, and so does showing a hidden process and hiding it again |
| `Controls.ToggleTwiceAfterRedrawDetaches` | js/wbls.js:341-352 | the round trip does not restore the group in every reachable state: after a redraw re-attaches a hidden process's cloud, showing and hiding that process detaches the cloud |
| `Controls.SliceSteps` | js/wbls.js:371-381 | a forward step then a back step restores the start for any start in (-0.1, 10); from [0, 10] a step stays within [0, 10.1) or (-0.1, 10]; a step from 9.95 ends at 10.05, so the range is not a strict clamp |

## Left out

- Fetching a document (`$.getJSON`) and the URL it is fetched from: network I/O. A fetch that fails is modelled by the process object staying `Unloaded`. A successful fetch is modelled by `SceneGraph.OnLoaded`, with the difference noted below.
- Camera, renderer, render loop, window resize and the helper outline geometry: calls into the rendering library. The helpers appear only as the two identifiers `HelperBox` and `HelperCylinder`.
- The material size and opacity sliders: they only write properties of the rendering library's material objects.
- The event-id control: it reloads the page with a new fragment, which is navigation.
- The router library and `parseInt`: the route handlers take an already-parsed integer.
- Clamping and step rounding of slider values by the GUI library: the slider handlers take the value as delivered.
- The unused `cutT` and the depth option.
- Floating-point rounding of repeated 0.1 steps: times are exact reals.
- `SceneGraph.OnLoaded`: uses the corrected loader, so it differs from the source on a document whose `y`, `z` or `t` is shorter than `x`. The source loads such a document with `undefined` entries and draws it; the model leaves the process `Unloaded`. Later redraws then differ too. In the source that process has an `x` array, so the redraw loop passes it and goes on to every later process. In the model `SceneGraph.RedrawFrom` stops at it, and no later process is redrawn.
- `Controls.OnProcessToggle`: for a process without a cloud, it relies on the rendering library ignoring an `undefined` argument to add and remove. That library code is not part of this model.
- The keys 'n' and 'p': their branches are empty.
- JavaScript iteration order over `listOfPCO` is modelled as the process list order, which is the order of insertion.

## Findings

| source | as written | input that shows it | evidently intended | confidence | as-written member | corrected member |
|---|---|---|---|---|---|---|
| js/wbls.js:92-97 and js/wbls.js:139-140 | the loader copies `x.length` entries of `y`, `z`, `t` without checking their lengths, so a short `t` yields `undefined`; both comparisons in the skip test are false on `undefined`, so that point is drawn in every time window | the document x = [1], y = [2], z = [3], t = [] | a document whose sequences are shorter than `x` is refused, so every drawn point has a time inside the window | medium, not executed | `Slice.MissingTimeShownInEveryWindow` | `Loader.Load` |

The processes' records in the model come from `Loader.Load`. A refused document leaves its process unloaded, as a failed fetch does.

The model also proves three behaviours as the code has them. Each leaves the shown points out of step with the options:
- `Controls.RedrawReattachesHiddenProcesses`: a hidden process reappears after any redraw. `Controls.ToggleTwiceAfterRedrawDetaches` shows that toggling its checkbox twice then changes the group.
- `SceneGraph.RedrawAll` and `Controls.FirstUnloadedBlocksRedraw`: one missing document stops the redraw of every later process.
- `Controls.FetchInFrameModeIgnoresSlice`: a document that arrives while frame mode is on is drawn over all time, because the callback does not read the frame-mode flag. The shown points then no longer match the slice.
