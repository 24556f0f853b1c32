# Layer state machine of the Distant Worlds 3 science viewer

This project models the layer registry of a three.js astronomy viewer and
proves properties of that model. The registry is the `App` class, whose
static fields are its state. The model covers:

- **Load-once layers.** The star cloud, the colony-target cloud, helium, the
  density scan and the five stellar-mass layers each start absent. The first
  toggle issues a load; later toggles flip `visible`.
- **Guardian sites.** A master toggle over four optional sub-groups, plus a
  toggle per sub-group.
- **Isosurface stack.** Seven rank slots filled in any order, the iso slider
  and the completion counter.
- **Clipping slab.** An axis, a center and a thickness step give two
  half-space planes that every loaded iso mesh carries.
- **Allegiance gate.** Eight allegiance files are loaded at start-up. The
  GUI is built when the eighth completion is counted.
- **GUI handlers.** The sliders, mode buttons and panel headers that write
  this state.

Each asynchronous load is split into two steps: a toggle that issues it, and
a completion method that receives its outcome. This makes interleavings
expressible. Loads in flight are tracked in ghost state.

| file | module | what it holds |
|---|---|---|
| wrappers.dfy | `Wrappers` | `Option` |
| constants.dfy | `Constants` | the thickness steps and the axis ranges |
| slab.dfy | `Slab` | the clip state, the plane pair and the slab containment theorem |
| iso_style.dfy | `IsoStyle` | the opacity and hue each iso rank is drawn with |
| star_color.dfy | `StarColor` | the colour-temperature bands of the stellar-mass layers |
| vertex_colors.dfy | `VertexColors` | the helium colour-intensity recolouring, in place on an array |
| colony_query.dfy | `ColonyQuery` | the box query over the colony-target cloud |
| layers.dfy | `Layers` | the layer records and the pure rules the registry follows |
| app.dfy | `Viewer` | class `App`: the registry's fields and state-changing methods |
| gui.dfy | `Gui` | the GUI handlers, as methods on an `App` |

`App.Valid()` is the invariant that every method keeps. It requires that:

- the slider records are total;
- the highlighted mode's panel is shown, and at most one panel is shown;
- the iso counter equals the number of filled slots;
- every loaded iso mesh agrees with the slider;
- no mesh carries planes while clipping is off;
- the allegiance counter equals the number of files that arrived;
- the group table holds exactly the arrived files other than the Guardian one;
- the GUI is ready exactly when all eight files have arrived.

## Model

| member | source | states |
|---|---|---|
| Constants.AxisRange | js/constants.js:4-8 | every axis range has min < max; the three ranges are x [-20000, 70000], y [-10000, 10000], z [-45000, 45000] |
| Constants.Midpoint | js/ui.js:488-489 | the center an axis change jumps to lies strictly inside the axis range, equally far from both ends |
| Constants.ThicknessStepsAscending | js/constants.js:2 | the step table has 14 entries, runs from 10 to 90000 and is strictly ascending |
| Constants.ThicknessStepsEven | js/constants.js:2 | every step is positive and even |
| Constants.AxisMidpoints | js/constants.js:4-8 | the midpoints are x = 25000, y = 0, z = 0 |
| Slab.ThicknessFor | js/app.js:1011 | an index outside the table falls back to the first step, 10 (no clamping) |
| Slab.ThicknessIsEvenStep | js/app.js:1011-1012 | whatever the index, the thickness used is an even, positive table entry |
| Slab.LabelIndex | js/ui.js:481 | the label index is the index clamped into the table: itself when valid, 0 below, the last index above |
| Slab.LabelThickness | js/ui.js:480-484 | the label always shows a table entry |
| Slab.LabelAndPlanesAgreeOnlyInRange | js/ui.js:480-484 | label and planes agree on valid and negative indices; above the table the label shows 90000 while the planes use 10 |
| Slab.AntiNormalNegates | js/app.js:1014-1016 | the second plane's normal is the axis normal negated |
| Slab.SlabPlanes | js/app.js:1013-1017 | two planes: the first faces along the axis, the second against it |
| Slab.SlabFaces | js/app.js:1012-1016 | the faces are one thickness apart, centred on the center, with min < center < max |
| Slab.InsideSlabIff | js/app.js:1016-1017 | a point has non-negative signed distance to both planes iff its coordinate along the axis lies in [center - half, center + half] |
| Slab.IntegralCenterIntegralFaces | js/app.js:1012-1015 | a whole-number center gives whole-number faces |
| Slab.InitialSlab | js/app.js:102 | the start-up clip state gives the slab [-5, 5] along x and its exact plane pair |
| IsoStyle.RankFraction | js/app.js:1001 | t lies in [0, 1]; it is 1 at rank 0 and 0 at the last rank |
| IsoStyle.Opacity | js/app.js:1002 | a rank's opacity lies in [0.15, 0.65] |
| IsoStyle.Hue | js/app.js:1003 | a rank's hue lies in [0, 0.6] |
| IsoStyle.StackEndpoints | js/app.js:1000-1006 | in the stack of seven, rank 0 has opacity 0.65 and hue 0, rank 6 has opacity 0.15 and hue 0.6 |
| IsoStyle.OpacityDecreasesHueIncreases | js/app.js:1000-1006 | a finer rank is strictly more transparent and has a strictly larger hue |
| IsoStyle.OpacityHueLinked | js/app.js:1000-1006 | opacity = 0.65 - 5/6 hue for every rank |
| StarColor.StarColorFromTemp | js/app.js:521-557 | a temperature in [0, 1] gives hue, saturation and lightness in [0, 1] |
| StarColor.LighterWithinBand | js/app.js:527-555 | inside one spectral band a hotter temperature is strictly lighter |
| StarColor.LightnessDropsAtAToB | js/app.js:543-551 | across bands lightness is not monotone: 0.8 (band B) is darker than 0.79 (band A) |
| Layers.DefaultTemperatureBands | js/app.js:78-94 | the start records of the H, G, F, E and Wolf-Rayet layers put them in colour bands B, A, A, B and O |
| VertexColors.AdjustVertexColors | js/app.js:508-519 | the buffer ends equal to the recolouring of the snapshot, whatever it held, so a repeated call changes nothing |
| VertexColors.RecoloredVertex | js/app.js:512-516 | each vertex of the recoloured buffer is the snapshot vertex pulled towards red or blue by factor - 1 |
| VertexColors.SnapshotColors | js/app.js:482-486 | the snapshot is an exact copy of the colour buffer |
| VertexColors.FactorOneRestoresSnapshot | js/app.js:508-519 | at factor 1 the buffer equals the snapshot |
| VertexColors.NeutralVertexKept | js/app.js:513-516 | a vertex with red equal to blue keeps its snapshot colour at every factor |
| VertexColors.IntensityPushesToPrimary | js/app.js:513-515 | above factor 1 a reddish vertex gains red and loses green and blue; a bluish one gains blue and loses red and green |
| ColonyQuery.AnalyzePointsInBox | js/app.js:273-293 | no cloud gives no hits; otherwise the hits are the contained points in buffer order, each with the co-indexed id and x and z swapped |
| ColonyQuery.HitsUpToMembers | js/app.js:281-288 | a hit is reported iff it is the report of some point the box contains |
| ColonyQuery.AllInsideAllReported | js/app.js:281-288 | when the box contains every point, every point is reported |
| ColonyQuery.TwoPointScenario | js/app.js:273-293 | of two points, only the one inside the box is reported, with its id |
| Layers.FAndEShareTheGFile | js/app.js:776-834 | the F and E layers load the G layer's file; H and Wolf-Rayet have their own files |
| Layers.InitialMassState | js/app.js:76-94 | every mass layer starts at opacity 0.5 with a temperature in [0.7, 1] |
| Layers.InitialMassStates | js/app.js:76-94 | every mass class has its start record |
| Layers.InitialGuardianOpacities | js/app.js:57-71 | every Guardian site starts at opacity 0.5 |
| Layers.Switched | js/app.js:1037-1055 | after a switch, the chosen panel alone is shown and its mode is highlighted |
| Layers.InitialPanels | js/ui.js:5-8 | no panel shown and no mode highlighted, which keeps the highlighted-panel-shown invariant |
| Layers.SelectKeepsCurrentShown | js/ui.js:111-133 | a mode button keeps the highlighted mode's panel shown |
| Layers.HeaderAndCloseKeepCurrentShown | js/ui.js:193-529 | the header and close clicks of the Expedition Waypoints (193-200), Stellar Density (434-441) and Galaxy Visuals (522-529) panels keep the highlighted mode's panel shown |
| Layers.SelectTwiceHidesAll | js/ui.js:111-133 | choosing a mode that is not already active, then choosing it again, leaves no panel shown and no mode highlighted |
| Layers.SelectKeepsOnePanel | js/ui.js:111-133 | a mode button never leaves two panels shown |
| Layers.HeaderAndCloseKeepOnePanel | js/ui.js:193-529 | on a shown panel the header click does what the close button does (lines 193-200, 434-441 and 522-529), and neither leaves two panels shown |
| Layers.ClosingShownPanelHidesAll | js/ui.js:434-441 | with at most one panel shown, a header or close click on the shown panel leaves no panel shown and no mode highlighted |
| Layers.AllVisibleAs | js/app.js:402-404 | every allegiance group takes the visibility, opacities kept, same groups |
| Layers.AllOpacityAs | js/app.js:415-423 | every allegiance group takes the opacity, visibility kept, same groups |
| Layers.GateGroups | js/app.js:179-184 | at the gate every group takes the colonies visibility, and the colonies opacity only after the Guardian completion |
| Layers.PlaneShown | js/app.js:177 | at the gate the galactic plane ends present and visible: built from its record when absent, otherwise its opacity and height kept |
| Layers.Clamp01 | js/app.js:365 | the slider value clamped into [0, 1] |
| Layers.StarCloudNear | js/app.js:362-377 | the near opacity lies in [0, 0.8] and is 0.8 times the slider value inside [0, 1] |
| Layers.StarCloudFar | js/app.js:362-377 | the far opacity lies in [0, 0.02] and is always one fortieth of the near opacity |
| Layers.StarCloudOpacitySaturates | js/app.js:365 | values at or beyond the same end of [0, 1] give the same opacities |
| Layers.WithPlanesLastWins | js/app.js:1018 | handing out planes twice leaves only the second set |
| Layers.ShowUpToSetsPrefix | js/app.js:995-998 | a slider move keeps the filled slots, shows exactly the loaded ranks below it and changes nothing else |
| Layers.ShowUpToIdempotent | js/app.js:995-998 | moving the slider to where it already is changes nothing |
| Layers.ArrivalKeepsSliderConsistent | js/app.js:970-972 | an arriving mesh agrees with the slider it read |
| Layers.ArrivalsCommute | js/app.js:968-972 | meshes of different ranks may arrive in either order with the same result |
| Layers.SliderMoveAndArrivalCommute | js/app.js:970-972 | a slider move is honoured whether an in-flight mesh arrives before or after it |
| Layers.WithPlanesKeepsSlots | js/app.js:1018 | handing out planes keeps the slots and visibility, and every loaded mesh carries the planes |
| Layers.SameSlotsSameCount | js/app.js:973 | stacks with the same slots filled have the same count |
| Layers.FillRaisesCount | js/app.js:970-973 | filling an empty slot raises the count by one |
| Layers.FullCountIffAllLoaded | js/app.js:974 | the count is seven iff every slot is filled |
| Layers.EmptySlotsCountZero | js/app.js:967 | an empty stack counts zero |
| Layers.MasterToggled | js/app.js:613-619 | every loaded Guardian sub-group gets the negation of "some loaded one is visible"; unloaded ones stay unloaded |
| Layers.MasterToggleUniform | js/app.js:613-619 | after a master toggle all loaded sub-groups share one visibility |
| Layers.MasterToggleInvolutiveOnUniform | js/app.js:613-619 | on sub-groups that already agree, the master toggle is its own inverse |
| Layers.MasterToggleScenario | js/app.js:613-619 | beacons shown and the rest hidden: the first master toggle hides all four, the second shows all four |
| Layers.EightArrivedIffAll | js/app.js:192 | the count of distinct arrived files reaches eight iff all eight have arrived |
| Layers.ArriveKeepsKeys | js/app.js:168-191 | an arrival keeps the table's keys equal to the arrived files minus Guardian, and raises the count by one |
| Viewer.App.constructor | js/app.js:17-102 | every layer absent; the default slider records, colonies, iso and clip state; the eight allegiance loads issued; the invariant holds |
| Viewer.App.ToggleStarCloud | js/app.js:332-360 | an absent cloud issues a load; a present one flips visible |
| Viewer.App.CompleteStarCloudLoad | js/app.js:334-354 | a load that succeeds shows the cloud at the current slider's opacities; a failed one leaves it absent |
| Viewer.App.SetStarCloudOpacity | js/app.js:362-377 | records the value; a loaded cloud takes the clamped, scaled opacities |
| Viewer.App.ToggleColonyCloud | js/app.js:379-400 | an absent cloud issues a load; a present one flips visible |
| Viewer.App.CompleteColonyLoad | js/app.js:381-395 | a failed metadata fetch changes nothing; a geometry failure still stores the metadata; success stores both and shows the cloud |
| Viewer.App.ToggleColonizedSystems | js/app.js:402-413 | flips the colonies flag and gives every allegiance group the new flag |
| Viewer.App.SetColoniesOpacity | js/app.js:415-427 | records the opacity and gives it to every allegiance group |
| Viewer.App.ToggleGalacticPlane | js/app.js:429-452 | an absent plane is built visible from its record; a present one flips visible |
| Viewer.App.ToggleHeliumCloud | js/app.js:454-506 | an absent group issues a load; a present one flips visible |
| Viewer.App.CompleteHeliumLoad | js/app.js:456-498 | a load that succeeds shows the group at the recorded opacity, with its colours kept as the snapshot |
| Viewer.App.ToggleGuardianSites | js/app.js:559-632 | with no sub-group loaded, the four loads are issued; otherwise the master rule is applied to the loaded ones |
| Viewer.App.CompleteGuardianLoad | js/app.js:576-594 | a sub-load that succeeds inserts that site alone, visible, at its recorded opacity; a failed one changes no group |
| Viewer.App.ToggleGuardianSite | js/app.js:634-672 | a no-op while the site is absent; otherwise flips that site alone |
| Viewer.App.ToggleMass | js/app.js:674-723 | an absent layer issues a load; a present one flips visible |
| Viewer.App.CompleteMassLoad | js/app.js:680-706 | a load that succeeds shows the layer with the opacity and tint its record holds at completion; a failed one leaves it absent |
| Viewer.App.ToggleDensityScan | js/app.js:929-958 | an absent layer issues a load; a present one flips visible |
| Viewer.App.CompleteDensityScanLoad | js/app.js:935-952 | either outcome installs a visible group, a placeholder on failure |
| Viewer.App.ToggleIsoGroup | js/app.js:960-993 | the first call shows the container, resets the counter and issues the seven loads; later calls flip the container |
| Viewer.App.CompleteIsoLoad | js/app.js:969-982 | a success places the styled mesh, visible iff its rank is below the slider, and counts it; the seventh applies the planes when clipping is on; a failure changes nothing |
| Viewer.App.PlaceIsoMesh | js/app.js:970-973 | the slot holds the rank's styled mesh and the counter rises by one |
| Viewer.App.SetIsoVisibility | js/app.js:995-998 | records the slider and shows exactly the loaded ranks below it |
| Viewer.App.SetMeshPlanes | js/app.js:1018 | every loaded iso mesh carries the planes, and nothing else changes |
| Viewer.App.ApplyClippingPlanes | js/app.js:1008-1019 | a no-op while clipping is off; otherwise the slab plane pair is stored and handed to every loaded mesh |
| Viewer.App.ToggleClippingSlab | js/app.js:1021-1035 | flips the flag; enabling applies the planes; disabling clears every mesh's planes and keeps the clip state |
| Viewer.App.SwitchMode | js/app.js:1037-1055 | before the GUI exists, nothing happens; afterwards the chosen panel alone is shown and its mode is highlighted |
| Viewer.App.CompleteAllegianceLoad | js/app.js:162-206 | the GUI is ready iff all eight files have arrived; a failure changes nothing else; the eighth success opens the GUI with the gate's effects |
| Viewer.App.AllegianceArrived | js/app.js:168-203 | counts the file and inserts its group unless it is Guardian; on the eighth, runs the gate |
| Viewer.App.CountAllegiance | js/app.js:188-191 | arrived grows by the file, the count by one, and the table gains the file's group unless it is Guardian |
| Viewer.App.OpenGui | js/app.js:192-200 | after the gate the GUI is ready in Galaxy Visuals, the plane is shown and the groups are synchronised |
| Viewer.App.InitGuis | js/ui.js:584 | the GUI becomes ready with no panel shown, and the helium colour intensity is set to 1.0 |
| Viewer.App.ShowGalaxyDefaults | js/app.js:195-197 | switches to Galaxy Visuals and shows the galactic plane |
| Viewer.App.SyncAllegianceGroups | js/app.js:179-184 | every group takes the colonies visibility, and the colonies opacity after the Guardian completion |
| Gui.OnGalacticOpacityChange | js/ui.js:18-20 | the plane record takes the opacity, and so does a loaded plane |
| Gui.OnGalacticYChange | js/ui.js:23-25 | the plane record takes the height, and so does a loaded plane |
| Gui.OnStarCloudOpacityChange | js/ui.js:40-46 | the slider value is recorded, and a loaded cloud is rescaled |
| Gui.OnColoniesOpacityChange | js/ui.js:574-576 | the colonies opacity is recorded and given to every allegiance group |
| Gui.OnHeliumOpacityChange | js/ui.js:583 | the helium record takes the opacity, and so does a loaded group |
| Gui.OnHeliumColorIntensityChange | js/ui.js:585 | the record takes the intensity; a loaded group's colours become the recolouring of its snapshot |
| Gui.OnGuardianOpacityChange | js/ui.js:598 | the site's record always takes the value; the site's group takes it only once loaded |
| Gui.OnMassOpacityChange | js/ui.js:234-245 | the class's record always takes the value; the layer takes it only once loaded |
| Gui.OnMassColorTempChange | js/ui.js:249-261 | the class's record always takes the temperature; a loaded layer takes its band colour |
| Gui.OnIsoSliderChange | js/ui.js:458-461 | a whole-number slider value from 0 to 7 is forwarded to the stack |
| Gui.OnCenterChange | js/ui.js:473 | the center is recorded and the planes re-applied, which is a no-op while clipping is off |
| Gui.OnThicknessChange | js/ui.js:474 | the index is recorded and the planes re-applied; the label shows a table entry, the one the planes use when the index is valid |
| Gui.OnAxisChange | js/ui.js:487-495 | the clip state becomes (axis, midpoint, 0), the label shows 10 and the planes are those of the new state |
| Gui.AxisChangeSlab | js/ui.js:487-495 | after an axis change the slab is [midpoint - 5, midpoint + 5], strictly inside the axis range |
| Gui.SelectMode | js/ui.js:111-133 | pressing the highlighted mode while its panel is shown hides it and clears the highlight; any other press switches |
| Gui.HeaderClick | js/ui.js:437-441 | clicked on its shown panel, the header hides it; afterwards no panel is shown and no mode highlighted, and at most one panel stays shown |
| Gui.CloseClick | js/ui.js:434-436 | the panel is hidden and its highlight cleared; afterwards no panel is shown and no mode highlighted |

## Left out

Modelling decisions, and places where the code is followed over its description:

- The Guardian master toggle hides all loaded sub-groups as soon as any one is visible. From beacons shown and the rest hidden it hides all four (`Layers.MasterToggleScenario`).
- Iso hue rises with rank, from 0.0 at rank 0 to 0.6 at rank 6, because `t` is 1 at rank 0. Opacity falls from 0.65 to 0.15.
- There is no "loading" state. A second toggle before a load settles issues a second load for the same asset; the ghost multiset of loads in flight counts both. When both loads succeed, the source stores the second group in the same field and adds it to the scene too (js/app.js:336, 352, 389, 588, 938). The first group then stays rendered and visible, but no toggle reaches it any more. The model's completions overwrite the group, so after such a double load the model can report a layer hidden while the first group is still on screen.
- A panel header and its close button sit inside their panel, and a hidden panel is not displayed, so both are clicked only while their panel is shown (`Gui.HeaderClick` and `Gui.CloseClick` require it). The header's branch that shows a hidden panel (js/ui.js:197, 438, 526) cannot be taken; `Layers.HeaderClicked` still describes it, but `Gui.HeaderClick` leaves it out of its body. With that, at most one panel is ever shown, and `App.Valid()` keeps it so.
- With clipping on, iso meshes that arrive before the seventh carry no planes; only the seventh completion applies them (js/app.js:970, 980). If an iso load fails there is no seventh completion, so the meshes stay without planes until the center, thickness or axis is changed (`Viewer.App.CompleteIsoLoad`).
- A failed iso load is never retried. The counter then stays below seven, so the seventh-completion step never runs.
- A failed density-scan load installs a placeholder group, so the layer counts as loaded.
- `Slab.ThicknessFor` falls back to the first step when the index is outside the table, while the label clamps the index. The two disagree above the table.
- The colony metadata is stored as soon as it is fetched, even when the geometry load then fails.
- The helium colour intensity is not applied when the helium group loads; only its opacity is. The intensity field is absent until the GUI writes 1.0 into it.
- Only the gate reached by the Guardian completion re-applies the colonies opacity. The gate reached by any other file leaves the groups at 0.5.
- If any allegiance file fails to load, the counter never reaches eight and the GUI is never built. Every GUI handler therefore requires a ready registry.
- A GUI controller's `setValue` is taken not to run its change handler when the value is unchanged. `setColoniesOpacity` relies on this: it calls `setValue` with the value it has just stored, which would otherwise recurse forever. So in the axis handler the center and thickness controllers do not re-apply the planes. If they did, the end state would be the same (`Layers.WithPlanesLastWins`).

Parts of the viewer not modelled, with the reason:

- Rendering, the scene graph, materials, shaders, lights, `renderer.localClippingEnabled`, point sizes and sprites: library calls. A group is reduced to its visibility, its opacity and, where the registry writes one, a colour or tint.
- Button enabling and disabling, controller labels, control visibility and panel positioning: DOM only.
- `getStarColorFromTemp` stops at the (hue, saturation, lightness) triple; the conversion to RGB belongs to the colour library.
- The GLTF loader and the metadata fetch are I/O. Each load is a completion method called with its outcome. Helium colours, colony points and metadata are parameters of the completion.
- Promise scheduling and the render loop: the completions are separate method calls in any order.
- Camera movement, keyboard handling, ray picking, the search box and the target marker are floating-point geometry over library calls. The camera-focus stubs and `loadModeAssets` have empty bodies.
- js/main.js is bootstrap only and is not part of this model. The `labels` table of js/constants.js is imported by js/app.js but never read; `createTextSprite`, imported from js/utils.js, is never called either.
- ColonyQuery.AnalyzePointsInBox: covers a colony cloud holding a single Points object. The source walks every Points object of the cloud and restarts the metadata index at 0 for each (js/app.js:277-286), so the metadata of a second object's points would repeat the first object's entries; per-object indexing is not modelled.
- `ColonyQuery.AnalyzePointsInBox` takes the cloud's world-space point buffer and the box as parameters. It does not model the box built from a scene object or the local-to-world transform. The source discards its result, and so does no caller in the model.
- `Viewer.App` keeps the helium colours as a value in the group record. The in-place array update is `VertexColors.AdjustVertexColors`, and both are specified by `VertexColors.Recolored`.
- The five stellar-mass toggles are one method parametrised by the mass class. Their bodies differ in names, in the file and in the emissive intensity of the material: 0.8 for Wolf-Rayet (js/app.js:894) and 0.5 for the others (js/app.js:690, 741, 792, 843). Emissive intensity is a material setting, which the model leaves out.
- The mode selector's `modes.current` and the panels' shown flags are held as `App.panels`. `reportGUIMode` is folded into `SwitchMode`.
- `App` holds one helium group and one star-cloud record. The per-material lists the source keeps (`starCloudMaterials`) are not modelled.
- Slider ranges and steps are enforced by the controllers, not by the handlers. Only the iso slider's range is stated as a precondition, because `SetIsoVisibility` is defined for any value.
