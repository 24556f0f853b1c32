/**
 * The values the viewer's layer registry holds, and the pure rules its
 * operations follow: how an isosurface mesh is set up when it arrives, how the
 * iso slider shows a prefix of the stack, how the clip planes are spread over
 * the loaded meshes, how the Guardian master toggle recomputes visibility, and
 * when the allegiance load counter is full.
 */
module Layers {
  import opened Wrappers
  import opened Slab
  import opened StarColor
  import opened ColonyQuery
  import IsoStyle

  // ---------------------------------------------------------------- entities

  /** A loaded scene group reduced to what the viewer reads and writes. */
  datatype Group = Group(visible: bool, opacity: real)

  /** A stellar-mass layer: besides visibility and opacity, its tint. */
  datatype StarGroup = StarGroup(visible: bool, opacity: real, color: Hsl)

  /** The slider-backed state record of a stellar-mass layer. */
  datatype MassState = MassState(opacity: real, colorTemp: real)

  /** The star cloud and the near/far opacities of its materials. */
  datatype StarCloud = StarCloud(visible: bool, opacityNear: real, opacityFar: real)

  /** The colony-target cloud and its point buffer. */
  datatype ColonyCloud = ColonyCloud(visible: bool, points: seq<Vec3>)

  /** The helium group: its flattened vertex colours and the snapshot taken at load. */
  datatype HeliumGroup = HeliumGroup(visible: bool, opacity: real, colors: seq<real>, original: seq<real>)

  /** The helium slider record; the colour intensity is absent until the GUI writes it. */
  datatype HeliumState = HeliumState(opacity: real, colorIntensity: Option<real>)

  /** The density-scan layer; `placeholder` when the asset failed and a stand-in sphere was shown. */
  datatype DensityScan = DensityScan(visible: bool, placeholder: bool)

  datatype GalacticPlane = GalacticPlane(visible: bool, opacity: real, y: real)

  datatype PlaneState = PlaneState(opacity: real, y: real)

  /** One isosurface mesh: visibility, its rank styling and the clip planes its material carries. */
  datatype IsoMesh = IsoMesh(visible: bool, opacity: real, hue: real, clipPlanes: seq<Plane>)

  datatype MassClass = HMass | GMass | FMass | EMass | WolfRayet

  datatype GuardianSite = Beacons | Ruins | Structures | Connections

  datatype Allegiance = Empire | Federation | Alliance | Independent | IGAU | Mikunn | GuardianBubble | Thargoid

  datatype Mode = GalaxyVisuals | ExpeditionWaypoints | StellarDensity | StellarProperties | EarthLikeWorlds

  /**
   * The single-file layer assets; a pending one is a load issued and not yet
   * settled. The seven iso files and the eight allegiance files are tracked by
   * rank and by allegiance instead.
   */
  datatype Asset =
    | StarCloudAsset
    | ColonyAsset
    | HeliumAsset
    | MassAsset(mass: MassClass)
    | GuardianAsset(site: GuardianSite)
    | DensityScanAsset

  /** How the two-step colony load settled: the metadata fetch first, then the geometry. */
  datatype ColonyOutcome =
    | MetaFailed
    | GeometryFailed(meta: seq<Meta>)
    | ColonyLoaded(meta: seq<Meta>, points: seq<Vec3>)

  // --------------------------------------------------------------- constants

  function MassFile(k: MassClass): string
  {
    match k
    case HMass => "./Star_Type_Glb/mass_code_7.gltf"
    case GMass => "./Star_Type_Glb/mass_code_6.gltf"
    case FMass => "./Star_Type_Glb/mass_code_6.gltf"
    case EMass => "./Star_Type_Glb/mass_code_6.gltf"
    case WolfRayet => "./Star_Type_Glb/Wolf-Rayet-stars_pointcloud.glb"
  }

  /** The F and E layers fetch the very file the G layer fetches; H and Wolf-Rayet have their own. */
  lemma FAndEShareTheGFile()
    ensures MassFile(FMass) == MassFile(GMass) && MassFile(EMass) == MassFile(GMass)
    ensures MassFile(HMass) != MassFile(GMass) && MassFile(WolfRayet) != MassFile(GMass)
  {
  }

  /** The opacity and colour temperature each stellar-mass layer starts with. */
  function InitialMassState(k: MassClass): (s: MassState)
    ensures s.opacity == 0.5 && 0.7 <= s.colorTemp <= 1.0
  {
    match k
    case HMass => MassState(0.5, 0.9)
    case GMass => MassState(0.5, 0.7)
    case FMass => MassState(0.5, 0.75)
    case EMass => MassState(0.5, 0.8)
    case WolfRayet => MassState(0.5, 1.0)
  }

  /** The colour band each stellar-mass layer starts in. */
  lemma DefaultTemperatureBands()
    ensures ClassOf(InitialMassState(HMass).colorTemp) == B
    ensures ClassOf(InitialMassState(GMass).colorTemp) == A
    ensures ClassOf(InitialMassState(FMass).colorTemp) == A
    ensures ClassOf(InitialMassState(EMass).colorTemp) == B
    ensures ClassOf(InitialMassState(WolfRayet).colorTemp) == O
  {
  }

  /** The slider records of the five stellar-mass layers as the viewer starts. */
  function InitialMassStates(): (m: map<MassClass, MassState>)
    ensures forall k: MassClass :: k in m && m[k] == InitialMassState(k)
  {
    var m := map[HMass := InitialMassState(HMass), GMass := InitialMassState(GMass),
                 FMass := InitialMassState(FMass), EMass := InitialMassState(EMass),
                 WolfRayet := InitialMassState(WolfRayet)];
    MassClassesListed(m);
    m
  }

  /** Every Guardian sub-group's slider record starts at opacity 0.5. */
  function InitialGuardianOpacities(): (m: map<GuardianSite, real>)
    ensures forall s: GuardianSite :: s in m && m[s] == 0.5
  {
    var m := map[Beacons := 0.5, Ruins := 0.5, Structures := 0.5, Connections := 0.5];
    GuardianSitesListed(m);
    m
  }

  lemma MassClassesListed<V>(m: map<MassClass, V>)
    requires HMass in m && GMass in m && FMass in m && EMass in m && WolfRayet in m
    ensures forall k: MassClass :: k in m
  {
    forall k: MassClass
      ensures k in m
    {
      match k
      case HMass => case GMass => case FMass => case EMass => case WolfRayet =>
    }
  }

  lemma GuardianSitesListed<V>(m: map<GuardianSite, V>)
    requires Beacons in m && Ruins in m && Structures in m && Connections in m
    ensures forall s: GuardianSite :: s in m
  {
    forall s: GuardianSite
      ensures s in m
    {
      match s
      case Beacons => case Ruins => case Structures => case Connections =>
    }
  }

  /** The ranks of the isosurface stack. */
  const IsoRanks: set<nat> := {0, 1, 2, 3, 4, 5, 6}

  lemma IsoRanksAreTheSlots()
    ensures forall r: nat :: r in IsoRanks <==> r < IsoStyle.IsoLevelCount
  {
  }

  const AllAllegiances: set<Allegiance> :=
    {Empire, Federation, Alliance, Independent, IGAU, Mikunn, GuardianBubble, Thargoid}

  /** Number of allegiance files whose completion the GUI waits for. */
  const AllegianceFileCount: nat := 8

  const AllModes: set<Mode> :=
    {GalaxyVisuals, ExpeditionWaypoints, StellarDensity, StellarProperties, EarthLikeWorlds}

  /** The panels that have a clickable header with a close button. */
  predicate HasHeader(m: Mode)
  {
    m == ExpeditionWaypoints || m == StellarDensity || m == GalaxyVisuals
  }

  lemma AllModesListed()
    ensures forall k: Mode :: k in AllModes
  {
    forall k: Mode
      ensures k in AllModes
    {
      match k
      case GalaxyVisuals =>
      case ExpeditionWaypoints =>
      case StellarDensity =>
      case StellarProperties =>
      case EarthLikeWorlds =>
    }
  }

  lemma AllAllegiancesListed()
    ensures forall a: Allegiance :: a in AllAllegiances
  {
    forall a: Allegiance
      ensures a in AllAllegiances
    {
      match a
      case Empire =>
      case Federation =>
      case Alliance =>
      case Independent =>
      case IGAU =>
      case Mikunn =>
      case GuardianBubble =>
      case Thargoid =>
    }
  }

  /** Panel visibility after switching to `m`: that panel alone is shown. */
  function OnlyShown(m: Mode): (shown: map<Mode, bool>)
    ensures forall k: Mode :: k in shown && (shown[k] <==> k == m)
  {
    AllModesListed();
    map k: Mode | k in AllModes :: k == m
  }

  /** Panel visibility right after the GUI is built: every panel hidden. */
  function NoneShown(): (shown: map<Mode, bool>)
    ensures forall k: Mode :: k in shown && !shown[k]
  {
    AllModesListed();
    map k: Mode | k in AllModes :: false
  }

  // ------------------------------------------------------------ mode panels

  /** The mode panels: the mode the selector highlights, and which panels are shown. */
  datatype Panels = Panels(current: Option<Mode>, shown: map<Mode, bool>)

  ghost predicate PanelsTotal(p: Panels)
  {
    forall m: Mode :: m in p.shown
  }

  /** The highlighted mode, when there is one, has its panel shown. */
  ghost predicate CurrentShown(p: Panels)
    requires PanelsTotal(p)
  {
    p.current.Some? ==> p.shown[p.current.value]
  }

  /** At most one mode panel is shown at a time. */
  ghost predicate AtMostOneShown(p: Panels)
    requires PanelsTotal(p)
  {
    forall a: Mode, b: Mode :: p.shown[a] && p.shown[b] ==> a == b
  }

  /** The panels right after the GUI is built: none shown, no mode highlighted. */
  function InitialPanels(): (p: Panels)
    ensures PanelsTotal(p) && CurrentShown(p) && AtMostOneShown(p)
  {
    Panels(None, NoneShown())
  }

  /** What switching to `m` leaves: that panel alone shown, and `m` highlighted. */
  function Switched(m: Mode): (p: Panels)
    ensures PanelsTotal(p) && CurrentShown(p) && AtMostOneShown(p)
    ensures p.current == Some(m) && forall k: Mode :: p.shown[k] <==> k == m
  {
    Panels(Some(m), OnlyShown(m))
  }

  /**
   * A click on a mode button: the highlighted mode with its panel shown is
   * hidden and un-highlighted; any other mode is switched to.
   */
  function Selected(p: Panels, choice: Mode): (q: Panels)
    requires PanelsTotal(p)
    ensures PanelsTotal(q)
  {
    if p.current == Some(choice) && p.shown[choice] then Panels(None, p.shown[choice := false])
    else Switched(choice)
  }

  /**
   * A click on a panel header: a hidden panel is shown and its mode
   * highlighted; a shown one is hidden, and un-highlighted if it was the
   * highlighted one. Other panels stay as they are.
   */
  function HeaderClicked(p: Panels, choice: Mode): (q: Panels)
    requires PanelsTotal(p)
    ensures PanelsTotal(q)
  {
    if !p.shown[choice] then Panels(Some(choice), p.shown[choice := true])
    else Panels(if p.current == Some(choice) then None else p.current, p.shown[choice := false])
  }

  /** A click on a panel's close button: hidden, and un-highlighted if it was highlighted. */
  function Closed(p: Panels, choice: Mode): (q: Panels)
    requires PanelsTotal(p)
    ensures PanelsTotal(q)
  {
    Panels(if p.current == Some(choice) then None else p.current, p.shown[choice := false])
  }

  /** A mode button keeps the highlighted mode's panel shown. */
  lemma SelectKeepsCurrentShown(p: Panels, choice: Mode)
    requires PanelsTotal(p) && CurrentShown(p)
    ensures CurrentShown(Selected(p, choice))
  {
  }

  /** A panel header and a close button keep the highlighted mode's panel shown. */
  lemma HeaderAndCloseKeepCurrentShown(p: Panels, choice: Mode)
    requires PanelsTotal(p) && CurrentShown(p)
    ensures CurrentShown(HeaderClicked(p, choice))
    ensures CurrentShown(Closed(p, choice))
  {
  }

  /**
   * Choosing a mode that is not the shown, highlighted one and then choosing
   * it again leaves no panel shown and no mode highlighted.
   */
  lemma SelectTwiceHidesAll(p: Panels, choice: Mode)
    requires PanelsTotal(p)
    requires !(p.current == Some(choice) && p.shown[choice])
    ensures Selected(Selected(p, choice), choice).current.None?
    ensures forall m: Mode :: !Selected(Selected(p, choice), choice).shown[m]
  {
    var once := Selected(p, choice);
    assert once == Switched(choice);
  }

  /** A mode button never leaves two panels shown. */
  lemma SelectKeepsOnePanel(p: Panels, choice: Mode)
    requires PanelsTotal(p) && AtMostOneShown(p)
    ensures AtMostOneShown(Selected(p, choice))
  {
  }

  /**
   * A header or a close button can only be clicked while its panel is shown;
   * on a shown panel the two do the same thing, and neither leaves two panels
   * shown.
   */
  lemma HeaderAndCloseKeepOnePanel(p: Panels, choice: Mode)
    requires PanelsTotal(p) && AtMostOneShown(p)
    ensures p.shown[choice] ==> HeaderClicked(p, choice) == Closed(p, choice)
    ensures p.shown[choice] ==> AtMostOneShown(Closed(p, choice))
  {
  }

  /**
   * With at most one panel shown, clicking the header or the close button of
   * the shown panel leaves no panel shown and no mode highlighted.
   */
  lemma ClosingShownPanelHidesAll(p: Panels, choice: Mode)
    requires PanelsTotal(p) && CurrentShown(p) && AtMostOneShown(p)
    requires p.shown[choice]
    ensures Closed(p, choice).current.None?
    ensures forall m: Mode :: !Closed(p, choice).shown[m]
  {
  }

  // -------------------------------------------------------- allegiance groups

  /** Every allegiance group set to visibility `v`. */
  function AllVisibleAs(groups: map<Allegiance, Group>, v: bool): (r: map<Allegiance, Group>)
    ensures r.Keys == groups.Keys
    ensures forall a :: a in r ==> r[a].visible == v && r[a].opacity == groups[a].opacity
  {
    map a | a in groups :: groups[a].(visible := v)
  }

  /** Every allegiance group set to opacity `o`. */
  function AllOpacityAs(groups: map<Allegiance, Group>, o: real): (r: map<Allegiance, Group>)
    ensures r.Keys == groups.Keys
    ensures forall a :: a in r ==> r[a].opacity == o && r[a].visible == groups[a].visible
  {
    map a | a in groups :: groups[a].(opacity := o)
  }

  /**
   * The groups once the GUI is built: every group takes the colonies flag as
   * its visibility and, only when the last file to arrive was the Guardian
   * one, the colonies opacity as well.
   */
  function GateGroups(groups: map<Allegiance, Group>, lastWasGuardian: bool, cv: bool, co: real): (r: map<Allegiance, Group>)
    ensures r.Keys == groups.Keys
    ensures forall a :: a in r ==> r[a].visible == cv && r[a].opacity == (if lastWasGuardian then co else groups[a].opacity)
  {
    var shown := AllVisibleAs(groups, cv);
    if lastWasGuardian then AllOpacityAs(shown, co) else shown
  }

  // ---------------------------------------------------------- galactic plane

  /**
   * The plane after the GUI gate makes sure it is shown: built from its record
   * when absent, otherwise only made visible.
   */
  function PlaneShown(plane: Option<GalacticPlane>, st: PlaneState): (r: Option<GalacticPlane>)
    ensures r.Some? && r.value.visible
    ensures plane.Some? ==> r.value.opacity == plane.value.opacity && r.value.y == plane.value.y
    ensures plane.None? ==> r.value.opacity == st.opacity && r.value.y == st.y
  {
    if plane.None? then Some(GalacticPlane(true, st.opacity, st.y)) else Some(plane.value.(visible := true))
  }

  // ------------------------------------------------------ star cloud opacity

  const StarCloudBaseNear: real := 0.8
  const StarCloudBaseFar: real := 0.02

  /** The slider value clamped into [0, 1]. */
  function Clamp01(v: real): (f: real)
    ensures 0.0 <= f <= 1.0
    ensures 0.0 <= v <= 1.0 ==> f == v
    ensures v < 0.0 ==> f == 0.0
    ensures v > 1.0 ==> f == 1.0
  {
    if v > 1.0 then 1.0 else if v < 0.0 then 0.0 else v
  }

  /**
   * The near and far opacities of the star-cloud materials for a slider value:
   * both base opacities scaled by the clamped slider, so they stay within
   * [0, 0.8] and [0, 0.02] and keep their 40:1 ratio.
   */
  function StarCloudNear(v: real): (near: real)
    ensures 0.0 <= near <= StarCloudBaseNear
    ensures 0.0 <= v <= 1.0 ==> near == StarCloudBaseNear * v
  {
    StarCloudBaseNear * Clamp01(v)
  }

  function StarCloudFar(v: real): (far: real)
    ensures 0.0 <= far <= StarCloudBaseFar
    ensures far * 40.0 == StarCloudNear(v)
  {
    StarCloudBaseFar * Clamp01(v)
  }

  /** Two slider values at or beyond the same end of [0, 1] give the same opacities. */
  lemma StarCloudOpacitySaturates(v: real, w: real)
    requires (v >= 1.0 && w >= 1.0) || (v <= 0.0 && w <= 0.0)
    ensures StarCloudNear(v) == StarCloudNear(w) && StarCloudFar(v) == StarCloudFar(w)
  {
  }

  // ------------------------------------------------------- isosurface stack

  /** A mesh of rank `idx` as it stands right after it arrives, with the slider at `slider`. */
  function ArrivedMesh(idx: nat, slider: int): IsoMesh
    requires idx < IsoStyle.IsoLevelCount
  {
    IsoMesh(idx < slider, IsoStyle.Opacity(idx, IsoStyle.IsoLevelCount), IsoStyle.Hue(idx, IsoStyle.IsoLevelCount), [])
  }

  /** The stack once the rank-`idx` mesh has arrived. */
  function IsoArrive(meshes: seq<Option<IsoMesh>>, idx: nat, slider: int): (r: seq<Option<IsoMesh>>)
    requires idx < |meshes| && idx < IsoStyle.IsoLevelCount
    ensures |r| == |meshes|
  {
    meshes[idx := Some(ArrivedMesh(idx, slider))]
  }

  /** The stack after the slider moves to `n`: every loaded rank below `n` shown, the rest hidden. */
  function ShowUpTo(meshes: seq<Option<IsoMesh>>, n: int): (r: seq<Option<IsoMesh>>)
    ensures |r| == |meshes|
  {
    seq(|meshes|, i requires 0 <= i < |meshes| =>
      if meshes[i].Some? then Some(meshes[i].value.(visible := i < n)) else None)
  }

  /** The stack after `planes` is handed to the material of every loaded mesh. */
  function WithPlanes(meshes: seq<Option<IsoMesh>>, planes: seq<Plane>): (r: seq<Option<IsoMesh>>)
    ensures |r| == |meshes|
  {
    seq(|meshes|, i requires 0 <= i < |meshes| =>
      if meshes[i].Some? then Some(meshes[i].value.(clipPlanes := planes)) else None)
  }

  /** Handing planes twice leaves the second set on every loaded mesh. */
  lemma WithPlanesLastWins(meshes: seq<Option<IsoMesh>>, first: seq<Plane>, second: seq<Plane>)
    ensures WithPlanes(WithPlanes(meshes, first), second) == WithPlanes(meshes, second)
  {
    var twice := WithPlanes(WithPlanes(meshes, first), second);
    assert forall i :: 0 <= i < |meshes| ==> twice[i] == WithPlanes(meshes, second)[i];
  }

  /** Every loaded mesh is visible exactly when its rank is below the slider. */
  ghost predicate SliderConsistent(meshes: seq<Option<IsoMesh>>, n: int)
  {
    forall i :: 0 <= i < |meshes| && meshes[i].Some? ==> meshes[i].value.visible == (i < n)
  }

  /** Every loaded mesh carries `planes`. */
  ghost predicate CarryPlanes(meshes: seq<Option<IsoMesh>>, planes: seq<Plane>)
  {
    forall i :: 0 <= i < |meshes| && meshes[i].Some? ==> meshes[i].value.clipPlanes == planes
  }

  /** Two stacks with the same slots filled. */
  ghost predicate SameSlots(a: seq<Option<IsoMesh>>, b: seq<Option<IsoMesh>>)
  {
    |a| == |b| && forall i :: 0 <= i < |a| ==> a[i].Some? == b[i].Some?
  }

  /** Number of filled slots. */
  function LoadedCount(meshes: seq<Option<IsoMesh>>): (c: nat)
    ensures c <= |meshes|
  {
    if meshes == [] then 0
    else LoadedCount(meshes[..|meshes| - 1]) + (if meshes[|meshes| - 1].Some? then 1 else 0)
  }

  /**
   * Moving the slider touches visibility only: the same slots stay filled, every
   * loaded mesh ends visible exactly below the slider, and nothing else about a
   * mesh changes.
   */
  lemma ShowUpToSetsPrefix(meshes: seq<Option<IsoMesh>>, n: int)
    ensures SameSlots(ShowUpTo(meshes, n), meshes)
    ensures SliderConsistent(ShowUpTo(meshes, n), n)
    ensures forall i :: 0 <= i < |meshes| && meshes[i].Some? ==>
      ShowUpTo(meshes, n)[i].value.(visible := meshes[i].value.visible) == meshes[i].value
  {
  }

  /** Once the slider is consistent, moving it again to the same value changes nothing. */
  lemma ShowUpToIdempotent(meshes: seq<Option<IsoMesh>>, n: int)
    requires SliderConsistent(meshes, n)
    ensures ShowUpTo(meshes, n) == meshes
  {
    forall i | 0 <= i < |meshes|
      ensures ShowUpTo(meshes, n)[i] == meshes[i]
    {
      if meshes[i].Some? {
        assert meshes[i].value.(visible := i < n) == meshes[i].value;
      }
    }
  }

  /** An arrival keeps the stack consistent with the slider it read. */
  lemma ArrivalKeepsSliderConsistent(meshes: seq<Option<IsoMesh>>, idx: nat, slider: int)
    requires idx < |meshes| && idx < IsoStyle.IsoLevelCount
    requires SliderConsistent(meshes, slider)
    ensures SliderConsistent(IsoArrive(meshes, idx, slider), slider)
  {
  }

  /** Two meshes of different ranks may arrive in either order with the same result. */
  lemma ArrivalsCommute(meshes: seq<Option<IsoMesh>>, i: nat, j: nat, slider: int)
    requires i < |meshes| && j < |meshes| && i < IsoStyle.IsoLevelCount && j < IsoStyle.IsoLevelCount
    requires i != j
    ensures IsoArrive(IsoArrive(meshes, i, slider), j, slider)
         == IsoArrive(IsoArrive(meshes, j, slider), i, slider)
  {
  }

  /**
   * A slider move to `n` while a mesh is in flight is honoured whether the
   * mesh arrives before or after the move.
   */
  lemma SliderMoveAndArrivalCommute(meshes: seq<Option<IsoMesh>>, idx: nat, before: int, n: int)
    requires idx < |meshes| && idx < IsoStyle.IsoLevelCount
    ensures ShowUpTo(IsoArrive(meshes, idx, before), n) == IsoArrive(ShowUpTo(meshes, n), idx, n)
  {
    var a := ShowUpTo(IsoArrive(meshes, idx, before), n);
    var b := IsoArrive(ShowUpTo(meshes, n), idx, n);
    forall k | 0 <= k < |meshes|
      ensures a[k] == b[k]
    {
      if k == idx {
        assert a[k] == Some(ArrivedMesh(idx, before).(visible := idx < n));
      }
    }
  }

  /** Handing out planes keeps the slots and the visibility of every mesh. */
  lemma WithPlanesKeepsSlots(meshes: seq<Option<IsoMesh>>, planes: seq<Plane>, n: int)
    ensures SameSlots(WithPlanes(meshes, planes), meshes)
    ensures CarryPlanes(WithPlanes(meshes, planes), planes)
    ensures SliderConsistent(meshes, n) ==> SliderConsistent(WithPlanes(meshes, planes), n)
  {
  }

  /** Stacks with the same slots filled have the same count. */
  lemma {:induction false} SameSlotsSameCount(a: seq<Option<IsoMesh>>, b: seq<Option<IsoMesh>>)
    requires SameSlots(a, b)
    ensures LoadedCount(a) == LoadedCount(b)
  {
    if a != [] {
      SameSlotsSameCount(a[..|a| - 1], b[..|b| - 1]);
    }
  }

  /** Filling an empty slot raises the count by exactly one. */
  lemma {:induction false} FillRaisesCount(meshes: seq<Option<IsoMesh>>, idx: nat, m: IsoMesh)
    requires idx < |meshes| && meshes[idx].None?
    ensures LoadedCount(meshes[idx := Some(m)]) == LoadedCount(meshes) + 1
  {
    var filled := meshes[idx := Some(m)];
    var n := |meshes| - 1;
    if idx == n {
      assert filled[..n] == meshes[..n];
    } else {
      assert filled[..n] == meshes[..n][idx := Some(m)];
      FillRaisesCount(meshes[..n], idx, m);
    }
  }

  /** The count equals the number of slots exactly when every slot is filled. */
  lemma {:induction false} FullCountIffAllLoaded(meshes: seq<Option<IsoMesh>>)
    ensures LoadedCount(meshes) == |meshes| <==> forall i :: 0 <= i < |meshes| ==> meshes[i].Some?
  {
    if meshes != [] {
      var n := |meshes| - 1;
      var init := meshes[..n];
      FullCountIffAllLoaded(init);
      assert forall i :: 0 <= i < n ==> init[i] == meshes[i];
    }
  }

  /** An empty stack counts nothing. */
  lemma {:induction false} EmptySlotsCountZero(meshes: seq<Option<IsoMesh>>)
    requires forall i :: 0 <= i < |meshes| ==> meshes[i].None?
    ensures LoadedCount(meshes) == 0
  {
    if meshes != [] {
      EmptySlotsCountZero(meshes[..|meshes| - 1]);
    }
  }

  // ---------------------------------------------------------- guardian sites

  /** Some loaded Guardian sub-group is visible. */
  predicate AnyVisible(groups: map<GuardianSite, Group>)
  {
    exists s :: s in groups && groups[s].visible
  }

  /**
   * The master toggle on loaded sub-groups: every loaded sub-group gets the
   * negation of "some loaded sub-group is visible"; unloaded ones stay unloaded.
   */
  function MasterToggled(groups: map<GuardianSite, Group>): (r: map<GuardianSite, Group>)
    ensures r.Keys == groups.Keys
    ensures forall s :: s in r ==> r[s] == groups[s].(visible := !AnyVisible(groups))
  {
    map s | s in groups :: groups[s].(visible := !AnyVisible(groups))
  }

  /** All loaded sub-groups share one visibility. */
  predicate Uniform(groups: map<GuardianSite, Group>, v: bool)
  {
    forall s :: s in groups ==> groups[s].visible == v
  }

  /**
   * After a master toggle the loaded sub-groups all share one visibility: hidden
   * if any was visible, shown if none was.
   */
  lemma MasterToggleUniform(groups: map<GuardianSite, Group>)
    ensures Uniform(MasterToggled(groups), !AnyVisible(groups))
  {
  }

  /** On sub-groups that already agree the master toggle is its own inverse. */
  lemma MasterToggleInvolutiveOnUniform(groups: map<GuardianSite, Group>, v: bool)
    requires groups != map[] && Uniform(groups, v)
    ensures MasterToggled(MasterToggled(groups)) == groups
  {
    var s :| s in groups;
    assert AnyVisible(groups) == v;
    var once := MasterToggled(groups);
    assert once[s].visible == !v;
    assert AnyVisible(once) == !v;
    var twice := MasterToggled(once);
    assert forall t :: t in twice ==> twice[t] == groups[t];
  }

  /**
   * Beacons shown, the other three hidden: the first master toggle hides all
   * four, the second shows all four.
   */
  lemma MasterToggleScenario()
    ensures var start := map[Beacons := Group(true, 0.5), Ruins := Group(false, 0.5),
                             Structures := Group(false, 0.5), Connections := Group(false, 0.5)];
      && Uniform(MasterToggled(start), false)
      && Uniform(MasterToggled(MasterToggled(start)), true)
      && MasterToggled(MasterToggled(start)).Keys == start.Keys
  {
    var start := map[Beacons := Group(true, 0.5), Ruins := Group(false, 0.5),
                     Structures := Group(false, 0.5), Connections := Group(false, 0.5)];
    assert AnyVisible(start) by { assert start[Beacons].visible; }
    var once := MasterToggled(start);
    assert !AnyVisible(once);
  }

  // ------------------------------------------------------ allegiance gating

  /** A set of allegiances has all eight members exactly when it has eight elements. */
  lemma EightArrivedIffAll(s: set<Allegiance>)
    ensures |s| <= AllegianceFileCount
    ensures |s| == AllegianceFileCount <==> s == AllAllegiances
  {
    AllAllegiancesListed();
    assert s <= AllAllegiances;
    assert |AllAllegiances| == 8;
    SubsetCard(s, AllAllegiances);
  }

  lemma SubsetCard(s: set<Allegiance>, t: set<Allegiance>)
    requires s <= t
    ensures |s| <= |t|
    ensures |s| == |t| ==> s == t
  {
    assert t == s + (t - s);
    assert |t| == |s| + |t - s|;
    if |s| == |t| {
      assert |t - s| == 0;
      assert t - s == {};
    }
  }

  /**
   * The group table after one more allegiance file arrives: the Guardian file
   * adds no group, every other file adds its own. Either way the table's keys
   * stay the arrived files other than the Guardian one, and the count grows by one.
   */
  function Arrive(groups: map<Allegiance, Group>, a: Allegiance, g: Group): map<Allegiance, Group>
  {
    if a == GuardianBubble then groups else groups[a := g]
  }

  lemma ArriveKeepsKeys(groups: map<Allegiance, Group>, arrived: set<Allegiance>, a: Allegiance, g: Group)
    requires groups.Keys == arrived - {GuardianBubble} && a !in arrived
    ensures Arrive(groups, a, g).Keys == (arrived + {a}) - {GuardianBubble}
    ensures |arrived + {a}| == |arrived| + 1
  {
  }
}
