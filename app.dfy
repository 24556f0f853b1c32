/**
 * The viewer's layer registry: one object whose fields are the layers (each
 * absent until its asset has loaded), the state records the sliders write, the
 * isosurface stack, the clipping slab and the allegiance load counter that
 * gates the GUI.
 *
 * Every load is split in two: the toggle that issues it (recorded in a ghost
 * multiset of loads in flight) and a completion method called with the
 * outcome. Nothing prevents a second toggle while a load is in flight, so the
 * same asset may be in flight twice.
 */
module Viewer {
  import opened Wrappers
  import opened Constants
  import opened Slab
  import opened StarColor
  import opened ColonyQuery
  import opened Layers
  import IsoStyle

  /** The colour intensity the GUI writes into the helium record when it is built. */
  const InitialColorIntensity: real := 1.0

  /** The opacity every allegiance point material is given when its group is inserted. */
  const AllegianceLoadOpacity: real := 0.5

  class App {
    var starCloud: Option<StarCloud>
    var starCloudOpacitySlider: real

    var colonyCloud: Option<ColonyCloud>
    var colonyMeta: seq<Meta>

    var galacticPlane: Option<GalacticPlane>
    var galacticPlaneState: PlaneState

    var heliumGroup: Option<HeliumGroup>
    var heliumState: HeliumState

    /** Loaded Guardian sub-groups; a site without an entry is still null. */
    var guardianGroups: map<GuardianSite, Group>
    var guardianState: map<GuardianSite, real>

    var densityScanGroup: Option<DensityScan>

    /** Loaded stellar-mass layers, and the slider records of all five. */
    var massGroups: map<MassClass, StarGroup>
    var massState: map<MassClass, MassState>

    var allegianceGroups: map<Allegiance, Group>
    var loadedCount: nat
    var coloniesVisible: bool
    var coloniesOpacity: real

    /** Whether the GUI has been built, and the state of its mode panels. */
    var guiReady: bool
    var panels: Panels

    /** The isosurface stack: one slot per rank, the container's visibility (absent before the first toggle). */
    var isoMeshes: seq<Option<IsoMesh>>
    var isoGroupVisible: Option<bool>
    var currentIsoSlider: int
    var isoLoadCount: nat

    var clipPlanes: seq<Plane>
    var clippingEnabled: bool
    var clipState: ClipState

    /** Loads issued and not yet settled. */
    ghost var pending: multiset<Asset>
    ghost var isoPending: set<nat>
    ghost var allegiancePending: set<Allegiance>
    /** Allegiance files that loaded. */
    ghost var arrived: set<Allegiance>

    ghost predicate StatesTotal()
      reads this`massState, this`guardianState, this`panels
    {
      && (forall k: MassClass :: k in massState)
      && (forall s: GuardianSite :: s in guardianState)
      && PanelsTotal(panels)
      && CurrentShown(panels) && AtMostOneShown(panels)
    }

    ghost predicate IsoValid()
      reads this`isoMeshes, this`isoLoadCount, this`currentIsoSlider, this`clippingEnabled,
            this`isoGroupVisible, this`isoPending
    {
      && |isoMeshes| == IsoStyle.IsoLevelCount
      && isoLoadCount == LoadedCount(isoMeshes)
      && SliderConsistent(isoMeshes, currentIsoSlider)
      && (!clippingEnabled ==> CarryPlanes(isoMeshes, []))
      && (isoGroupVisible.None? ==> isoPending == {} && forall i :: 0 <= i < |isoMeshes| ==> isoMeshes[i].None?)
      && (forall r :: r in isoPending ==> r < IsoStyle.IsoLevelCount && isoMeshes[r].None?)
    }

    ghost predicate AllegianceValid()
      reads this`loadedCount, this`arrived, this`allegiancePending, this`allegianceGroups, this`guiReady
    {
      && loadedCount == |arrived|
      && arrived !! allegiancePending
      && allegianceGroups.Keys == arrived - {GuardianBubble}
      && (guiReady <==> loadedCount == AllegianceFileCount)
    }

    ghost predicate HeliumValid()
      reads this`heliumGroup
    {
      heliumGroup.Some? ==>
        |heliumGroup.value.original| % 3 == 0 && |heliumGroup.value.colors| == |heliumGroup.value.original|
    }

    ghost predicate Valid()
      reads this
    {
      StatesTotal() && IsoValid() && AllegianceValid() && HeliumValid()
    }

    /**
     * The field initialisers followed by the part of start-up that touches the
     * registry: the eight allegiance loads are issued and the thickness index is
     * reset to the first step.
     */
    constructor ()
      ensures Valid()
      ensures starCloud == None && colonyCloud == None && galacticPlane == None && heliumGroup == None
      ensures densityScanGroup == None && guardianGroups == map[] && massGroups == map[]
      ensures forall k: MassClass :: massState[k] == InitialMassState(k)
      ensures forall s: GuardianSite :: guardianState[s] == 0.5
      ensures starCloudOpacitySlider == 0.4 && galacticPlaneState == PlaneState(0.3, -5000.0)
      ensures heliumState == HeliumState(0.5, None)
      ensures allegianceGroups == map[] && loadedCount == 0 && coloniesVisible && coloniesOpacity == 0.15
      ensures !guiReady && panels == InitialPanels()
      ensures isoMeshes == seq(IsoStyle.IsoLevelCount, _ => None) && isoGroupVisible == None
      ensures currentIsoSlider == 0 && isoLoadCount == 0
      ensures clipPlanes == [] && !clippingEnabled && clipState == InitialClipState
      ensures pending == multiset{} && isoPending == {} && allegiancePending == AllAllegiances && arrived == {}
    {
      starCloud := None;
      starCloudOpacitySlider := 0.4;
      colonyCloud := None;
      colonyMeta := [];
      galacticPlane := None;
      galacticPlaneState := PlaneState(0.3, -5000.0);
      heliumGroup := None;
      heliumState := HeliumState(0.5, None);
      guardianGroups := map[];
      guardianState := InitialGuardianOpacities();
      densityScanGroup := None;
      massGroups := map[];
      massState := InitialMassStates();
      allegianceGroups := map[];
      loadedCount := 0;
      coloniesVisible := true;
      coloniesOpacity := 0.15;
      guiReady := false;
      panels := InitialPanels();
      var emptyStack: seq<Option<IsoMesh>> := seq(IsoStyle.IsoLevelCount, _ => None);
      EmptySlotsCountZero(emptyStack);
      isoMeshes := emptyStack;
      isoGroupVisible := None;
      currentIsoSlider := 0;
      isoLoadCount := 0;
      clipPlanes := [];
      clippingEnabled := false;
      // start-up also resets the thickness index, to the value it already holds
      clipState := InitialClipState;
      pending := multiset{};
      isoPending := {};
      arrived := {};
      // start-up issues one load per allegiance file
      allegiancePending := AllAllegiances;
    }

    // ------------------------------------------------------------ star cloud

    /** Issues the star-cloud load when the cloud is absent; otherwise flips its visibility. */
    method ToggleStarCloud()
      requires Valid()
      modifies this`starCloud, this`pending
      ensures Valid()
      ensures old(starCloud).None? ==> starCloud.None? && pending == old(pending) + multiset{StarCloudAsset}
      ensures old(starCloud).Some? ==>
        starCloud == Some(old(starCloud).value.(visible := !old(starCloud).value.visible)) && pending == old(pending)
    {
      if starCloud.None? {
        pending := pending + multiset{StarCloudAsset};
      } else {
        starCloud := Some(starCloud.value.(visible := !starCloud.value.visible));
      }
    }

    /** A settled star-cloud load: on success the cloud is shown with the current slider's opacities. */
    method CompleteStarCloudLoad(ok: bool)
      requires Valid() && StarCloudAsset in pending
      modifies this`starCloud, this`starCloudOpacitySlider, this`pending
      ensures Valid()
      ensures pending == old(pending) - multiset{StarCloudAsset}
      ensures starCloudOpacitySlider == old(starCloudOpacitySlider)
      ensures !ok ==> starCloud == old(starCloud)
      ensures ok ==> starCloud == Some(StarCloud(true, StarCloudNear(starCloudOpacitySlider), StarCloudFar(starCloudOpacitySlider)))
    {
      pending := pending - multiset{StarCloudAsset};
      if ok {
        starCloud := Some(StarCloud(true, StarCloudBaseNear, StarCloudBaseFar));
        SetStarCloudOpacity(starCloudOpacitySlider);
      }
    }

    /** Records the slider value and rescales both opacities of a loaded cloud. */
    method SetStarCloudOpacity(val: real)
      requires Valid()
      modifies this`starCloud, this`starCloudOpacitySlider
      ensures Valid()
      ensures starCloudOpacitySlider == val
      ensures old(starCloud).None? ==> starCloud.None?
      ensures old(starCloud).Some? ==>
        starCloud == Some(old(starCloud).value.(opacityNear := StarCloudNear(val), opacityFar := StarCloudFar(val)))
    {
      starCloudOpacitySlider := val;
      var factor := Clamp01(val);
      var near := StarCloudBaseNear * factor;
      var far := StarCloudBaseFar * factor;
      if starCloud.Some? {
        starCloud := Some(starCloud.value.(opacityNear := near, opacityFar := far));
      }
    }

    // ---------------------------------------------------------- colony cloud

    method ToggleColonyCloud()
      requires Valid()
      modifies this`colonyCloud, this`pending
      ensures Valid()
      ensures old(colonyCloud).None? ==> colonyCloud.None? && pending == old(pending) + multiset{ColonyAsset}
      ensures old(colonyCloud).Some? ==>
        colonyCloud == Some(old(colonyCloud).value.(visible := !old(colonyCloud).value.visible)) && pending == old(pending)
    {
      if colonyCloud.None? {
        pending := pending + multiset{ColonyAsset};
      } else {
        colonyCloud := Some(colonyCloud.value.(visible := !colonyCloud.value.visible));
      }
    }

    /**
     * A settled colony load. The metadata is stored as soon as it has been
     * fetched, so a geometry failure leaves new metadata beside no cloud.
     */
    method CompleteColonyLoad(outcome: ColonyOutcome)
      requires Valid() && ColonyAsset in pending
      modifies this`colonyCloud, this`colonyMeta, this`pending
      ensures Valid()
      ensures pending == old(pending) - multiset{ColonyAsset}
      ensures outcome.MetaFailed? ==> colonyMeta == old(colonyMeta) && colonyCloud == old(colonyCloud)
      ensures outcome.GeometryFailed? ==> colonyMeta == outcome.meta && colonyCloud == old(colonyCloud)
      ensures outcome.ColonyLoaded? ==> colonyMeta == outcome.meta && colonyCloud == Some(ColonyCloud(true, outcome.points))
    {
      pending := pending - multiset{ColonyAsset};
      match outcome
      case MetaFailed =>
      case GeometryFailed(meta) =>
        colonyMeta := meta;
      case ColonyLoaded(meta, points) =>
        colonyMeta := meta;
        colonyCloud := Some(ColonyCloud(true, points));
    }

    // ----------------------------------------------------- colonised systems

    /** Flips the colonies flag and gives every allegiance group the new flag as its visibility. */
    method ToggleColonizedSystems()
      requires Valid()
      modifies this`coloniesVisible, this`allegianceGroups
      ensures Valid()
      ensures coloniesVisible == !old(coloniesVisible)
      ensures allegianceGroups == AllVisibleAs(old(allegianceGroups), coloniesVisible)
    {
      coloniesVisible := !coloniesVisible;
      allegianceGroups := AllVisibleAs(allegianceGroups, coloniesVisible);
    }

    /** Records the colonies opacity and gives it to every allegiance group. */
    method SetColoniesOpacity(val: real)
      requires Valid()
      modifies this`coloniesOpacity, this`allegianceGroups
      ensures Valid()
      ensures coloniesOpacity == val
      ensures allegianceGroups == AllOpacityAs(old(allegianceGroups), val)
    {
      coloniesOpacity := val;
      allegianceGroups := AllOpacityAs(allegianceGroups, val);
    }

    // -------------------------------------------------------- galactic plane

    /** Creates the plane (shown, from its state record) when absent; otherwise flips it. */
    method ToggleGalacticPlane()
      requires Valid()
      modifies this`galacticPlane
      ensures Valid()
      ensures old(galacticPlane).None? ==>
        galacticPlane == Some(GalacticPlane(true, galacticPlaneState.opacity, galacticPlaneState.y))
      ensures old(galacticPlane).Some? ==>
        galacticPlane == Some(old(galacticPlane).value.(visible := !old(galacticPlane).value.visible))
    {
      if galacticPlane.None? {
        galacticPlane := Some(GalacticPlane(true, galacticPlaneState.opacity, galacticPlaneState.y));
      } else {
        galacticPlane := Some(galacticPlane.value.(visible := !galacticPlane.value.visible));
      }
    }

    // ---------------------------------------------------------------- helium

    method ToggleHeliumCloud()
      requires Valid()
      modifies this`heliumGroup, this`pending
      ensures Valid()
      ensures old(heliumGroup).None? ==> heliumGroup.None? && pending == old(pending) + multiset{HeliumAsset}
      ensures old(heliumGroup).Some? ==>
        heliumGroup == Some(old(heliumGroup).value.(visible := !old(heliumGroup).value.visible)) && pending == old(pending)
    {
      if heliumGroup.None? {
        pending := pending + multiset{HeliumAsset};
      } else {
        heliumGroup := Some(heliumGroup.value.(visible := !heliumGroup.value.visible));
      }
    }

    /**
     * A settled helium load: on success the group is shown with the recorded
     * opacity and the loaded colours, which are also kept as the snapshot. The
     * recorded colour intensity is not applied here.
     */
    method CompleteHeliumLoad(ok: bool, colors: seq<real>)
      requires Valid() && HeliumAsset in pending && |colors| % 3 == 0
      modifies this`heliumGroup, this`pending
      ensures Valid()
      ensures pending == old(pending) - multiset{HeliumAsset}
      ensures !ok ==> heliumGroup == old(heliumGroup)
      ensures ok ==> heliumGroup == Some(HeliumGroup(true, heliumState.opacity, colors, colors))
    {
      pending := pending - multiset{HeliumAsset};
      if ok {
        var original := colors;
        heliumGroup := Some(HeliumGroup(true, heliumState.opacity, colors, original));
      }
    }

    // -------------------------------------------------------- guardian sites

    /**
     * The master toggle: with no sub-group loaded it issues all four loads;
     * otherwise it applies the master rule to the loaded ones.
     */
    method ToggleGuardianSites()
      requires Valid()
      modifies this`guardianGroups, this`pending
      ensures Valid()
      ensures old(guardianGroups) == map[] ==>
        && guardianGroups == map[]
        && pending == old(pending) + multiset{GuardianAsset(Beacons), GuardianAsset(Ruins),
                                              GuardianAsset(Structures), GuardianAsset(Connections)}
      ensures old(guardianGroups) != map[] ==> guardianGroups == MasterToggled(old(guardianGroups)) && pending == old(pending)
    {
      if guardianGroups == map[] {
        pending := pending + multiset{GuardianAsset(Beacons), GuardianAsset(Ruins),
                                      GuardianAsset(Structures), GuardianAsset(Connections)};
      } else {
        var newVisible := !AnyVisible(guardianGroups);
        guardianGroups := map s | s in guardianGroups :: guardianGroups[s].(visible := newVisible);
      }
    }

    /** One settled Guardian load: on success that site alone is inserted, shown, with its recorded opacity. */
    method CompleteGuardianLoad(site: GuardianSite, ok: bool)
      requires Valid() && GuardianAsset(site) in pending
      modifies this`guardianGroups, this`pending
      ensures Valid()
      ensures pending == old(pending) - multiset{GuardianAsset(site)}
      ensures !ok ==> guardianGroups == old(guardianGroups)
      ensures ok ==> guardianGroups == old(guardianGroups)[site := Group(true, guardianState[site])]
    {
      pending := pending - multiset{GuardianAsset(site)};
      if ok {
        guardianGroups := guardianGroups[site := Group(true, guardianState[site])];
      }
    }

    /** The per-site toggle: a no-op while the site is null, otherwise flips that site alone. */
    method ToggleGuardianSite(site: GuardianSite)
      requires Valid()
      modifies this`guardianGroups
      ensures Valid()
      ensures site !in old(guardianGroups) ==> guardianGroups == old(guardianGroups)
      ensures site in old(guardianGroups) ==>
        guardianGroups == old(guardianGroups)[site := old(guardianGroups)[site].(visible := !old(guardianGroups)[site].visible)]
    {
      if site in guardianGroups {
        guardianGroups := guardianGroups[site := guardianGroups[site].(visible := !guardianGroups[site].visible)];
      }
    }

    // ---------------------------------------------------------- stellar mass

    method ToggleMass(k: MassClass)
      requires Valid()
      modifies this`massGroups, this`pending
      ensures Valid()
      ensures k !in old(massGroups) ==> massGroups == old(massGroups) && pending == old(pending) + multiset{MassAsset(k)}
      ensures k in old(massGroups) ==>
        massGroups == old(massGroups)[k := old(massGroups)[k].(visible := !old(massGroups)[k].visible)] && pending == old(pending)
    {
      if k !in massGroups {
        pending := pending + multiset{MassAsset(k)};
      } else {
        massGroups := massGroups[k := massGroups[k].(visible := !massGroups[k].visible)];
      }
    }

    /**
     * A settled stellar-mass load: on success the layer is shown with the
     * opacity and the colour-temperature tint its record holds now, so slider
     * changes made before the load are honoured.
     */
    method CompleteMassLoad(k: MassClass, ok: bool)
      requires Valid() && MassAsset(k) in pending
      modifies this`massGroups, this`pending
      ensures Valid()
      ensures pending == old(pending) - multiset{MassAsset(k)}
      ensures !ok ==> massGroups == old(massGroups)
      ensures ok ==> massGroups == old(massGroups)[k := StarGroup(true, massState[k].opacity, StarColorFromTemp(massState[k].colorTemp))]
    {
      pending := pending - multiset{MassAsset(k)};
      if ok {
        var starColor := StarColorFromTemp(massState[k].colorTemp);
        massGroups := massGroups[k := StarGroup(true, massState[k].opacity, starColor)];
      }
    }

    // ---------------------------------------------------------- density scan

    method ToggleDensityScan()
      requires Valid()
      modifies this`densityScanGroup, this`pending
      ensures Valid()
      ensures old(densityScanGroup).None? ==> densityScanGroup.None? && pending == old(pending) + multiset{DensityScanAsset}
      ensures old(densityScanGroup).Some? ==>
        densityScanGroup == Some(old(densityScanGroup).value.(visible := !old(densityScanGroup).value.visible))
        && pending == old(pending)
    {
      if densityScanGroup.None? {
        pending := pending + multiset{DensityScanAsset};
      } else {
        densityScanGroup := Some(densityScanGroup.value.(visible := !densityScanGroup.value.visible));
      }
    }

    /** A settled density-scan load: either way a shown group is installed, a placeholder on failure. */
    method CompleteDensityScanLoad(ok: bool)
      requires Valid() && DensityScanAsset in pending
      modifies this`densityScanGroup, this`pending
      ensures Valid()
      ensures pending == old(pending) - multiset{DensityScanAsset}
      ensures densityScanGroup == Some(DensityScan(true, !ok))
    {
      pending := pending - multiset{DensityScanAsset};
      if ok {
        densityScanGroup := Some(DensityScan(true, false));
      } else {
        densityScanGroup := Some(DensityScan(true, true));
      }
    }

    // ------------------------------------------------------- isosurface stack

    /**
     * The first call creates the container, shows it, resets the counter and
     * issues the seven rank loads; every later call flips the container, even
     * while loads are in flight.
     */
    method ToggleIsoGroup()
      requires Valid()
      modifies this`isoGroupVisible, this`isoLoadCount, this`isoPending
      ensures Valid()
      ensures old(isoGroupVisible).None? ==>
        isoGroupVisible == Some(true) && isoLoadCount == 0 && isoPending == IsoRanks
      ensures old(isoGroupVisible).Some? ==>
        isoGroupVisible == Some(!old(isoGroupVisible).value) && isoLoadCount == old(isoLoadCount) && isoPending == old(isoPending)
    {
      if isoGroupVisible.None? {
        isoGroupVisible := Some(true);
        isoLoadCount := 0;
        isoPending := IsoRanks;
        EmptySlotsCountZero(isoMeshes);
      } else {
        isoGroupVisible := Some(!isoGroupVisible.value);
      }
    }

    /**
     * A settled rank load. On success the mesh is styled for its rank, shown
     * exactly when its rank is below the slider, and counted; the completion that
     * brings the count to seven also applies the clip planes when clipping is on.
     */
    method CompleteIsoLoad(idx: nat, ok: bool)
      requires Valid() && idx in isoPending
      modifies this`isoMeshes, this`isoLoadCount, this`clipPlanes, this`isoPending
      ensures Valid()
      ensures isoPending == old(isoPending) - {idx}
      ensures !ok ==> isoMeshes == old(isoMeshes) && isoLoadCount == old(isoLoadCount) && clipPlanes == old(clipPlanes)
      ensures ok ==> isoLoadCount == old(isoLoadCount) + 1
      ensures ok ==> (isoLoadCount == IsoStyle.IsoLevelCount <==> forall i :: 0 <= i < |isoMeshes| ==> isoMeshes[i].Some?)
      ensures ok && !(isoLoadCount == IsoStyle.IsoLevelCount && clippingEnabled) ==>
        isoMeshes == IsoArrive(old(isoMeshes), idx, currentIsoSlider) && clipPlanes == old(clipPlanes)
      ensures ok && isoLoadCount == IsoStyle.IsoLevelCount && clippingEnabled ==>
        clipPlanes == SlabPlanes(clipState) && isoMeshes == WithPlanes(IsoArrive(old(isoMeshes), idx, currentIsoSlider), clipPlanes)
    {
      if !ok {
        isoPending := isoPending - {idx};
        return;
      }
      PlaceIsoMesh(idx);
      if isoLoadCount == IsoStyle.IsoLevelCount && clippingEnabled {
        ApplyClippingPlanes();
      }
      FullCountIffAllLoaded(isoMeshes);
    }

    /**
     * Puts a loaded rank mesh into its slot: styled for its rank, shown exactly
     * when its rank is below the slider, without clip planes, and counted.
     */
    method PlaceIsoMesh(idx: nat)
      requires Valid() && idx in isoPending
      modifies this`isoMeshes, this`isoLoadCount, this`isoPending
      ensures Valid()
      ensures isoPending == old(isoPending) - {idx}
      ensures isoLoadCount == old(isoLoadCount) + 1
      ensures isoMeshes == IsoArrive(old(isoMeshes), idx, currentIsoSlider)
    {
      var styled := IsoMesh(false, IsoStyle.Opacity(idx, IsoStyle.IsoLevelCount), IsoStyle.Hue(idx, IsoStyle.IsoLevelCount), []);
      var mesh := styled.(visible := idx < currentIsoSlider);
      FillRaisesCount(isoMeshes, idx, mesh);
      ArrivalKeepsSliderConsistent(isoMeshes, idx, currentIsoSlider);
      isoPending := isoPending - {idx};
      isoMeshes := isoMeshes[idx := Some(mesh)];
      isoLoadCount := isoLoadCount + 1;
    }

    /** The slider: records the value and shows exactly the loaded ranks below it. */
    method SetIsoVisibility(val: int)
      requires Valid()
      modifies this`currentIsoSlider, this`isoMeshes
      ensures Valid()
      ensures currentIsoSlider == val
      ensures isoMeshes == ShowUpTo(old(isoMeshes), val)
    {
      currentIsoSlider := val;
      var i := 0;
      while i < |isoMeshes|
        invariant 0 <= i <= |isoMeshes| == |old(isoMeshes)|
        invariant currentIsoSlider == val
        invariant forall j :: 0 <= j < i ==> isoMeshes[j] == ShowUpTo(old(isoMeshes), val)[j]
        invariant forall j :: i <= j < |isoMeshes| ==> isoMeshes[j] == old(isoMeshes)[j]
      {
        if isoMeshes[i].Some? {
          isoMeshes := isoMeshes[i := Some(isoMeshes[i].value.(visible := i < val))];
        }
        i := i + 1;
      }
      assert isoMeshes == ShowUpTo(old(isoMeshes), val);
      ShowUpToSetsPrefix(old(isoMeshes), val);
      SameSlotsSameCount(isoMeshes, old(isoMeshes));
    }

    // ---------------------------------------------------------- clipping slab

    /** Hands `planes` to the material of every loaded iso mesh. */
    method SetMeshPlanes(planes: seq<Plane>)
      requires Valid() && (clippingEnabled || planes == [])
      modifies this`isoMeshes
      ensures Valid()
      ensures isoMeshes == WithPlanes(old(isoMeshes), planes)
    {
      var i := 0;
      while i < |isoMeshes|
        invariant 0 <= i <= |isoMeshes| == |old(isoMeshes)|
        invariant forall j :: 0 <= j < i ==> isoMeshes[j] == WithPlanes(old(isoMeshes), planes)[j]
        invariant forall j :: i <= j < |isoMeshes| ==> isoMeshes[j] == old(isoMeshes)[j]
      {
        if isoMeshes[i].Some? {
          isoMeshes := isoMeshes[i := Some(isoMeshes[i].value.(clipPlanes := planes))];
        }
        i := i + 1;
      }
      assert isoMeshes == WithPlanes(old(isoMeshes), planes);
      WithPlanesKeepsSlots(old(isoMeshes), planes, currentIsoSlider);
      SameSlotsSameCount(isoMeshes, old(isoMeshes));
    }

    /**
     * Does nothing while clipping is off. Otherwise builds the two slab planes
     * from the clip state (see `SlabPlanes`) and hands them to every loaded iso mesh.
     */
    method ApplyClippingPlanes()
      requires Valid()
      modifies this`isoMeshes, this`clipPlanes
      ensures Valid()
      ensures !clippingEnabled ==> isoMeshes == old(isoMeshes) && clipPlanes == old(clipPlanes)
      ensures clippingEnabled ==> clipPlanes == SlabPlanes(clipState) && isoMeshes == WithPlanes(old(isoMeshes), clipPlanes)
    {
      if !clippingEnabled {
        return;
      }
      clipPlanes := SlabPlanes(clipState);
      SetMeshPlanes(clipPlanes);
    }

    /**
     * Enabling applies the planes; disabling clears the planes of every loaded
     * mesh and keeps the clip state and the last plane pair.
     */
    method ToggleClippingSlab()
      requires Valid()
      modifies this`clippingEnabled, this`isoMeshes, this`clipPlanes
      ensures Valid()
      ensures clippingEnabled == !old(clippingEnabled)
      ensures clipState == old(clipState)
      ensures old(clippingEnabled) ==> isoMeshes == WithPlanes(old(isoMeshes), []) && clipPlanes == old(clipPlanes)
      ensures !old(clippingEnabled) ==> clipPlanes == SlabPlanes(clipState) && isoMeshes == WithPlanes(old(isoMeshes), clipPlanes)
    {
      if !clippingEnabled {
        clippingEnabled := true;
        ApplyClippingPlanes();
      } else {
        SetMeshPlanes([]);
        clippingEnabled := false;
      }
    }

    // ------------------------------------------------------------ mode panels

    /** Once the GUI exists: hides every panel, then shows and highlights the chosen one. */
    method SwitchMode(mode: Mode)
      requires Valid()
      modifies this`panels
      ensures Valid()
      ensures !guiReady ==> panels == old(panels)
      ensures guiReady ==> panels == Switched(mode)
    {
      if !guiReady {
        return;
      }
      panels := Panels(None, NoneShown());
      panels := Panels(Some(mode), panels.shown[mode := true]);
      assert panels.shown == OnlyShown(mode);
    }

    // ------------------------------------------------------ allegiance gating

    /**
     * A settled allegiance load: the file leaves the in-flight set and, when it
     * loaded, is counted by `AllegianceArrived`.
     */
    method CompleteAllegianceLoad(a: Allegiance, ok: bool)
      requires Valid() && a in allegiancePending
      modifies this`allegiancePending, this`arrived, this`allegianceGroups, this`loadedCount,
               this`guiReady, this`panels, this`galacticPlane, this`heliumState, this`coloniesOpacity
      ensures Valid()
      ensures allegiancePending == old(allegiancePending) - {a}
      ensures guiReady <==> arrived == AllAllegiances
      ensures coloniesOpacity == old(coloniesOpacity)
      ensures !ok ==>
        && arrived == old(arrived) && loadedCount == old(loadedCount) && allegianceGroups == old(allegianceGroups)
        && guiReady == old(guiReady) && panels == old(panels) && galacticPlane == old(galacticPlane)
        && heliumState == old(heliumState)
      ensures ok ==> arrived == old(arrived) + {a} && loadedCount == old(loadedCount) + 1
      ensures ok && loadedCount < AllegianceFileCount ==>
        && allegianceGroups == Arrive(old(allegianceGroups), a, Group(true, AllegianceLoadOpacity))
        && !guiReady && panels == old(panels) && galacticPlane == old(galacticPlane) && heliumState == old(heliumState)
      ensures ok && loadedCount == AllegianceFileCount ==>
        && guiReady
        && panels == Switched(GalaxyVisuals)
        && heliumState == old(heliumState).(colorIntensity := Some(InitialColorIntensity))
        && galacticPlane == PlaneShown(old(galacticPlane), galacticPlaneState)
        && allegianceGroups == GateGroups(Arrive(old(allegianceGroups), a, Group(true, AllegianceLoadOpacity)),
                                          a == GuardianBubble, coloniesVisible, coloniesOpacity)
    {
      allegiancePending := allegiancePending - {a};
      if ok {
        AllegianceArrived(a);
      } else {
        EightArrivedIffAll(arrived);
      }
    }

    /**
     * A file that loaded. On the completion that brings the count to eight the
     * GUI is built, Galaxy Visuals is switched to, the galactic plane shown and
     * the groups synchronised with the colonies controls.
     */
    method AllegianceArrived(a: Allegiance)
      requires Valid() && a !in arrived && a !in allegiancePending
      modifies this`arrived, this`allegianceGroups, this`loadedCount,
               this`guiReady, this`panels, this`galacticPlane, this`heliumState, this`coloniesOpacity
      ensures Valid()
      ensures guiReady <==> arrived == AllAllegiances
      ensures coloniesOpacity == old(coloniesOpacity)
      ensures arrived == old(arrived) + {a} && loadedCount == old(loadedCount) + 1
      ensures loadedCount < AllegianceFileCount ==>
        && allegianceGroups == Arrive(old(allegianceGroups), a, Group(true, AllegianceLoadOpacity))
        && !guiReady && panels == old(panels) && galacticPlane == old(galacticPlane) && heliumState == old(heliumState)
      ensures loadedCount == AllegianceFileCount ==>
        && guiReady
        && panels == Switched(GalaxyVisuals)
        && heliumState == old(heliumState).(colorIntensity := Some(InitialColorIntensity))
        && galacticPlane == PlaneShown(old(galacticPlane), galacticPlaneState)
        && allegianceGroups == GateGroups(Arrive(old(allegianceGroups), a, Group(true, AllegianceLoadOpacity)),
                                          a == GuardianBubble, coloniesVisible, coloniesOpacity)
    {
      CountAllegiance(a);
      if loadedCount == AllegianceFileCount {
        OpenGui(a == GuardianBubble);
      }
    }

    /** The gate itself, reached once all eight files are counted. */
    method OpenGui(lastWasGuardian: bool)
      requires StatesTotal() && IsoValid() && HeliumValid()
      requires loadedCount == |arrived| && arrived !! allegiancePending
      requires allegianceGroups.Keys == arrived - {GuardianBubble}
      requires loadedCount == AllegianceFileCount
      modifies this`guiReady, this`panels, this`galacticPlane, this`heliumState, this`allegianceGroups, this`coloniesOpacity
      ensures Valid()
      ensures coloniesOpacity == old(coloniesOpacity)
      ensures guiReady && panels == Switched(GalaxyVisuals)
      ensures heliumState == old(heliumState).(colorIntensity := Some(InitialColorIntensity))
      ensures galacticPlane == PlaneShown(old(galacticPlane), galacticPlaneState)
      ensures allegianceGroups == GateGroups(old(allegianceGroups), lastWasGuardian, coloniesVisible, coloniesOpacity)
    {
      InitGuis();
      ShowGalaxyDefaults();
      SyncAllegianceGroups(lastWasGuardian);
    }

    /**
     * Counts one loaded allegiance file and, unless it is the Guardian one,
     * inserts its group shown at the default point opacity.
     */
    method CountAllegiance(a: Allegiance)
      requires Valid() && a !in arrived && a !in allegiancePending
      modifies this`allegianceGroups, this`arrived, this`loadedCount
      ensures arrived == old(arrived) + {a} && loadedCount == |arrived| == old(loadedCount) + 1
      ensures arrived !! allegiancePending && allegianceGroups.Keys == arrived - {GuardianBubble}
      ensures allegianceGroups == Arrive(old(allegianceGroups), a, Group(true, AllegianceLoadOpacity))
      ensures !guiReady && (loadedCount < AllegianceFileCount ==> Valid())
      ensures loadedCount == AllegianceFileCount <==> arrived == AllAllegiances
    {
      EightArrivedIffAll(arrived);
      ArriveKeepsKeys(allegianceGroups, arrived, a, Group(true, AllegianceLoadOpacity));
      allegianceGroups := Arrive(allegianceGroups, a, Group(true, AllegianceLoadOpacity));
      arrived := arrived + {a};
      loadedCount := loadedCount + 1;
      EightArrivedIffAll(arrived);
    }

    /**
     * The registry side of building the GUI: it becomes ready with every panel
     * hidden and no mode highlighted, and writes the helium colour intensity.
     */
    method InitGuis()
      requires StatesTotal() && IsoValid() && HeliumValid()
      requires loadedCount == |arrived| && arrived !! allegiancePending
      requires allegianceGroups.Keys == arrived - {GuardianBubble}
      requires loadedCount == AllegianceFileCount
      modifies this`guiReady, this`panels, this`heliumState
      ensures Valid()
      ensures guiReady && panels == InitialPanels()
      ensures heliumState == old(heliumState).(colorIntensity := Some(InitialColorIntensity))
    {
      guiReady := true;
      panels := InitialPanels();
      heliumState := heliumState.(colorIntensity := Some(InitialColorIntensity));
    }

    /**
     * What the last allegiance completion does once the GUI exists: switch to
     * Galaxy Visuals and show the galactic plane if it is absent or hidden.
     */
    method ShowGalaxyDefaults()
      requires Valid() && guiReady
      modifies this`panels, this`galacticPlane
      ensures Valid()
      ensures panels == Switched(GalaxyVisuals)
      ensures galacticPlane == PlaneShown(old(galacticPlane), galacticPlaneState)
    {
      SwitchMode(GalaxyVisuals);
      if galacticPlane.None? || !galacticPlane.value.visible {
        ToggleGalacticPlane();
      }
    }

    /**
     * Gives every allegiance group the colonies flag as its visibility and,
     * after the Guardian completion only, the colonies opacity.
     */
    method SyncAllegianceGroups(lastWasGuardian: bool)
      requires Valid()
      modifies this`allegianceGroups, this`coloniesOpacity
      ensures Valid()
      ensures coloniesOpacity == old(coloniesOpacity)
      ensures allegianceGroups == GateGroups(old(allegianceGroups), lastWasGuardian, coloniesVisible, coloniesOpacity)
    {
      allegianceGroups := AllVisibleAs(allegianceGroups, coloniesVisible);
      if lastWasGuardian {
        SetColoniesOpacity(coloniesOpacity);
      }
    }
  }
}
