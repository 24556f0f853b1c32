/**
 * The handlers the GUI installs once it is built. Each slider writes the
 * state record it is bound to and then runs its change handler against the
 * registry; each button of the mode selector and each panel header or close
 * button moves the mode panels. The handlers exist only after the GUI has been
 * built, so every one of them requires a ready registry.
 */
module Gui {
  import opened Wrappers
  import opened Constants
  import opened Slab
  import opened StarColor
  import opened Layers
  import opened Viewer
  import VertexColors

  // -------------------------------------------------------- shared controls

  /** Galactic-map opacity slider: the record takes the value, and so does a loaded plane. */
  method OnGalacticOpacityChange(app: App, v: real)
    requires app.Valid() && app.guiReady
    modifies app`galacticPlaneState, app`galacticPlane
    ensures app.Valid()
    ensures app.galacticPlaneState == old(app.galacticPlaneState).(opacity := v)
    ensures old(app.galacticPlane).None? ==> app.galacticPlane.None?
    ensures old(app.galacticPlane).Some? ==> app.galacticPlane == Some(old(app.galacticPlane).value.(opacity := v))
  {
    app.galacticPlaneState := app.galacticPlaneState.(opacity := v);
    if app.galacticPlane.Some? {
      app.galacticPlane := Some(app.galacticPlane.value.(opacity := v));
    }
  }

  /** Galactic-map height slider: the record takes the value, and so does a loaded plane. */
  method OnGalacticYChange(app: App, y: real)
    requires app.Valid() && app.guiReady
    modifies app`galacticPlaneState, app`galacticPlane
    ensures app.Valid()
    ensures app.galacticPlaneState == old(app.galacticPlaneState).(y := y)
    ensures old(app.galacticPlane).None? ==> app.galacticPlane.None?
    ensures old(app.galacticPlane).Some? ==> app.galacticPlane == Some(old(app.galacticPlane).value.(y := y))
  {
    app.galacticPlaneState := app.galacticPlaneState.(y := y);
    if app.galacticPlane.Some? {
      app.galacticPlane := Some(app.galacticPlane.value.(y := y));
    }
  }

  /** Star-cloud opacity slider: rescales a loaded cloud, then records the slider value. */
  method OnStarCloudOpacityChange(app: App, v: real)
    requires app.Valid() && app.guiReady
    modifies app`starCloud, app`starCloudOpacitySlider
    ensures app.Valid()
    ensures app.starCloudOpacitySlider == v
    ensures old(app.starCloud).None? ==> app.starCloud.None?
    ensures old(app.starCloud).Some? ==>
      app.starCloud == Some(old(app.starCloud).value.(opacityNear := StarCloudNear(v), opacityFar := StarCloudFar(v)))
  {
    app.SetStarCloudOpacity(v);
    app.starCloudOpacitySlider := v;
  }

  // ------------------------------------------------------ galaxy visuals

  /** Colonies opacity slider: the registry's value, then every allegiance group. */
  method OnColoniesOpacityChange(app: App, v: real)
    requires app.Valid() && app.guiReady
    modifies app`coloniesOpacity, app`allegianceGroups
    ensures app.Valid()
    ensures app.coloniesOpacity == v
    ensures app.allegianceGroups == AllOpacityAs(old(app.allegianceGroups), v)
  {
    app.coloniesOpacity := v;
    app.SetColoniesOpacity(v);
  }

  /** Helium opacity slider: the record takes the value, and so does a loaded helium group. */
  method OnHeliumOpacityChange(app: App, v: real)
    requires app.Valid() && app.guiReady
    modifies app`heliumState, app`heliumGroup
    ensures app.Valid()
    ensures app.heliumState == old(app.heliumState).(opacity := v)
    ensures old(app.heliumGroup).None? ==> app.heliumGroup.None?
    ensures old(app.heliumGroup).Some? ==> app.heliumGroup == Some(old(app.heliumGroup).value.(opacity := v))
  {
    app.heliumState := app.heliumState.(opacity := v);
    if app.heliumGroup.Some? {
      app.heliumGroup := Some(app.heliumGroup.value.(opacity := v));
    }
  }

  /**
   * Helium colour-intensity slider: the record takes the value and a loaded
   * group's colours are recomputed from its snapshot, so the result depends on
   * the value alone and not on earlier moves of the slider.
   */
  method OnHeliumColorIntensityChange(app: App, v: real)
    requires app.Valid() && app.guiReady
    modifies app`heliumState, app`heliumGroup
    ensures app.Valid()
    ensures app.heliumState == old(app.heliumState).(colorIntensity := Some(v))
    ensures old(app.heliumGroup).None? ==> app.heliumGroup.None?
    ensures old(app.heliumGroup).Some? ==>
      && app.heliumGroup.Some?
      && app.heliumGroup.value.original == old(app.heliumGroup).value.original
      && app.heliumGroup.value.colors == VertexColors.Recolored(app.heliumGroup.value.original, v)
      && app.heliumGroup.value.visible == old(app.heliumGroup).value.visible
      && app.heliumGroup.value.opacity == old(app.heliumGroup).value.opacity
  {
    app.heliumState := app.heliumState.(colorIntensity := Some(v));
    if app.heliumGroup.Some? {
      var g := app.heliumGroup.value;
      app.heliumGroup := Some(g.(colors := VertexColors.Recolored(g.original, v)));
    }
  }

  /** Per-site Guardian opacity slider: the site's record, and the site's group once loaded. */
  method OnGuardianOpacityChange(app: App, site: GuardianSite, v: real)
    requires app.Valid() && app.guiReady
    modifies app`guardianState, app`guardianGroups
    ensures app.Valid()
    ensures app.guardianState == old(app.guardianState)[site := v]
    ensures site !in old(app.guardianGroups) ==> app.guardianGroups == old(app.guardianGroups)
    ensures site in old(app.guardianGroups) ==>
      app.guardianGroups == old(app.guardianGroups)[site := old(app.guardianGroups)[site].(opacity := v)]
  {
    app.guardianState := app.guardianState[site := v];
    if site in app.guardianGroups {
      app.guardianGroups := app.guardianGroups[site := app.guardianGroups[site].(opacity := v)];
    }
  }

  // --------------------------------------------------- stellar properties

  /** Mass-layer opacity slider: the class's record, and the class's layer once loaded. */
  method OnMassOpacityChange(app: App, k: MassClass, v: real)
    requires app.Valid() && app.guiReady
    modifies app`massState, app`massGroups
    ensures app.Valid()
    ensures app.massState == old(app.massState)[k := old(app.massState)[k].(opacity := v)]
    ensures k !in old(app.massGroups) ==> app.massGroups == old(app.massGroups)
    ensures k in old(app.massGroups) ==>
      app.massGroups == old(app.massGroups)[k := old(app.massGroups)[k].(opacity := v)]
  {
    app.massState := app.massState[k := app.massState[k].(opacity := v)];
    if k in app.massGroups {
      app.massGroups := app.massGroups[k := app.massGroups[k].(opacity := v)];
    }
  }

  /** Mass-layer colour-temperature slider: the class's record, and the loaded layer's colour. */
  method OnMassColorTempChange(app: App, k: MassClass, v: real)
    requires app.Valid() && app.guiReady
    modifies app`massState, app`massGroups
    ensures app.Valid()
    ensures app.massState == old(app.massState)[k := old(app.massState)[k].(colorTemp := v)]
    ensures k !in old(app.massGroups) ==> app.massGroups == old(app.massGroups)
    ensures k in old(app.massGroups) ==>
      app.massGroups == old(app.massGroups)[k := old(app.massGroups)[k].(color := StarColorFromTemp(v))]
  {
    app.massState := app.massState[k := app.massState[k].(colorTemp := v)];
    if k in app.massGroups {
      var starColor := StarColorFromTemp(v);
      app.massGroups := app.massGroups[k := app.massGroups[k].(color := starColor)];
    }
  }

  // ------------------------------------------------------ stellar density

  /** Iso-level slider, whole numbers from 0 to the number of ranks. */
  method OnIsoSliderChange(app: App, v: int)
    requires app.Valid() && app.guiReady
    requires 0 <= v <= IsoStyle.IsoLevelCount
    modifies app`currentIsoSlider, app`isoMeshes
    ensures app.Valid()
    ensures app.currentIsoSlider == v
    ensures app.isoMeshes == ShowUpTo(old(app.isoMeshes), v)
  {
    app.SetIsoVisibility(v);
  }

  /** Slab-center slider: the clip state takes the value and the planes are re-applied. */
  method OnCenterChange(app: App, c: real)
    requires app.Valid() && app.guiReady
    modifies app`clipState, app`isoMeshes, app`clipPlanes
    ensures app.Valid()
    ensures app.clipState == old(app.clipState).(center := c)
    ensures !app.clippingEnabled ==> app.isoMeshes == old(app.isoMeshes) && app.clipPlanes == old(app.clipPlanes)
    ensures app.clippingEnabled ==>
      app.clipPlanes == SlabPlanes(app.clipState) && app.isoMeshes == WithPlanes(old(app.isoMeshes), app.clipPlanes)
  {
    app.clipState := app.clipState.(center := c);
    app.ApplyClippingPlanes();
  }

  /**
   * Slab-thickness slider: the clip state takes the index, the planes are
   * re-applied and the label is refreshed. The label shows the thickness
   * the planes use whenever the index names a table entry.
   */
  method OnThicknessChange(app: App, idx: int) returns (shownThickness: int)
    requires app.Valid() && app.guiReady
    modifies app`clipState, app`isoMeshes, app`clipPlanes
    ensures app.Valid()
    ensures app.clipState == old(app.clipState).(thicknessIndex := idx)
    ensures !app.clippingEnabled ==> app.isoMeshes == old(app.isoMeshes) && app.clipPlanes == old(app.clipPlanes)
    ensures app.clippingEnabled ==>
      app.clipPlanes == SlabPlanes(app.clipState) && app.isoMeshes == WithPlanes(old(app.isoMeshes), app.clipPlanes)
    ensures shownThickness in ThicknessSteps
    ensures ValidStep(idx) ==> shownThickness == ThicknessFor(idx)
  {
    app.clipState := app.clipState.(thicknessIndex := idx);
    app.ApplyClippingPlanes();
    shownThickness := LabelThickness(app.clipState.thicknessIndex);
    LabelAndPlanesAgreeOnlyInRange(idx);
  }

  /**
   * Slab-axis selector: the clip state takes the axis, the center jumps to the
   * axis midpoint and the thickness index returns to the first step; the label
   * is refreshed and the planes are applied. The two sliders are handed the
   * values their bound fields already hold, so their change handlers do not run.
   */
  method OnAxisChange(app: App, axis: Axis) returns (shownThickness: int)
    requires app.Valid() && app.guiReady
    modifies app`clipState, app`isoMeshes, app`clipPlanes
    ensures app.Valid()
    ensures app.clipState == ClipState(axis, Midpoint(axis), 0)
    ensures !app.clippingEnabled ==> app.isoMeshes == old(app.isoMeshes) && app.clipPlanes == old(app.clipPlanes)
    ensures app.clippingEnabled ==>
      app.clipPlanes == SlabPlanes(app.clipState) && app.isoMeshes == WithPlanes(old(app.isoMeshes), app.clipPlanes)
    ensures shownThickness == ThicknessFor(app.clipState.thicknessIndex) == ThicknessSteps[0]
  {
    app.clipState := ClipState(axis, Midpoint(axis), 0);
    shownThickness := LabelThickness(app.clipState.thicknessIndex);
    app.ApplyClippingPlanes();
  }

  /**
   * After an axis change the slab is the thinnest step centred on the axis
   * midpoint, which lies well inside the axis range.
   */
  lemma AxisChangeSlab(axis: Axis)
    ensures var s := ClipState(axis, Midpoint(axis), 0);
      && SlabMin(s) == Midpoint(axis) - 5.0 && SlabMax(s) == Midpoint(axis) + 5.0
      && AxisRange(axis).min as real < SlabMin(s) && SlabMax(s) < AxisRange(axis).max as real
  {
    var s := ClipState(axis, Midpoint(axis), 0);
    assert ThicknessFor(0) == 10;
    match axis
    case X =>
    case Y =>
    case Z =>
  }

  // ------------------------------------------------------------ mode panels

  /**
   * A mode button: pressing the highlighted mode while its panel is shown
   * hides that panel and clears the highlight; any other press switches to
   * the mode.
   */
  method SelectMode(app: App, choice: Mode)
    requires app.Valid() && app.guiReady
    modifies app`panels
    ensures app.Valid()
    ensures app.panels == Selected(old(app.panels), choice)
  {
    SelectKeepsCurrentShown(app.panels, choice);
    SelectKeepsOnePanel(app.panels, choice);
    var already := app.panels.current == Some(choice) && app.panels.shown[choice];
    if already {
      app.panels := Panels(None, app.panels.shown[choice := false]);
    } else {
      app.SwitchMode(choice);
    }
  }

  /**
   * A panel header. The header sits inside its panel, so it can only be
   * clicked while the panel is shown; the click then hides the panel, and
   * as at most one panel is ever shown, leaves no panel shown and no mode
   * highlighted. Its branch for a hidden panel cannot be taken and is left
   * out of the body; `HeaderClicked` still describes it.
   */
  method HeaderClick(app: App, m: Mode)
    requires app.Valid() && app.guiReady && HasHeader(m)
    requires app.panels.shown[m]
    modifies app`panels
    ensures app.Valid()
    ensures app.panels == HeaderClicked(old(app.panels), m)
    ensures app.panels.current.None? && forall k: Mode :: !app.panels.shown[k]
  {
    HeaderAndCloseKeepCurrentShown(app.panels, m);
    HeaderAndCloseKeepOnePanel(app.panels, m);
    ClosingShownPanelHidesAll(app.panels, m);
    var current := if app.panels.current == Some(m) then None else app.panels.current;
    app.panels := Panels(current, app.panels.shown[m := false]);
  }

  /**
   * A panel's close button, also inside the shown panel: hides the panel and
   * clears the highlight if it was this mode's, leaving no panel shown.
   */
  method CloseClick(app: App, m: Mode)
    requires app.Valid() && app.guiReady && HasHeader(m)
    requires app.panels.shown[m]
    modifies app`panels
    ensures app.Valid()
    ensures app.panels == Closed(old(app.panels), m)
    ensures app.panels.current.None? && forall k: Mode :: !app.panels.shown[k]
  {
    HeaderAndCloseKeepCurrentShown(app.panels, m);
    HeaderAndCloseKeepOnePanel(app.panels, m);
    ClosingShownPanelHidesAll(app.panels, m);
    var shown := app.panels.shown[m := false];
    var current := if app.panels.current == Some(m) then None else app.panels.current;
    app.panels := Panels(current, shown);
  }
}
