/** The exclusive-basemap rule run whenever the visibility of a base layer changes:
    `isAnyOrthoLayerVisible` and `manageBasemapVisibility`. */
module Basemap {
  import opened Wrappers

  /** A base layer as the manager sees it; `wasVisible` is the visibility the manager recorded
      at its previous run, and `None` (`undefined`) before it has ever run. */
  datatype BaseLayer = BaseLayer(title: string, visible: bool, wasVisible: Option<bool>)

  /** The three aerial-photo basemap titles. */
  const OrthoTitles: seq<string> := ["Ortho 2012", "Ortho 2016", "Ortho 2019"]

  /** The titles the manager tracks: the ortho titles and `${basemapTitle}` from the
      configuration (the text "undefined" when the configuration has none). */
  function TrackedTitles(basemapTitle: Option<string>): seq<string>
  {
    OrthoTitles + [TemplateText(basemapTitle)]
  }

  predicate Tracked(layer: BaseLayer, basemapTitle: Option<string>)
  {
    layer.title in TrackedTitles(basemapTitle)
  }

  /** The layer is not recorded as visible: its `wasVisible` is false or still undefined. */
  predicate NotRecordedVisible(layer: BaseLayer)
  {
    layer.wasVisible != Some(true)
  }

  /** A tracked layer that is visible and was not recorded as visible. */
  predicate NewlyVisible(layer: BaseLayer, basemapTitle: Option<string>)
  {
    Tracked(layer, basemapTitle) && layer.visible && NotRecordedVisible(layer)
  }

  /** Whether some base layer is visible and carries one of the three ortho titles. */
  function IsAnyOrthoLayerVisible(layers: seq<BaseLayer>): bool
  {
    if layers == [] then false
    else (layers[0].visible && layers[0].title in OrthoTitles) || IsAnyOrthoLayerVisible(layers[1..])
  }

  /** Some ortho layer is visible exactly when one of the layers is visible and carries one of
      the three ortho titles; the configured basemap title does not count. */
  lemma {:induction false} IsAnyOrthoLayerVisibleIff(layers: seq<BaseLayer>)
    ensures IsAnyOrthoLayerVisible(layers)
        <==> exists i :: 0 <= i < |layers| && layers[i].visible && layers[i].title in OrthoTitles
  {
    if layers != [] {
      IsAnyOrthoLayerVisibleIff(layers[1..]);
      if IsAnyOrthoLayerVisible(layers[1..]) {
        var i :| 0 <= i < |layers[1..]| && layers[1..][i].visible && layers[1..][i].title in OrthoTitles;
        assert layers[i + 1] == layers[1..][i];
      }
      if exists i :: 0 <= i < |layers| && layers[i].visible && layers[i].title in OrthoTitles {
        var i :| 0 <= i < |layers| && layers[i].visible && layers[i].title in OrthoTitles;
        if i > 0 {
          assert layers[1..][i - 1] == layers[i];
        }
      }
    }
  }

  /** The index of the first newly visible tracked layer, if any. */
  function FirstNewlyVisible(layers: seq<BaseLayer>, basemapTitle: Option<string>): (k: Option<nat>)
    ensures k.Some? ==> k.value < |layers| && NewlyVisible(layers[k.value], basemapTitle)
    ensures k.Some? ==> forall j :: 0 <= j < k.value ==> !NewlyVisible(layers[j], basemapTitle)
    ensures k.None? ==> forall j :: 0 <= j < |layers| ==> !NewlyVisible(layers[j], basemapTitle)
  {
    if layers == [] then None
    else if NewlyVisible(layers[0], basemapTitle) then Some(0)
    else
      match FirstNewlyVisible(layers[1..], basemapTitle)
      case None => None
      case Some(k) => Some(k + 1)
  }

  /** One layer after the manager has run: a tracked layer stays visible only if `keep` allows
      it, and its `wasVisible` then records its visibility; an untracked layer is left alone. */
  function Settled(layer: BaseLayer, basemapTitle: Option<string>, keep: bool): BaseLayer
  {
    if Tracked(layer, basemapTitle) then
      var v := layer.visible && keep;
      layer.(visible := v, wasVisible := Some(v))
    else layer
  }

  /** The base layers after `manageBasemapVisibility`: if some tracked layer has just become
      visible, every other tracked layer is switched off; then every tracked layer records its
      visibility in `wasVisible`. */
  function ManagedLayers(layers: seq<BaseLayer>, basemapTitle: Option<string>): seq<BaseLayer>
  {
    var k := FirstNewlyVisible(layers, basemapTitle);
    seq(|layers|, i requires 0 <= i < |layers| => Settled(layers[i], basemapTitle, k.None? || k.value == i))
  }

  /** When a tracked layer has just been switched on, the first such layer is afterwards the
      only visible tracked layer. */
  lemma ManagedExclusive(layers: seq<BaseLayer>, basemapTitle: Option<string>, k: nat)
    requires FirstNewlyVisible(layers, basemapTitle) == Some(k)
    ensures ManagedLayers(layers, basemapTitle)[k].visible
    ensures forall i :: 0 <= i < |layers| && i != k && Tracked(layers[i], basemapTitle)
              ==> !ManagedLayers(layers, basemapTitle)[i].visible
  {
  }

  /** When no tracked layer has just been switched on, no layer's visibility changes. */
  lemma ManagedKeepsVisibility(layers: seq<BaseLayer>, basemapTitle: Option<string>)
    requires FirstNewlyVisible(layers, basemapTitle) == None
    ensures forall i :: 0 <= i < |layers| ==> ManagedLayers(layers, basemapTitle)[i].visible == layers[i].visible
  {
  }

  /** Titles never change, untracked layers are not touched at all, and every tracked layer
      ends with `wasVisible == visible`. */
  lemma ManagedFrame(layers: seq<BaseLayer>, basemapTitle: Option<string>)
    ensures forall i :: 0 <= i < |layers| ==> ManagedLayers(layers, basemapTitle)[i].title == layers[i].title
    ensures forall i :: 0 <= i < |layers| && !Tracked(layers[i], basemapTitle)
              ==> ManagedLayers(layers, basemapTitle)[i] == layers[i]
    ensures forall i :: 0 <= i < |layers| && Tracked(layers[i], basemapTitle)
              ==> ManagedLayers(layers, basemapTitle)[i].wasVisible == Some(ManagedLayers(layers, basemapTitle)[i].visible)
  {
  }

  /** Running the manager a second time changes nothing, so the watcher that its own changes
      trigger settles at once. */
  lemma ManagedIdempotent(layers: seq<BaseLayer>, basemapTitle: Option<string>)
    ensures ManagedLayers(ManagedLayers(layers, basemapTitle), basemapTitle) == ManagedLayers(layers, basemapTitle)
  {
  }

  /** Every tracked layer's `wasVisible` holds its current visibility, as the manager leaves
      them (`ManagedFrame`). */
  predicate Recorded(layers: seq<BaseLayer>, basemapTitle: Option<string>)
  {
    forall i :: 0 <= i < |layers| && Tracked(layers[i], basemapTitle) ==> layers[i].wasVisible == Some(layers[i].visible)
  }

  /** The layers after the user switches on tracked layer `k`. */
  function SwitchedOn(layers: seq<BaseLayer>, k: nat): seq<BaseLayer>
    requires k < |layers|
  {
    layers[k := layers[k].(visible := true)]
  }

  /** On the first run every `wasVisible` is `undefined`. If the user switches on the configured
      basemap while "Ortho 2019", shown at load, comes before it, "Ortho 2019" is taken for the
      newly visible layer and the user's choice is switched off again. */
  lemma FirstRunUndoesSwitchOn()
    ensures var before := [BaseLayer("Ortho 2019", true, None), BaseLayer("Imagery", false, None)];
            var after := ManagedLayers(SwitchedOn(before, 1), Some("Imagery"));
            && NewlyVisible(SwitchedOn(before, 1)[0], Some("Imagery"))
            && NewlyVisible(SwitchedOn(before, 1)[1], Some("Imagery"))
            && FirstNewlyVisible(SwitchedOn(before, 1), Some("Imagery")) == Some(0)
            && after[0].visible && !after[1].visible
  {
  }

  /** The evidently intended start: each tracked layer's visibility recorded when the watcher is
      registered, as every later run leaves it. */
  function Seeded(layers: seq<BaseLayer>, basemapTitle: Option<string>): (r: seq<BaseLayer>)
    ensures Recorded(r, basemapTitle)
  {
    seq(|layers|, i requires 0 <= i < |layers| => Synced(layers[i], basemapTitle))
  }

  /** From recorded layers, the one tracked layer the user switches on is the newly visible
      one, and the manager keeps it and switches every other tracked layer off. */
  lemma {:induction false} SwitchOnWins(layers: seq<BaseLayer>, basemapTitle: Option<string>, k: nat)
    requires Recorded(layers, basemapTitle)
    requires k < |layers| && Tracked(layers[k], basemapTitle) && !layers[k].visible
    ensures FirstNewlyVisible(SwitchedOn(layers, k), basemapTitle) == Some(k)
    ensures ManagedLayers(SwitchedOn(layers, k), basemapTitle)[k].visible
    ensures forall i :: 0 <= i < |layers| && i != k && Tracked(layers[i], basemapTitle)
              ==> !ManagedLayers(SwitchedOn(layers, k), basemapTitle)[i].visible
  {
    var s := SwitchedOn(layers, k);
    assert NewlyVisible(s[k], basemapTitle);
    assert forall j :: 0 <= j < |s| && j != k ==> s[j] == layers[j];
    var f := FirstNewlyVisible(s, basemapTitle);
    assert f.Some?;
    assert f.value == k;
    ManagedExclusive(s, basemapTitle, k);
  }

  /** The same layers and the same switch-on, started from the recorded state: the user's layer
      stays on and "Ortho 2019" is switched off. */
  lemma SeededSwitchOnKept()
    ensures var before := [BaseLayer("Ortho 2019", true, None), BaseLayer("Imagery", false, None)];
            var after := ManagedLayers(SwitchedOn(Seeded(before, Some("Imagery")), 1), Some("Imagery"));
            && after[1].visible && !after[0].visible
  {
    var bt := Some("Imagery");
    var before := [BaseLayer("Ortho 2019", true, None), BaseLayer("Imagery", false, None)];
    assert TrackedTitles(bt)[2] == "Ortho 2019";
    assert TrackedTitles(bt)[3] == "Imagery";
    SwitchOnWins(Seeded(before, bt), bt, 1);
  }

  /** The first pass: a tracked layer other than the kept one is switched off. */
  function SwitchedOff(layer: BaseLayer, basemapTitle: Option<string>, keep: bool): BaseLayer
  {
    if Tracked(layer, basemapTitle) && !keep then layer.(visible := false) else layer
  }

  /** The second pass: a tracked layer records its visibility. */
  function Synced(layer: BaseLayer, basemapTitle: Option<string>): BaseLayer
  {
    if Tracked(layer, basemapTitle) then layer.(wasVisible := Some(layer.visible)) else layer
  }

  /** The scan for the first tracked layer that is visible and not recorded as visible. */
  method FindNewlyVisible(layers: array<BaseLayer>, basemapTitle: Option<string>) returns (newly: Option<nat>)
    ensures newly == FirstNewlyVisible(layers[..], basemapTitle)
  {
    newly := None;
    var i := 0;
    while i < layers.Length && newly.None?
      invariant 0 <= i <= layers.Length
      invariant newly.None? ==> forall j :: 0 <= j < i ==> !NewlyVisible(layers[j], basemapTitle)
      invariant newly.Some? ==> newly.value < layers.Length && NewlyVisible(layers[newly.value], basemapTitle)
      invariant newly.Some? ==> forall j :: 0 <= j < newly.value ==> !NewlyVisible(layers[j], basemapTitle)
    {
      if NewlyVisible(layers[i], basemapTitle) {
        newly := Some(i);
      }
      i := i + 1;
    }
    ghost var k := FirstNewlyVisible(layers[..], basemapTitle);
    if k.Some? && newly.Some? {
      assert !(k.value < newly.value) && !(newly.value < k.value);
    }
  }

  /** The pass that hides every tracked layer except the newly visible one. */
  method SwitchOffOthers(layers: array<BaseLayer>, basemapTitle: Option<string>, kept: nat)
    modifies layers
    ensures forall j :: 0 <= j < layers.Length ==> layers[j] == SwitchedOff(old(layers[j]), basemapTitle, j == kept)
  {
    for i := 0 to layers.Length
      invariant forall j :: 0 <= j < i ==> layers[j] == SwitchedOff(old(layers[j]), basemapTitle, j == kept)
      invariant forall j :: i <= j < layers.Length ==> layers[j] == old(layers[j])
    {
      if Tracked(layers[i], basemapTitle) && i != kept {
        layers[i] := layers[i].(visible := false);
      }
    }
  }

  /** The pass in which every tracked layer records its current visibility. */
  method SyncWasVisible(layers: array<BaseLayer>, basemapTitle: Option<string>)
    modifies layers
    ensures forall j :: 0 <= j < layers.Length ==> layers[j] == Synced(old(layers[j]), basemapTitle)
  {
    for i := 0 to layers.Length
      invariant forall j :: 0 <= j < i ==> layers[j] == Synced(old(layers[j]), basemapTitle)
      invariant forall j :: i <= j < layers.Length ==> layers[j] == old(layers[j])
    {
      if Tracked(layers[i], basemapTitle) {
        layers[i] := layers[i].(wasVisible := Some(layers[i].visible));
      }
    }
  }

  /** `manageBasemapVisibility` over the array of base layers, updated in place. */
  method ManageBasemapVisibility(layers: array<BaseLayer>, basemapTitle: Option<string>)
    modifies layers
    ensures layers[..] == ManagedLayers(old(layers[..]), basemapTitle)
  {
    ghost var initial := layers[..];
    var newly := FindNewlyVisible(layers, basemapTitle);
    if newly.Some? {
      SwitchOffOthers(layers, basemapTitle, newly.value);
    }
    ghost var switched := layers[..];
    assert forall j :: 0 <= j < layers.Length ==>
      switched[j] == SwitchedOff(initial[j], basemapTitle, newly.None? || newly.value == j);
    SyncWasVisible(layers, basemapTitle);
    assert forall j :: 0 <= j < layers.Length ==>
      layers[j] == Synced(switched[j], basemapTitle);
    assert forall j :: 0 <= j < layers.Length ==>
      layers[j] == Settled(initial[j], basemapTitle, newly.None? || newly.value == j);
  }
}
