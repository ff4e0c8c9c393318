/**
  The zoom-based display: on every `zoomend` the current zoom picks a tier, and the layer
  groups of that tier are put on the map and the others taken off. Leaflet's zoom is a
  number, so a zoom strictly between two tiers (11 < z < 12 or 14 < z < 15) matches no rule.
 */
module ZoomDisplay {
  import opened Wrappers

  /** `ZOOM_THRESHOLDS`. */
  const GeneralMax: real := 11.0
  const IntermediateMin: real := 12.0
  const IntermediateMax: real := 14.0
  const DetailedMin: real := 15.0

  /** The layers of the map: the tiles and the three marker groups. */
  datatype Layer = Tiles | General | Intermediate | Detailed

  /** The three rules of `updateLayersBasedOnZoom`, in order of detail. */
  datatype Tier = GeneralView | IntermediateView | DetailedView

  /** The marker groups the zoom rules manage. */
  const Overlays: set<Layer> := {General, Intermediate, Detailed}

  /** The rule the zoom matches, if any. */
  function TierOf(zoom: real): (t: Option<Tier>)
    ensures t == Some(GeneralView) <==> zoom <= 11.0
    ensures t == Some(IntermediateView) <==> 12.0 <= zoom <= 14.0
    ensures t == Some(DetailedView) <==> zoom >= 15.0
  {
    if zoom <= GeneralMax then Some(GeneralView)
    else if zoom >= IntermediateMin && zoom <= IntermediateMax then Some(IntermediateView)
    else if zoom >= DetailedMin then Some(DetailedView)
    else None
  }

  /** The position of a tier in order of detail. */
  function Rank(t: Tier): nat {
    match t
    case GeneralView => 0
    case IntermediateView => 1
    case DetailedView => 2
  }

  /** The marker groups shown in a tier. */
  function Groups(t: Tier): (g: set<Layer>)
    ensures g <= Overlays && General in g
    ensures Intermediate in g <==> Rank(t) >= 1
    ensures Detailed in g <==> Rank(t) >= 2
  {
    match t
    case GeneralView => {General}
    case IntermediateView => {General, Intermediate}
    case DetailedView => {General, Intermediate, Detailed}
  }

  /** The text shown for a tier. */
  function Description(t: Tier): string {
    match t
    case GeneralView => "Vue générale de la région"
    case IntermediateView => "Vue intermédiaire - Quartiers visibles"
    case DetailedView => "Vue détaillée - Tous les points d'intérêt"
  }

  /** The layers on the map after the update at `zoom`: a zoom between tiers changes nothing;
      otherwise the groups of the tier replace the marker groups, other layers stay. */
  function LayersAfter(layers: set<Layer>, zoom: real): (r: set<Layer>)
    ensures TierOf(zoom).None? ==> r == layers
    ensures TierOf(zoom).Some? ==> r * Overlays == Groups(TierOf(zoom).value) &&
                                   r - Overlays == layers - Overlays
  {
    match TierOf(zoom)
    case None => layers
    case Some(t) => (layers - Overlays) + Groups(t)
  }

  /** For zooms on the rules, more zoom shows more: the tier never goes down and its groups
      only grow. */
  lemma VisibleMonotone(z1: real, z2: real)
    requires z1 <= z2 && TierOf(z1).Some? && TierOf(z2).Some?
    ensures Rank(TierOf(z1).value) <= Rank(TierOf(z2).value)
    ensures Groups(TierOf(z1).value) <= Groups(TierOf(z2).value)
  {
  }

  /** Repeating the update at the same zoom changes nothing. */
  lemma UpdateIdempotent(layers: set<Layer>, zoom: real)
    ensures LayersAfter(LayersAfter(layers, zoom), zoom) == LayersAfter(layers, zoom)
  {
  }

  /** The three descriptions are distinct, so the text tells the tier. */
  lemma DescriptionsDistinct(t1: Tier, t2: Tier)
    ensures Description(t1) == Description(t2) <==> t1 == t2
  {
    if t1 != t2 {
      assert Description(t1)[4] != Description(t2)[4] || |Description(t1)| != |Description(t2)|;
    }
  }

  class ZoomMap {
    /** The layers on the map. */
    var layers: set<Layer>
    /** `#currentZoom` and `#zoomDescription`. */
    var zoomText: real
    var description: string

    /** The page load: the tiles are added at zoom 11, and the first update shows the general
        view. */
    constructor ()
      ensures layers == {Tiles, General}
      ensures zoomText == 11.0 && description == Description(GeneralView)
    {
      layers := {Tiles};
      zoomText := 11.0;
      description := "";
      new;
      UpdateLayersBasedOnZoom(11.0);
    }

    /** `map.addLayer` / `map.removeLayer`. */
    method AddLayer(l: Layer)
      modifies this`layers
      ensures layers == old(layers) + {l}
    {
      layers := layers + {l};
    }

    method RemoveLayer(l: Layer)
      modifies this`layers
      ensures layers == old(layers) - {l}
    {
      layers := layers - {l};
    }

    /** `updateZoomUI`. */
    method UpdateZoomUI(zoom: real, text: string)
      modifies this`zoomText, this`description
      ensures zoomText == zoom && description == text
    {
      zoomText := zoom;
      description := text;
    }

    /** `updateLayersBasedOnZoom` with `map.getZoom()` = `currentZoom`. */
    method UpdateLayersBasedOnZoom(currentZoom: real)
      modifies this
      ensures layers == LayersAfter(old(layers), currentZoom)
      ensures TierOf(currentZoom).None? ==>
                zoomText == old(zoomText) && description == old(description)
      ensures TierOf(currentZoom).Some? ==>
                zoomText == currentZoom && description == Description(TierOf(currentZoom).value)
    {
      if currentZoom <= GeneralMax {
        if General !in layers {
          AddLayer(General);
        }
        RemoveLayer(Intermediate);
        RemoveLayer(Detailed);
        UpdateZoomUI(currentZoom, "Vue générale de la région");
      } else if currentZoom >= IntermediateMin && currentZoom <= IntermediateMax {
        if General !in layers {
          AddLayer(General);
        }
        if Intermediate !in layers {
          AddLayer(Intermediate);
        }
        RemoveLayer(Detailed);
        UpdateZoomUI(currentZoom, "Vue intermédiaire - Quartiers visibles");
      } else if currentZoom >= DetailedMin {
        if General !in layers {
          AddLayer(General);
        }
        if Intermediate !in layers {
          AddLayer(Intermediate);
        }
        if Detailed !in layers {
          AddLayer(Detailed);
        }
        UpdateZoomUI(currentZoom, "Vue détaillée - Tous les points d'intérêt");
      }
    }

    /** The `zoom` listener: only the zoom text follows during the animation. */
    method OnZoom(currentZoom: real)
      modifies this`zoomText
      ensures zoomText == currentZoom
    {
      zoomText := currentZoom;
    }
  }
}
