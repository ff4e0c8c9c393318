/**
  The map style switcher: four tile styles, exactly one of whose layers is on the map, a
  label naming it, and one button per style whose `active` class marks the current one.
 */
module StyleSwitcher {
  import opened Wrappers

  datatype MapStyle = MapStyle(name: string, url: string, attribution: string)

  /** `mapStyles`, by key. */
  const MapStyles: map<string, MapStyle> := map[
    "standard" := MapStyle("Standard", "https://{s}.tile.openstreetmap.org/{z}/{x}/{y}.png",
                           "© OpenStreetMap contributors"),
    "light" := MapStyle("Clair", "https://{s}.basemaps.cartocdn.com/light_all/{z}/{x}/{y}{r}.png",
                        "© OpenStreetMap contributors © CARTO"),
    "dark" := MapStyle("Sombre", "https://{s}.basemaps.cartocdn.com/dark_all/{z}/{x}/{y}{r}.png",
                       "© OpenStreetMap contributors © CARTO"),
    "watercolor" := MapStyle("Aquarelle",
                             "https://tiles.stadiamaps.com/tiles/stamen_watercolor/{z}/{x}/{y}.jpg",
                             "© Stadia Maps © Stamen Design © OpenStreetMap contributors")
  ]

  const InitialStyle := "standard"

  /** Different styles have different names, so the label tells the style. */
  lemma StyleNamesDistinct(k1: string, k2: string)
    requires k1 in MapStyles && k2 in MapStyles
    ensures MapStyles[k1].name == MapStyles[k2].name <==> k1 == k2
  {
    assert MapStyles.Keys == {"standard", "light", "dark", "watercolor"};
  }

  datatype ChangeOutcome = AlreadyActive | Changed | UnknownStyle

  class Switcher {
    var currentStyle: string
    /** The keys of the styles whose tile layer is on the map. */
    var styleLayers: set<string>
    /** `#current-style`. */
    var styleLabel: string
    /** The `data-style` of each `.style-btn`, in document order, and its `active` class. */
    const buttonStyles: seq<string>
    const active: array<bool>

    /** Exactly the current style's layer is on the map. */
    predicate OneLayer()
      reads this
    {
      currentStyle in MapStyles && styleLayers == {currentStyle}
    }

    /** The script's start: the standard layer is added. The buttons and the styleLabel come from
        the page as they are. */
    constructor (buttonStyles: seq<string>, initialActive: seq<bool>, initialLabel: string)
      requires |initialActive| == |buttonStyles|
      ensures OneLayer() && currentStyle == InitialStyle && styleLabel == initialLabel
      ensures this.buttonStyles == buttonStyles && active[..] == initialActive
      ensures fresh(active)
    {
      currentStyle := InitialStyle;
      styleLayers := {InitialStyle};
      styleLabel := initialLabel;
      this.buttonStyles := buttonStyles;
      active := new bool[|initialActive|](i requires 0 <= i < |initialActive| => initialActive[i]);
    }

    /** `updateActiveButton`: afterwards a button is active exactly when its style is the
        key. */
    method UpdateActiveButton(activeStyleKey: string)
      requires active.Length == |buttonStyles|
      modifies active
      ensures forall i :: 0 <= i < active.Length ==> active[i] == (buttonStyles[i] == activeStyleKey)
    {
      for i := 0 to active.Length
        invariant forall j :: 0 <= j < i ==> active[j] == (buttonStyles[j] == activeStyleKey)
      {
        if buttonStyles[i] == activeStyleKey {
          active[i] := true;
        } else {
          active[i] := false;
        }
      }
    }

    /** `changeMapStyle`. The current key changes nothing. Another key removes the current
        layer first; a key of `mapStyles` then becomes the current style, but for any other
        key the lookup faults after the removal, leaving no style layer on the map. */
    method ChangeMapStyle(newStyleKey: string) returns (outcome: ChangeOutcome)
      requires active.Length == |buttonStyles|
      modifies this`currentStyle, this`styleLayers, this`styleLabel, active
      ensures outcome == AlreadyActive <==> newStyleKey == old(currentStyle)
      ensures outcome == Changed <==> newStyleKey != old(currentStyle) && newStyleKey in MapStyles
      ensures outcome != Changed ==>
                currentStyle == old(currentStyle) && styleLabel == old(styleLabel) &&
                active[..] == old(active[..])
      ensures outcome == AlreadyActive ==> styleLayers == old(styleLayers)
      ensures outcome == UnknownStyle ==> styleLayers == old(styleLayers) - {old(currentStyle)}
      ensures outcome == Changed ==>
                currentStyle == newStyleKey && styleLabel == MapStyles[newStyleKey].name &&
                styleLayers == old(styleLayers) - {old(currentStyle)} + {newStyleKey} &&
                forall i :: 0 <= i < active.Length ==> active[i] == (buttonStyles[i] == newStyleKey)
      ensures old(OneLayer()) && outcome != UnknownStyle ==> OneLayer()
    {
      if newStyleKey == currentStyle {
        return AlreadyActive;
      }
      styleLayers := styleLayers - {currentStyle};
      if newStyleKey !in MapStyles {
        return UnknownStyle;
      }
      styleLayers := styleLayers + {newStyleKey};
      currentStyle := newStyleKey;
      styleLabel := MapStyles[newStyleKey].name;
      UpdateActiveButton(newStyleKey);
      outcome := Changed;
    }
  }
}
