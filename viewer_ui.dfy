/** The page's toggle handlers and the module-level flags they update: the legend toggle,
    the two measurement buttons sharing one active widget, and the collapsible side panel. */
module ViewerUi {
  import opened Wrappers

  /** The two measurement tools: `DistanceMeasurement2D` and `AreaMeasurement2D`. */
  datatype MeasureKind = Distance | Area

  /** The widgets these handlers put on and take off `view.ui`. */
  datatype Widget = LegendWidget | MeasureWidget(kind: MeasureKind)

  /** Width of the open side panel and left padding of the view, in pixels. */
  const PanelWidth: int := 300

  class Viewer {
    /** `legendVisible` */
    var legendVisible: bool
    /** `activeWidget1`: the kind of the measurement widget that exists, if any. */
    var activeWidget: Option<MeasureKind>
    /** The measurement buttons whose class list holds "active". */
    var activeButtons: set<MeasureKind>
    /** The widgets these handlers have placed on `view.ui`. */
    var ui: multiset<Widget>
    /** Whether the panel content holds the "collapsed" class. */
    var panelCollapsed: bool
    /** Whether the toggle button holds the "rotated" class. */
    var buttonRotated: bool
    /** `sidebar.style.width` and `view.padding.left`. */
    var sidebarWidth: int
    var paddingLeft: int

    /** The legend is on the ui exactly when `legendVisible`; at most one measurement widget
        exists, it is on the ui, and its button is the only active one; the button is rotated
        exactly when the panel is collapsed, and the padding follows the panel. */
    ghost predicate Valid()
      reads this
    {
      && ui == (if legendVisible then multiset{LegendWidget} else multiset{})
             + (if activeWidget.Some? then multiset{MeasureWidget(activeWidget.value)} else multiset{})
      && activeButtons == (if activeWidget.Some? then {activeWidget.value} else {})
      && buttonRotated == panelCollapsed
      && paddingLeft == (if panelCollapsed then 0 else PanelWidth)
    }

    /** The page as loaded: no legend, no measurement, the panel open and the view padded by
        300 pixels; the sidebar's width comes from the style sheet. */
    constructor (sidebarWidth: int)
      ensures Valid()
      ensures !legendVisible && activeWidget == None && activeButtons == {} && ui == multiset{}
      ensures !panelCollapsed && paddingLeft == PanelWidth && this.sidebarWidth == sidebarWidth
    {
      legendVisible := false;
      activeWidget := None;
      activeButtons := {};
      ui := multiset{};
      panelCollapsed := false;
      buttonRotated := false;
      this.sidebarWidth := sidebarWidth;
      paddingLeft := PanelWidth;
    }

    /** `toggleLegend`: the legend leaves the ui if it was shown and joins it otherwise. */
    method ToggleLegend()
      requires Valid()
      modifies this
      ensures Valid()
      ensures legendVisible == !old(legendVisible)
      ensures ui == if old(legendVisible) then old(ui) - multiset{LegendWidget} else old(ui) + multiset{LegendWidget}
      ensures activeWidget == old(activeWidget) && activeButtons == old(activeButtons)
      ensures panelCollapsed == old(panelCollapsed) && paddingLeft == old(paddingLeft)
      ensures sidebarWidth == old(sidebarWidth)
    {
      if legendVisible {
        ui := ui - multiset{LegendWidget};
      } else {
        ui := ui + multiset{LegendWidget};
      }
      legendVisible := !legendVisible;
    }

    /** `setActiveButton`: every active button loses the class, then the selected one (if any)
        gains it. */
    method SetActiveButton(selected: Option<MeasureKind>)
      modifies this
      ensures activeButtons == if selected.Some? then {selected.value} else {}
      ensures legendVisible == old(legendVisible) && activeWidget == old(activeWidget) && ui == old(ui)
      ensures panelCollapsed == old(panelCollapsed) && buttonRotated == old(buttonRotated)
      ensures paddingLeft == old(paddingLeft) && sidebarWidth == old(sidebarWidth)
    {
      activeButtons := {};
      if selected.Some? {
        activeButtons := activeButtons + {selected.value};
      }
    }

    /** `setActiveWidget`: `None` removes and destroys the current widget, if there is one;
        a kind creates that widget, puts it on the ui and makes its button the active one. */
    method SetActiveWidget(kind: Option<MeasureKind>)
      modifies this
      ensures kind.None? ==> activeWidget == None && activeButtons == old(activeButtons)
      ensures kind.None? ==> ui == if old(activeWidget).Some? then old(ui) - multiset{MeasureWidget(old(activeWidget).value)} else old(ui)
      ensures kind.Some? ==> activeWidget == kind && activeButtons == {kind.value}
      ensures kind.Some? ==> ui == old(ui) + multiset{MeasureWidget(kind.value)}
      ensures legendVisible == old(legendVisible)
      ensures panelCollapsed == old(panelCollapsed) && buttonRotated == old(buttonRotated)
      ensures paddingLeft == old(paddingLeft) && sidebarWidth == old(sidebarWidth)
    {
      match kind
      case Some(k) =>
        activeWidget := Some(k);
        ui := ui + multiset{MeasureWidget(k)};
        SetActiveButton(Some(k));
      case None =>
        if activeWidget.Some? {
          ui := ui - multiset{MeasureWidget(activeWidget.value)};
          activeWidget := None;
        }
    }

    /** The click handler of a measurement button: clicking the active tool's button closes it;
        clicking the other button replaces the active tool with that one. */
    method ClickMeasureButton(button: MeasureKind)
      requires Valid()
      modifies this
      ensures Valid()
      ensures activeWidget == if old(activeWidget) == Some(button) then None else Some(button)
      ensures legendVisible == old(legendVisible)
      ensures panelCollapsed == old(panelCollapsed) && paddingLeft == old(paddingLeft)
      ensures sidebarWidth == old(sidebarWidth)
    {
      SetActiveWidget(None);
      if button !in activeButtons {
        SetActiveWidget(Some(button));
      } else {
        SetActiveButton(None);
      }
    }

    /** The side-panel toggle: collapsing hides the panel and removes the view's padding,
        reopening restores 300 pixels of both. */
    method TogglePanel()
      requires Valid()
      modifies this
      ensures Valid()
      ensures panelCollapsed == !old(panelCollapsed)
      ensures sidebarWidth == paddingLeft == if panelCollapsed then 0 else PanelWidth
      ensures legendVisible == old(legendVisible) && activeWidget == old(activeWidget)
      ensures activeButtons == old(activeButtons) && ui == old(ui)
    {
      buttonRotated := !buttonRotated;
      panelCollapsed := !panelCollapsed;
      if panelCollapsed {
        sidebarWidth := 0;
        paddingLeft := 0;
      } else {
        sidebarWidth := PanelWidth;
        paddingLeft := PanelWidth;
      }
    }
  }
}
