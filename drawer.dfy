/** The side drawer's state (app/components/common/Drawer/DrawerProvider.tsx):
    one open flag, its three setters, and the hardware back-button handler
    registered outside the web. Logging and the drawer's rendering are not
    modelled. */
module Drawer {

  datatype Platform = Web | Native

  class DrawerState {
    const platform: Platform
    var isOpen: bool

    constructor(platform: Platform)
      ensures this.platform == platform && !isOpen
    {
      this.platform := platform;
      isOpen := false;
    }

    method OpenDrawer()
      modifies this
      ensures isOpen
    {
      isOpen := true;
    }

    method CloseDrawer()
      modifies this
      ensures !isOpen
    {
      isOpen := false;
    }

    method ToggleDrawer()
      modifies this
      ensures isOpen == !old(isOpen)
    {
      isOpen := !isOpen;
    }

    /** A hardware back press: consumed, closing the drawer, exactly when
        the drawer is open on a platform that registers the handler;
        otherwise the default back behaviour runs and nothing changes. */
    method BackPress() returns (consumed: bool)
      modifies this
      ensures consumed <==> platform.Native? && old(isOpen)
      ensures consumed ==> !isOpen
      ensures !consumed ==> isOpen == old(isOpen)
    {
      consumed := false;
      if platform.Native? && isOpen {
        CloseDrawer();
        consumed := true;
      }
    }
  }

  /** Two toggles restore the state; after a consumed back press the next
      one is not consumed. */
  method ToggleTwiceThenBack(d: DrawerState) returns (first: bool, second: bool)
    modifies d
    ensures first <==> d.platform.Native? && old(d.isOpen)
    ensures !second
    ensures d.isOpen == (d.platform.Web? && old(d.isOpen))
  {
    d.ToggleDrawer();
    d.ToggleDrawer();
    first := d.BackPress();
    second := d.BackPress();
  }
}
