/**
 * The tray menu's listening toggle: "Start listening" and "Stop listening"
 * flip the gate every route checks, and each item is enabled exactly when
 * choosing it would change the gate.
 */
module Tray {
  import opened Http

  const START_LISTENING := "start_listening"
  const STOP_LISTENING := "stop_listening"

  /** A menu item; only its enabled flag is modelled. */
  class MenuItem {
    var enabled: bool

    constructor (enabled: bool)
      ensures this.enabled == enabled
    {
      this.enabled := enabled;
    }

    /**
     * `MenuItem::set_enabled`; `accepted` is whether the toolkit accepts the
     * change. A refusal is only logged by the caller and leaves the item as
     * it was.
     */
    method SetEnabled(value: bool, accepted: bool)
      modifies this
      ensures enabled == if accepted then value else old(enabled)
    {
      if accepted {
        enabled := value;
      }
    }
  }

  /** The gate and the two items of the tray menu that control it. */
  class TrayMenu {
    const gate: ListeningGate
    const startItem: MenuItem
    const stopItem: MenuItem

    /** The menu reflects the gate: "Start" is enabled exactly when the gate is closed, "Stop" exactly when it is open. */
    ghost predicate InSync()
      reads this, gate, startItem, stopItem
    {
      startItem != stopItem && startItem.enabled == !gate.open && stopItem.enabled == gate.open
    }

    /**
     * `setup_tray`: the items start as "Start" disabled and "Stop" enabled,
     * and are flipped when the gate is already closed.
     */
    constructor (gate: ListeningGate)
      ensures this.gate == gate && fresh(startItem) && fresh(stopItem)
      ensures InSync()
    {
      this.gate := gate;
      var start := new MenuItem(false);
      var stop := new MenuItem(true);
      startItem := start;
      stopItem := stop;
      new;
      if !gate.open {
        start.SetEnabled(true, true);
        stop.SetEnabled(false, true);
      }
    }

    /**
     * The start/stop branches of the menu handler: the gate is stored first,
     * then the item just chosen is disabled and the other enabled. Any other
     * item leaves the gate and both items as they were. When both changes
     * are accepted the menu is in sync afterwards, whatever it was before.
     */
    method OnMenuEvent(id: string, firstAccepted: bool, secondAccepted: bool)
      requires startItem != stopItem
      modifies gate, startItem, stopItem
      ensures id == STOP_LISTENING ==>
        && !gate.open
        && stopItem.enabled == (if firstAccepted then false else old(stopItem.enabled))
        && startItem.enabled == (if secondAccepted then true else old(startItem.enabled))
      ensures id == START_LISTENING ==>
        && gate.open
        && startItem.enabled == (if firstAccepted then false else old(startItem.enabled))
        && stopItem.enabled == (if secondAccepted then true else old(stopItem.enabled))
      ensures (id == STOP_LISTENING || id == START_LISTENING) && firstAccepted && secondAccepted ==> InSync()
      ensures id != STOP_LISTENING && id != START_LISTENING ==>
        gate.open == old(gate.open) && startItem.enabled == old(startItem.enabled) && stopItem.enabled == old(stopItem.enabled)
    {
      if id == STOP_LISTENING {
        gate.open := false;
        stopItem.SetEnabled(false, firstAccepted);
        startItem.SetEnabled(true, secondAccepted);
      } else if id == START_LISTENING {
        gate.open := true;
        startItem.SetEnabled(false, firstAccepted);
        stopItem.SetEnabled(true, secondAccepted);
      }
    }
  }
}
