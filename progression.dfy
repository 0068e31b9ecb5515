/**
 * Panel sequencing and ring unlocking (`transitionTo`, `unlockRing`).
 *
 * The two `setTimeout` callbacks are not timed: they are environment steps.
 * `ShowPending` is the 300 ms callback that activates the target panel and
 * `RunScheduled` is the 2500 ms callback that starts the transition to the
 * panel after a solved puzzle. All ring callbacks have the same delay, so
 * they fire in the order they were scheduled: a queue.
 */
module Progression {
  import opened Wrappers

  type PanelId = string

  class Stage {
    /** The ids of the panels present in the page. */
    const panels: set<PanelId>
    /** The panels that carry the `active` class. */
    var active: set<PanelId>
    /** The panel a transition will activate when its 300 ms delay ends. */
    var showing: Option<PanelId>
    /** Panels that unlocked rings will transition to when their 2500 ms delays end, oldest first. */
    var scheduled: seq<PanelId>
    /** The rings marked `unlocked`. */
    var unlocked: set<nat>

    /** At most one panel is active, and none while a transition is under way. */
    ghost predicate Valid()
      reads this
    {
      active <= panels && |active| <= 1 && (showing.Some? ==> active == {})
    }

    constructor (panels: set<PanelId>, first: PanelId)
      requires first in panels
      ensures Valid()
      ensures this.panels == panels && active == {first}
      ensures showing == None && scheduled == [] && unlocked == {}
    {
      this.panels := panels;
      active := {first};
      showing := None;
      scheduled := [];
      unlocked := {};
    }

    /**
     * `transitionTo(id)`: the active panel loses `active` at once and `id` is
     * shown later. With no active panel the source dereferences null and the
     * call stops there: `ok` is false and nothing changes.
     */
    method TransitionTo(id: PanelId) returns (ok: bool)
      requires Valid()
      modifies this
      ensures Valid()
      ensures ok <==> old(active) != {}
      ensures ok ==> active == {} && showing == Some(id)
      ensures !ok ==> active == old(active) && showing == old(showing)
      ensures scheduled == old(scheduled) && unlocked == old(unlocked)
    {
      ok := active != {};
      if ok {
        active := {};
        showing := Some(id);
      }
    }

    /**
     * The 300 ms callback of `transitionTo`: the target becomes the one active
     * panel. A target missing from the page activates nothing.
     */
    method ShowPending()
      requires Valid()
      modifies this
      ensures Valid()
      ensures showing == None
      ensures old(showing).Some? ==>
                active == (if old(showing).value in panels then {old(showing).value} else {})
      ensures old(showing).None? ==> active == old(active)
      ensures scheduled == old(scheduled) && unlocked == old(unlocked)
    {
      match showing
      case Some(id) =>
        active := if id in panels then {id} else {};
        showing := None;
      case None =>
    }

    /**
     * `unlockRing(index, next)`: marks ring `index` unlocked and schedules the
     * transition to `next`. Marking is idempotent; the transition is scheduled
     * on every call.
     */
    method UnlockRing(index: nat, next: PanelId)
      requires Valid()
      modifies this
      ensures Valid()
      ensures unlocked == old(unlocked) + {index}
      ensures index in old(unlocked) ==> unlocked == old(unlocked)
      ensures scheduled == old(scheduled) + [next]
      ensures active == old(active) && showing == old(showing)
    {
      unlocked := unlocked + {index};
      scheduled := scheduled + [next];
    }

    /** The oldest 2500 ms callback of `unlockRing` fires and calls `transitionTo`. */
    method RunScheduled() returns (ok: bool)
      requires Valid()
      modifies this
      ensures Valid()
      ensures old(scheduled) == [] ==> !ok && scheduled == [] && active == old(active) && showing == old(showing)
      ensures old(scheduled) != [] ==> scheduled == old(scheduled)[1..] && (ok <==> old(active) != {})
      ensures ok ==> active == {} && showing == Some(old(scheduled)[0])
      ensures !ok ==> active == old(active) && showing == old(showing)
      ensures unlocked == old(unlocked)
    {
      ok := false;
      if scheduled != [] {
        var next := scheduled[0];
        scheduled := scheduled[1..];
        ok := TransitionTo(next);
      }
    }
  }
}
