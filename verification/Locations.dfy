/** Locations, and the windows of them that a subscription's filter takes. */
module Locations {
  import opened Basics

  datatype Loc = Loc(group: nat, id: nat)

  predicate Before(a: Loc, b: Loc) { a.group < b.group || (a.group == b.group && a.id < b.id) }

  predicate AtMost(a: Loc, b: Loc) { !Before(b, a) }

  function Later(a: Loc, b: Loc): Loc { if Before(a, b) then b else a }

  function Earlier(a: Loc, b: Loc): Loc { if Before(b, a) then b else a }

  /** A filter window: from `group`/`id`, to `endGroup`, and in it to `endId`. */
  datatype Window = Window(group: nat, id: nat, endGroup: Option<nat>, endId: Option<nat>)

  /** The window takes the Location. */
  predicate Admits(w: Window, group: nat, id: nat)
  {
    if group < w.group || (group == w.group && id < w.id) then false
    else if w.endGroup.None? || group < w.endGroup.value then true
    else group == w.endGroup.value && (w.endId.None? || id <= w.endId.value)
  }
}
