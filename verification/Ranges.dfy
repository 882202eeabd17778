/** What a subscription's window and a FETCH beside it cover, drafts before 20. */
module Ranges {
  import opened Basics
  import opened Locations

  datatype Filter =
    | LatestObject
    | NextGroupStart
    | AbsoluteStart(start: Loc)
    | AbsoluteRange(start: Loc, endGroup: Option<nat>)
    | NoFilter

  /** The window a filter admits, given the Largest Location when it applied. */
  function FilterWindow(f: Filter, largest: Option<Loc>): Window
  {
    match f
    case LatestObject =>
      if largest.None? then Window(0, 0, None, None) else Window(largest.value.group, largest.value.id + 1, None, None)
    case NextGroupStart =>
      if largest.None? then Window(0, 0, None, None) else Window(largest.value.group + 1, 0, None, None)
    case AbsoluteStart(start) => Window(start.group, start.id, None, None)
    case AbsoluteRange(start, endGroup) => Window(start.group, start.id, endGroup, None)
    case NoFilter => Window(0, 0, None, None)
  }

  /** A FETCH: joining a subscription some groups back or from a group on, or
      standing alone, with End one past the last object and Object 0 a whole group. */
  datatype Fetch = Relative(back: nat) | Absolute(from: nat) | Standalone(start: Loc, end: Loc)

  const WHOLE := 0x4000_0000_0000_0000   // past any Object ID

  /** The first and last Locations served, and the End that FETCH_OK reports. */
  datatype Served = Served(start: Loc, last: Loc, end: Loc)

  /** `anchor` is the subscription's Joining Location; None is a refusal. */
  function FetchRange(f: Fetch, largest: Option<Loc>, anchor: Option<Loc>, forward: bool): Option<Served>
  {
    match f
    case Relative(back) =>
      if !forward || anchor.None? then None
      else
        var a := anchor.value;
        Some(Served(Loc(if a.group < back then 0 else a.group - back, 0), a, Loc(a.group, a.id + 1)))
    case Absolute(from) =>
      if !forward || anchor.None? then None
      else Some(Served(Loc(from, 0), anchor.value, Loc(anchor.value.group, anchor.value.id + 1)))
    case Standalone(start, end) =>
      if largest.None? || !AtMost(start, largest.value) then None
      else
        var last := if end.id == 0 then Loc(end.group, WHOLE) else Loc(end.group, end.id - 1);
        if !AtMost(start, last) then None
        else if AtMost(largest.value, last)
        then Some(Served(start, largest.value, Loc(largest.value.group, largest.value.id + 1)))
        else Some(Served(start, last, end))
  }

  /** What a filter is for, given the Largest Location. */
  predicate Wanted(f: Filter, largest: Option<Loc>, at: Loc)
  {
    match f
    case LatestObject => largest.None? || Before(largest.value, at)
    case NextGroupStart => largest.None? || largest.value.group < at.group
    case AbsoluteStart(start) => AtMost(start, at)
    case AbsoluteRange(start, endGroup) => AtMost(start, at) && (endGroup.Some? ==> at.group <= endGroup.value)
    case NoFilter => true
  }

  lemma WindowTakesWanted(f: Filter, largest: Option<Loc>, at: Loc)
    ensures Admits(FilterWindow(f, largest), at.group, at.id) <==> Wanted(f, largest, at)
  {
  }

  /** What a FETCH asks for: with the groups from `back` before the joining one, or
      from `from`, up to the Joining Location; or what is there of its own range. */
  predicate Asked(f: Fetch, largest: Option<Loc>, anchor: Option<Loc>, at: Loc)
  {
    match f
    case Relative(back) => anchor.Some? && anchor.value.group <= at.group + back && AtMost(at, anchor.value)
    case Absolute(from) => anchor.Some? && from <= at.group && AtMost(at, anchor.value)
    case Standalone(start, end) =>
      && largest.Some? && AtMost(start, at) && AtMost(at, largest.value)
      && if end.id == 0 then at.group <= end.group else Before(at, end)
  }

  /** A joining FETCH is refused without a Joining Location at Forward State 1, and
      one of its own when nothing is there from its start on, or its range is empty. */
  lemma FetchServesAsked(f: Fetch, largest: Option<Loc>, anchor: Option<Loc>, forward: bool, at: Loc)
    requires at.id < WHOLE && (f.Standalone? ==> f.start.id < WHOLE)
    ensures var served := FetchRange(f, largest, anchor, forward);
            && (served.Some? ==> (InFetch(served.value, at) <==> Asked(f, largest, anchor, at)))
            && (served.None? <==> if f.Standalone? then !Asked(f, largest, anchor, f.start)
                                  else !forward || anchor.None?)
  {
  }

  predicate InFetch(s: Served, at: Loc) { AtMost(s.start, at) && AtMost(at, s.last) }

  /** A LATEST_OBJECT subscription and its joining FETCH split everything from the
      joining start on: no Location is in both, and none in neither. */
  lemma JoiningPartitions(largest: Loc, f: Fetch, at: Loc)
    requires !f.Standalone?
    ensures var served := FetchRange(f, Some(largest), Some(largest), true);
            var w := FilterWindow(LatestObject, Some(largest));
            && served.Some?
            && (AtMost(served.value.start, at) ==> (InFetch(served.value, at) <==> !Admits(w, at.group, at.id)))
  {
  }

  /** Another filter's window fits that FETCH just as well only if it starts where
      LATEST_OBJECT's does and has no end. */
  lemma OnlyLatestPartitions(largest: Loc, f: Filter)
    ensures var w := FilterWindow(f, Some(largest));
            (forall at: Loc :: AtMost(at, largest) <==> !Admits(w, at.group, at.id))
            <==> w == FilterWindow(LatestObject, Some(largest))
  {
    var w := FilterWindow(f, Some(largest));
    var next, first := Loc(largest.group, largest.id + 1), Loc(w.group, w.id);
    var past := Loc(Max(largest.group, if w.endGroup.Some? then w.endGroup.value else 0) + 1, 0);
    if forall at: Loc :: AtMost(at, largest) <==> !Admits(w, at.group, at.id) {
      assert Admits(w, next.group, next.id) && !Admits(w, largest.group, largest.id);
      assert Admits(w, past.group, past.id);
      assert Admits(w, first.group, first.id);
    }
  }

  /** The subscriber's check of a FETCH_OK: End is not before its FETCH's start. */
  predicate EndAccepted(f: Fetch, end: Loc)
  {
    var start := if f.Standalone? then f.start else Loc(0, 0);
    if end.id == 0 then end.group >= start.group else AtMost(start, end)
  }

  /** What End covers: everything before it, or through its group at Object 0. */
  predicate BeforeEnd(end: Loc, at: Loc)
  {
    if end.id == 0 then at.group <= end.group else AtMost(at, Loc(end.group, end.id - 1))
  }

  /** Whatever End the publisher reports, clamped or whole-group, the subscriber
      accepts it, and reads it as just what is served. */
  lemma ReportedEndAgrees(f: Fetch, largest: Option<Loc>, anchor: Option<Loc>, forward: bool, at: Loc)
    requires FetchRange(f, largest, anchor, forward).Some? && at.id < WHOLE
    ensures var s := FetchRange(f, largest, anchor, forward).value;
            && EndAccepted(f, s.end)
            && (InFetch(s, at) <==> AtMost(s.start, at) && BeforeEnd(s.end, at))
  {
  }
}
