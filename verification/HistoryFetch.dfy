/** What a FETCH finds in the history, against what was published and not discarded. */
module HistoryFetch {
  import opened Basics
  import opened Locations
  import opened History

  /** One object of a FETCH response, or the marker of a range already dropped. */
  datatype FetchObject =
    | Object(at: Loc, subgroup: nat, payload: Bytes, props: Props, priority: nat, datagram: bool)
    | Unknown(at: Loc)

  function Shown(at: Loc, r: Record): FetchObject
  {
    Object(at, if r.subgroup.None? then 0 else r.subgroup.value, r.payload, r.props, r.priority, r.subgroup.None?)
  }

  function First(records: seq<Record>, id: nat): Option<Record>
  {
    if records == [] then None else if records[0].id == id then Some(records[0]) else First(records[1..], id)
  }

  /** The record held first of a Location. */
  function Best(h: Held, at: Loc): Option<Record> { First(HeldOf(h.groups, at.group), at.id) }

  /** The first record published at a Location, of those `log` has. */
  function Published(log: seq<Logged>, at: Loc): Option<Record> { First(OfGroup(log, at.group), at.id) }

  /** Largest Object ID held in a group. */
  function LastObject(h: Held, group: nat): Option<nat>
  {
    var held := HeldOf(h.groups, group);
    if held == [] then None else Some(LargestId(held))
  }

  /** Where the part of the range already dropped ends, if part of it is. */
  function Lost(h: Held, start: Loc, end: Loc): Option<Loc>
  {
    var through := EvictedThrough(h);
    if !Reached(start, through) then None
    else
      var lost := Earlier(through.value, end);
      if lost.id <= MAX_OBJECT_ID then Some(lost)
      else
        var last := LastObject(h, lost.group);
        Some(Loc(lost.group, if last.None? then MAX_OBJECT_ID else last.value))
  }

  /** Where the objects start. */
  function From(h: Held, start: Loc, end: Loc): Loc
  {
    var lost := Lost(h, start, end);
    if lost.None? then start else Later(start, Loc(lost.value.group, lost.value.id + 1))
  }

  predicate InOrder(a: Loc, b: Loc, descending: bool)
  {
    if a.group == b.group then a.id < b.id else if descending then a.group > b.group else a.group < b.group
  }

  /** What can be returned at a Location. */
  predicate Returned(h: Held, start: Loc, end: Loc, at: Loc)
  {
    AtMost(From(h, start, end), at) && AtMost(at, end) && Best(h, at).Some?
  }

  /** The objects of a response, in order, are the Locations to be returned. */
  ghost predicate Answers(h: Held, start: Loc, end: Loc, descending: bool, objects: seq<FetchObject>)
  {
    && (forall i, j :: 0 <= i < j < |objects| ==> InOrder(objects[i].at, objects[j].at, descending))
    && (forall i :: 0 <= i < |objects| ==>
          && Returned(h, start, end, objects[i].at)
          && objects[i] == Shown(objects[i].at, Best(h, objects[i].at).value))
    && (forall at :: Returned(h, start, end, at) ==> exists i :: 0 <= i < |objects| && objects[i].at == at)
  }

  function Response(lost: Option<Loc>, objects: seq<FetchObject>, descending: bool): seq<FetchObject>
  {
    if lost.None? then objects
    else if descending then objects + [Unknown(lost.value)]
    else [Unknown(lost.value)] + objects
  }

  /** The whole response: those objects, and the marker at their low end. */
  ghost predicate Answered(h: Held, start: Loc, end: Loc, descending: bool, out: seq<FetchObject>)
  {
    exists objects ::
      Answers(h, start, end, descending, objects) && out == Response(Lost(h, start, end), objects, descending)
  }

  // ---- agreement with everything published --------------------------------

  lemma {:induction false} FirstPast(gone: seq<Record>, held: seq<Record>, id: nat)
    requires forall r :: r in gone ==> r.id != id
    ensures First(gone + held, id) == First(held, id)
  {
    if gone == [] {
      assert gone + held == held;
    } else {
      assert (gone + held)[1..] == gone[1..] + held;
      FirstPast(gone[1..], held, id);
    }
  }

  lemma {:induction false} FirstIn(records: seq<Record>, id: nat)
    ensures First(records, id).Some? ==> First(records, id).value in records && First(records, id).value.id == id
    ensures First(records, id).None? ==> forall r :: r in records ==> r.id != id
  {
    if records != [] { FirstIn(records[1..], id); }
  }

  /** Past every mark, what is held of a Location is what was first published. */
  lemma PastMark(h: Held, log: seq<Logged>, at: Loc)
    requires Agrees(h, log) && !Reached(at, MarkOf(h, at.group))
    ensures Best(h, at) == Published(log, at)
  {
    var held, all := HeldOf(h.groups, at.group), OfGroup(log, at.group);
    assert GroupAgrees(held, all, at.group, MarkOf(h, at.group));
    var gone := all[..|all| - |held|];
    assert all == gone + held;
    forall r | r in gone
      ensures r.id != at.id
    {
      var i :| 0 <= i < |gone| && gone[i] == r;
      assert Reached(Loc(at.group, all[i].id), MarkOf(h, at.group));
    }
    FirstPast(gone, held, at.id);
  }

  lemma NoMarkPast(h: Held, at: Loc)
    requires !Reached(at, EvictedThrough(h))
    ensures !Reached(at, MarkOf(h, at.group))
  {
  }

  lemma {:induction false} InGroup(log: seq<Logged>, e: Logged)
    requires e in log
    ensures e.r in OfGroup(log, e.group)
  {
    if log[|log| - 1] != e {
      assert log == log[..|log| - 1] + [log[|log| - 1]];
      InGroup(log[..|log| - 1], e);
    }
  }

  /** Whatever a FETCH returns at a Location is the first object published there since
      its group was last discarded, never a later duplicate that outlived it. */
  lemma FetchIsFaithful(h: Held, log: seq<Logged>, start: Loc, end: Loc, at: Loc)
    requires HistoryOk(h, log) && Returned(h, start, end, at)
    ensures Best(h, at) == Published(log, at)
  {
    hide Shape, LargestId;
    var held := HeldOf(h.groups, at.group);
    if Reached(at, EvictedThrough(h)) {
      // The range was cut short at its own end: nothing of it is held.
      FirstIn(held, at.id);
      HeldIds(h.groups, at.group);
      ClampedEmpty(h, start, end, at);
      assert false;
    }
    NoMarkPast(h, at);
    PastMark(h, log, at);
  }

  lemma {:induction false} HeldIds(groups: seq<Group>, group: nat)
    ensures HeldOf(groups, group) != [] ==>
              exists g :: g in groups && g.id == group && g.records == HeldOf(groups, group)
  {
    if groups != [] && groups[0].id != group { HeldIds(groups[1..], group); }
  }

  lemma ClampedEmpty(h: Held, start: Loc, end: Loc, at: Loc)
    requires Reached(at, EvictedThrough(h)) && AtMost(From(h, start, end), at) && AtMost(at, end)
    requires EvictedThrough(h).value.id <= MAX_OBJECT_ID
    requires forall r :: r in HeldOf(h.groups, at.group) ==> r.id <= MAX_OBJECT_ID
    ensures Best(h, at).None?
  {
    LargestIs(HeldOf(h.groups, at.group));
    FirstIn(HeldOf(h.groups, at.group), at.id);
  }

  /** The marker is at the low end of what is returned, inside the range. */
  lemma MarkerIsLow(h: Held, start: Loc, end: Loc, descending: bool, objects: seq<FetchObject>)
    requires Answers(h, start, end, descending, objects)
    ensures var lost := Lost(h, start, end);
            lost.Some? ==>
              && forall i :: 0 <= i < |objects| ==> Before(lost.value, objects[i].at)
    ensures forall i :: 0 <= i < |objects| ==> AtMost(start, objects[i].at) && AtMost(objects[i].at, end)
  {
    hide LargestId, HeldOf;
    forall i | 0 <= i < |objects|
      ensures AtMost(From(h, start, end), objects[i].at)
    {
      assert Returned(h, start, end, objects[i].at);
    }
  }

  /** Everything published in the range is returned or at or below the marker. */
  ghost predicate Covered(h: Held, log: seq<Logged>, start: Loc, end: Loc)
  {
    forall e :: e in log && AtMost(start, At(e)) && AtMost(At(e), end)
      ==> Returned(h, start, end, At(e)) || Reached(At(e), Lost(h, start, end))
  }

  /** The range ends with a whole group below the marks that is held again, and
      ended, when published, past what is held of it now. */
  ghost predicate EndsInReopened(h: Held, log: seq<Logged>, start: Loc, end: Loc)
  {
    && end.id > MAX_OBJECT_ID
    && Reached(start, EvictedThrough(h)) && Reached(end, EvictedThrough(h))
    && HeldOf(h.groups, end.group) != []
    && exists e :: e in log && e.group == end.group && e.r.id > LargestId(HeldOf(h.groups, end.group))
         && AtMost(start, At(e))
  }

  lemma EntryCovered(h: Held, log: seq<Logged>, start: Loc, end: Loc, e: Logged)
    requires HistoryOk(h, log) && e in log && AtMost(start, At(e)) && AtMost(At(e), end)
    requires end.id <= MAX_OBJECT_ID || !Reached(start, EvictedThrough(h)) || !Reached(end, EvictedThrough(h))
    ensures Returned(h, start, end, At(e)) || Reached(At(e), Lost(h, start, end))
  {
    hide Shape, LargestId;
    if !Reached(At(e), Lost(h, start, end)) {
      NoMarkPast(h, At(e));
      PastMark(h, log, At(e));
      InGroup(log, e);
      FirstIn(OfGroup(log, e.group), e.r.id);
    }
  }

  /** A range ending in a whole group below the marks. */
  lemma WholeGroupCovered(h: Held, log: seq<Logged>, start: Loc, end: Loc, e: Logged)
    requires HistoryOk(h, log) && e in log && AtMost(start, At(e)) && AtMost(At(e), end)
    requires end.id > MAX_OBJECT_ID && Reached(start, EvictedThrough(h)) && Reached(end, EvictedThrough(h))
    ensures (Returned(h, start, end, At(e)) || Reached(At(e), Lost(h, start, end)))
            <==> !(e.group == end.group && HeldOf(h.groups, end.group) != []
                   && e.r.id > LargestId(HeldOf(h.groups, end.group)))
  {
    hide Shape;
    var held := HeldOf(h.groups, end.group);
    FirstIn(held, e.r.id);
    LargestIs(held);
    hide LargestId;
    assert e.r.id <= MAX_OBJECT_ID;
    if e.group < end.group { assert Reached(At(e), Lost(h, start, end)); }
  }

  /** A FETCH accounts for everything published in its range, except in the one
      case: a whole-group end in a group already dropped and begun again. */
  lemma FetchCovers(h: Held, log: seq<Logged>, start: Loc, end: Loc)
    requires HistoryOk(h, log)
    ensures Covered(h, log, start, end) <==> !EndsInReopened(h, log, start, end)
    ensures end.id <= MAX_OBJECT_ID ==> Covered(h, log, start, end)
  {
    hide HistoryOk, LargestId, Returned, Lost, Reached;
    if end.id <= MAX_OBJECT_ID || !Reached(start, EvictedThrough(h)) || !Reached(end, EvictedThrough(h)) {
      forall e | e in log && AtMost(start, At(e)) && AtMost(At(e), end)
        ensures Returned(h, start, end, At(e)) || Reached(At(e), Lost(h, start, end))
      {
        EntryCovered(h, log, start, end, e);
      }
    } else {
      LogScale(h, log);
      forall e | e in log && AtMost(start, At(e)) && AtMost(At(e), end)
        ensures (Returned(h, start, end, At(e)) || Reached(At(e), Lost(h, start, end)))
                <==> !(e.group == end.group && HeldOf(h.groups, end.group) != []
                       && e.r.id > LargestId(HeldOf(h.groups, end.group)))
      {
        WholeGroupCovered(h, log, start, end, e);
      }
    }
  }

  /** The object is the record's: one sent as a datagram has no subgroup. */
  predicate Carries(o: FetchObject, r: Record)
  {
    && o.Object? && o.at.id == r.id && o.payload == r.payload && o.props == r.props && o.priority == r.priority
    && match r.subgroup
       case None => o.datagram && o.subgroup == 0
       case Some(subgroup) => !o.datagram && o.subgroup == subgroup
  }

  /** A response goes up the range, or down it group by group with each group's objects
      going up; the marker, when part of the range is dropped, is at its low end, once. */
  lemma ResponseOrder(h: Held, start: Loc, end: Loc, descending: bool, out: seq<FetchObject>)
    requires Answered(h, start, end, descending, out)
    ensures !descending ==> forall i, j :: 0 <= i < j < |out| ==> Before(out[i].at, out[j].at)
    ensures descending ==>
              && (forall i, j :: 0 <= i < j < |out| ==> out[i].at.group >= out[j].at.group)
              && forall i, j :: 0 <= i < j < |out| && out[i].at.group == out[j].at.group && out[j].Object? ==>
                   out[i].at.id < out[j].at.id
    ensures forall i :: 0 <= i < |out| ==>
              (out[i].Unknown? <==> Lost(h, start, end).Some? && i == if descending then |out| - 1 else 0)
    ensures Lost(h, start, end).Some? ==> out != []
  {
    hide Answers, Lost;
    var objects: seq<FetchObject> :|
      Answers(h, start, end, descending, objects) && out == Response(Lost(h, start, end), objects, descending);
    MarkerIsLow(h, start, end, descending, objects);
    ObjectsInOrder(h, start, end, descending, objects);
  }

  lemma ObjectsInOrder(h: Held, start: Loc, end: Loc, descending: bool, objects: seq<FetchObject>)
    requires Answers(h, start, end, descending, objects)
    ensures forall i :: 0 <= i < |objects| ==> objects[i].Object?
    ensures forall i, j :: 0 <= i < j < |objects| ==> InOrder(objects[i].at, objects[j].at, descending)
  {
    hide Returned, Best;
  }

  /** After any run of adds and discards, a FETCH's objects are, at each Location,
      the first published there since its group was last discarded; and whatever was
      published since in a range that ends at a proper Object ID is among them or at
      or below the marker. */
  lemma ResponseAgrees(h: Held, log: seq<Logged>, start: Loc, end: Loc, descending: bool, objects: seq<FetchObject>)
    requires Reachable(h, log) && Answers(h, start, end, descending, objects)
    ensures forall i :: 0 <= i < |objects| ==>
              var first := Published(log, objects[i].at);
              first.Some? && Carries(objects[i], first.value)
    ensures end.id <= MAX_OBJECT_ID ==>
              forall e :: e in log && AtMost(start, At(e)) && AtMost(At(e), end) ==>
                (exists i :: 0 <= i < |objects| && objects[i].at == At(e)) || Reached(At(e), Lost(h, start, end))
  {
    hide HistoryOk, LargestId, Lost, From, Reachable, HeldOf, First, OfGroup;
    ReachableOk(h, log);
    FetchCovers(h, log, start, end);
    forall i | 0 <= i < |objects|
      ensures Best(h, objects[i].at) == Published(log, objects[i].at)
      ensures Published(log, objects[i].at).Some? ==> Published(log, objects[i].at).value.id == objects[i].at.id
    {
      FirstIn(OfGroup(log, objects[i].at.group), objects[i].at.id);
      FetchIsFaithful(h, log, start, end, objects[i].at);
    }
  }

  lemma LogScale(h: Held, log: seq<Logged>)
    requires HistoryOk(h, log)
    ensures forall e :: e in log ==> e.r.id <= MAX_OBJECT_ID
  {
  }

  function Small(id: nat): Record { Record(id, Some(0), [], [], 128, OBJECT_RECORD_BYTES) }

  /** Bounded to one small record, the history drops the older of two groups. */
  lemma OneLeft(a: nat, x: nat, b: nat, y: nat, through: Option<Loc>)
    requires a != b
    ensures var h := Held([Group(a, [Small(x)], -1)], through);
            && NoneEmpty(Put(h.groups, b, Small(y)))
            && Add(h, Bounds(OBJECT_RECORD_BYTES, 0, true), b, Small(y))
               == Held([Group(b, [Small(y)], -1)], LaterOf(through, Loc(a, x)))
  {
    var h := Held([Group(a, [Small(x)], -1)], through);
    assert Put(h.groups[1..], b, Small(y)) == [Group(b, [Small(y)], -1)];
    var h1 := h.(groups := Put(h.groups, b, Small(y)));
    assert h1.groups == [Group(a, [Small(x)], -1), Group(b, [Small(y)], -1)];
    var h2 := Held([Group(b, [Small(y)], -1)], LaterOf(through, Loc(a, x)));
    PutWeight([], b, Small(y));
    PutWeight([], a, Small(x));
    PutWeight(h.groups, b, Small(y));
    NoneWeight();
    assert Size(h2) == OBJECT_RECORD_BYTES && Size(h1) == 2 * OBJECT_RECORD_BYTES;
    hide Flat, Weight;
    assert LargestId([Small(x)]) == x by { assert [Small(x)][..0] == []; }
    assert DropOldest(h1) == h2;
    EvictStep2(h1, h2);
  }

  lemma EvictStep2(h1: Held, h2: Held)
    requires h1.groups != [] && NoneEmpty(h1.groups) && h1.groups[0].records != [] && DropOldest(h1) == h2
    requires |h1.groups[0].records| == 1 && NoneEmpty(h2.groups)
    requires Size(h1) > OBJECT_RECORD_BYTES >= Size(h2)
    ensures Evict(h1, OBJECT_RECORD_BYTES) == h2
  {
    assert GoesWhole(h1, OBJECT_RECORD_BYTES);
    assert Evict(h2, OBJECT_RECORD_BYTES) == h2;
  }

  /** Group 5 is published to Object 9, dropped, and begun again by a late Object
      2 after group 7, which is dropped in turn. */
  const REOPENED := Held([Group(5, [Small(2)], -1)], Some(Loc(7, 0)))

  lemma ReopenedReachable(log: seq<Logged>)
    requires log == [] + [Logged(5, Small(9))] + [Logged(7, Small(0))] + [Logged(5, Small(2))]
    ensures Reachable(REOPENED, log)
  {
    var b := Bounds(OBJECT_RECORD_BYTES, 0, true);
    var h1 := Held([Group(5, [Small(9)], -1)], None);
    var h2 := Held([Group(7, [Small(0)], -1)], Some(Loc(5, 9)));
    OneLeft(5, 9, 7, 0, None);
    OneLeft(7, 0, 5, 2, Some(Loc(5, 9)));
    PutWeight([], 5, Small(9));
    NoneWeight();
    assert Add(EMPTY, b, 5, Small(9)) == h1;
    hide Add, Put;
    var log1 := [] + [Logged(5, Small(9))];
    var log2 := log1 + [Logged(7, Small(0))];
    assert Reaches(REOPENED, log, b, [], REOPENED, log);
    hide Reaches;
    ReachesStep(h2, log2, b, 5, Small(2), [], REOPENED, log);
    ReachesStep(h1, log1, b, 7, Small(0), [Adds(5, Small(2))] + [], REOPENED, log);
    ReachesStep(EMPTY, [], b, 5, Small(9), [Adds(7, Small(0))] + ([Adds(5, Small(2))] + []), REOPENED, log);
  }

  /** The exception is real: a FETCH of group 5 then ends its marker at Object 2,
      and says nothing of Object 9. */
  lemma ReopenedGroupUncovered(log: seq<Logged>)
    requires log == [] + [Logged(5, Small(9))] + [Logged(7, Small(0))] + [Logged(5, Small(2))]
    ensures Reachable(REOPENED, log) && !Covered(REOPENED, log, Loc(5, 0), Loc(5, MAX_OBJECT_ID + 1))
  {
    var start, end := Loc(5, 0), Loc(5, MAX_OBJECT_ID + 1);
    ReopenedReachable(log);
    ReachableOk(REOPENED, log);
    assert LargestId([Small(2)]) == 2 by { assert [Small(2)][..0] == []; }
    assert HeldOf(REOPENED.groups, 5) == [Small(2)];
    hide LargestId, HeldOf, HistoryOk, Covered, Reachable;
    var e := log[0];
    assert e in log && e.group == 5 && e.r.id == 9 && AtMost(start, At(e));
    assert EndsInReopened(REOPENED, log, start, end);
    FetchCovers(REOPENED, log, start, end);
  }

  lemma ReachesStep(h: Held, log: seq<Logged>, b: Bounds, id: nat, r: Record, rest: seq<Event>, h': Held,
                    log': seq<Logged>)
    requires NoneEmpty(Put(h.groups, id, r)) && Enabled(Adds(id, r))
    requires Reaches(Add(h, b, id, r), log + [Logged(id, r)], b, rest, h', log')
    ensures Reaches(h, log, b, [Adds(id, r)] + rest, h', log')
  {
    assert ([Adds(id, r)] + rest)[1..] == rest;
  }
}
