/** What a lane gives up, and what it does not, where it is not left alone: at Forward
    State 0 or too late, reset from outside, resumed, or cut. */
module LaneTurns {
  import opened Basics
  import opened LaneSpec
  import opened LaneQueue
  import opened LaneProofs
  import opened LaneRuns
  import opened LaneStreams
  import opened LaneBacklog
  import opened LaneShed

  // ---- giving a group up -------------------------------------------------------------

  /** Nothing of groups up to `group` is queued or will be; what is queued of later
      ones stays. */
  ghost predicate Over(l: Lane, r: Lane, group: nat)
  {
    && Objs(r.q.items) == From(Objs(l.q.items), group + 1)
    && forall g: nat :: Below(g, r.floor) <==> g <= group || Below(g, l.floor)
  }

  /** The stream that was open was reset, and none is. */
  ghost predicate OpenLost(d: Delivery, d': Delivery)
  {
    && d'.open.None? && |d'.streams| == |d.streams|
    && forall i :: 0 <= i < |d.streams| ==>
         d'.streams[i] == if d.open.Some? && d.open.value.sid == i then d.streams[i].(state := Reset) else d.streams[i]
  }

  lemma ResetLoses(d: Delivery)
    requires Fits(d)
    ensures OpenLost(d, ResetStream(d)) && ResetStream(d).tx == d.tx
  {
  }

  lemma {:induction false} FromFrom(s: seq<Object>, a: nat, b: nat)
    requires a <= b
    ensures From(From(s, a), b) == From(s, b)
  {
    if s != [] {
      var rest := From(s[1..], a);
      FromFrom(s[1..], a, b);
      assert From(s, a) == if s[0].group >= a then [s[0]] + rest else rest;
      FromCons(s[0], rest, b);
    }
  }

  lemma SkipIs(l: Lane, group: nat)
    requires AboveFloor(l.q, l.floor)
    ensures Over(l, Skip(l, group), group) && Skip(l, group) == l.(q := Skip(l, group).q, floor := Skip(l, group).floor)
    ensures Controls(Skip(l, group).q.items) == Controls(l.q.items)
  {
    hide Objs, From, Kept, Controls;
    KeptObjs(l.q.items, group + 1, false);
    KeptControls(l.q.items, group + 1);
    if l.floor.Some? && group + 1 <= l.floor.value { AllFrom(Objs(l.q.items), group + 1, l.floor.value); }
  }

  lemma AllFrom(s: seq<Object>, a: nat, b: nat)
    requires a <= b && NoneBelow(s, b)
    ensures From(s, a) == s
  {
    FromAll(s, a);
  }

  lemma InvFloor(l: Lane)
    requires Inv(l)
    ensures AboveFloor(l.q, l.floor) && Fits(l.d) && 0 <= Turn(l.q, l.h)
  {
    hide Objs, Ascending, EndsAsked;
    CoreFits(l);
  }

  /** The open stream ended: in FIN, unless the peer had reset it. */
  ghost predicate OpenEnded(d: Delivery, d': Delivery, at: int)
  {
    && d'.open.None? && |d'.streams| == |d.streams| && at >= 0
    && forall i :: 0 <= i < |d.streams| ==>
         d'.streams[i] == if d.open.Some? && d.open.value.sid == i && d.streams[i].state.Open?
                          then d.streams[i].(state := Fin, to := at) else d.streams[i]
  }

  lemma EndEnds(d: Delivery, at: nat)
    requires Fits(d)
    ensures OpenEnded(d, EndStream(d, at), at)
  {
  }

  lemma HeadGone(l: Lane)
    requires Inv(l) && l.q.items != []
    ensures var q, x := Pop(l.q), l.q.items[0];
            && q.items == l.q.items[1..] && AboveFloor(q, l.floor)
            && Objs(l.q.items) == One(x) + Objs(q.items)
  {
    hide From, Ascending, EndsAsked, LiveBytes, ReplayBytes, Charged;
    ObjsHead(l.q.items);
    assert forall o :: o in Objs(Pop(l.q).items) ==> o in Objs(l.q.items);
  }

  lemma FromPast(o: Object, rest: seq<Object>, floor: nat)
    requires o.group < floor
    ensures From([o] + rest, floor) == From(rest, floor)
  {
    FromCons(o, rest, floor);
    assert [] + From(rest, floor) == From(rest, floor);
  }

  /** At Forward State 0, or past its time, an object takes its group with it: its
      stream is reset, or that of an earlier group ended, and nothing of either is left
      to send; nothing of a later group is lost. */
  lemma GroupGivenUp(l: Lane, o: Object, expired: bool, used: Backlog)
    requires Inv(l) && CanTake(l) && l.q.items[0] == Obj(o) && (!l.gate || expired)
    ensures Fits(l.d)
    ensures var r := Take(l, expired, used);
            && Over(l, r, o.group) && Controls(r.q.items) == Controls(l.q.items) && r.h == l.h && r.phase.Idle?
            && r.lost == (if l.gate then Some(o.group) else l.lost)
            && if !l.gate || (l.d.open.Some? && l.d.open.value.group == o.group) then OpenLost(l.d, r.d)
               else OpenEnded(l.d, r.d, Turn(l.q, l.h))
  {
    hide Inv, Objs, From, Pop, Turn, Skip, ResetStream, EndStream, AboveFloor, OpenLost, OpenEnded;
    InvFloor(l);
    HeadGone(l);
    ResetLoses(l.d);
    var at, l1 := Turn(l.q, l.h), l.(q := Pop(l.q));
    assert Controls(l.q.items) == [] + Controls(l1.q.items);
    EndEnds(l.d, at);
    FromPast(o, Objs(l1.q.items), o.group + 1);
    SkipIs(ResetOpen(l1), o.group);
    var reset := l.d.open.Some? && l.d.open.value.group == o.group;
    SkipIs(l1.(d := if reset then ResetStream(l.d) else EndStream(l.d, at)), o.group);
  }

  // ---- controls ------------------------------------------------------------------------

  /** What a control makes of the streams: END_GROUP and CLOSE end the open one;
      END_TRACK too, or is a stream of its own when none is open and the filter takes
      it, but nothing at Forward State 0; RESET_GROUP resets it. */
  ghost predicate Controlled(l: Lane, x: Item, r: Lane, at: nat)
  {
    match x
    case EndGroup => OpenEnded(l.d, r.d, at)
    case Close => OpenEnded(l.d, r.d, at) && !r.closing
    case EndTrack(largest) =>
      var group := if largest.None? then 0 else largest.value + 1;
      if l.gate && l.d.open.Some? then OpenEnded(l.d, r.d, at)
      else if l.gate && l.passes(group, 0)
      then r.d.open.None? && r.d.streams == l.d.streams + [Stream(group, at, at, [], Fin)]
      else r.d == l.d
    case ResetGroup(_) => OpenLost(l.d, r.d)
    case Final => r.d == l.d
    case _ => true
  }

  /** What it does besides. */
  ghost predicate ControlRest(l: Lane, x: Item, r: Lane)
  {
    && r.h.handed == l.h.handed && r.lost == l.lost && r.phase == l.phase && (r.ended <==> x.Final? || l.ended)
    && if x.ResetGroup? && x.upTo.Some? then Over(l, r, x.upTo.value) else r.q == l.q && r.floor == l.floor
  }

  lemma ControlIs(l: Lane, x: Item, used: Backlog, at: nat)
    requires Fits(l.d) && AboveFloor(l.q, l.floor) && !x.Obj? && !x.Cut?
    ensures var r := Control(l, x, used, at); Controlled(l, x, r, at) && ControlRest(l, x, r)
  {
    hide Control, Controlled, ControlRest, AboveFloor;
    match x
    case EndTrack(_) => TrackEndIs(l, x, used, at);
    case ResetGroup(_) => ResetGroupIs(l, x, used, at);
    case _ => EndIs(l, x, used, at);
  }

  lemma EndIs(l: Lane, x: Item, used: Backlog, at: nat)
    requires Fits(l.d) && (x.EndGroup? || x.Close? || x.Final?)
    ensures var r := Control(l, x, used, at); Controlled(l, x, r, at) && ControlRest(l, x, r)
  {
    hide EndStream, OpenEnded;
    EndEnds(l.d, at);
  }

  lemma TrackEndIs(l: Lane, x: Item, used: Backlog, at: nat)
    requires Fits(l.d) && x.EndTrack?
    ensures var r := Control(l, x, used, at); Controlled(l, x, r, at) && ControlRest(l, x, r)
  {
    hide EndStream, OpenEnded;
    EndEnds(l.d, at);
  }

  lemma ResetGroupIs(l: Lane, x: Item, used: Backlog, at: nat)
    requires Fits(l.d) && AboveFloor(l.q, l.floor) && x.ResetGroup?
    ensures var r := Control(l, x, used, at); Controlled(l, x, r, at) && ControlRest(l, x, r)
  {
    hide Skip, ResetStream, AboveFloor, Over, OpenLost;
    ResetLoses(l.d);
    if x.upTo.Some? {
      SkipIs(ResetOpen(l), x.upTo.value);
      OverSame(l, ResetOpen(l), Skip(ResetOpen(l), x.upTo.value), x.upTo.value);
    }
  }

  lemma OverSame(l: Lane, l': Lane, r: Lane, group: nat)
    requires l.q.items == l'.q.items && l.floor == l'.floor && Over(l', r, group)
    ensures Over(l, r, group)
  {
  }

  /** A control at its turn does that, gives up the groups a RESET_GROUP names, and
      takes nothing else from the queue. */
  lemma ControlTurn(l: Lane, expired: bool, used: Backlog)
    requires Inv(l) && CanTake(l) && !l.q.items[0].Obj? && !l.q.items[0].Cut?
    ensures Fits(l.d)
    ensures var x, r, at := l.q.items[0], Take(l, expired, used), Turn(l.q, l.h);
            && Controlled(l, x, r, at) && r.h.handed == l.h.handed && r.lost == l.lost && r.phase.Idle?
            && (r.ended <==> x.Final?)
            && if x.ResetGroup? && x.upTo.Some? then Over(l, r, x.upTo.value)
               else Objs(r.q.items) == Objs(l.q.items) && r.floor == l.floor
  {
    hide Inv, Objs, From, Pop, Turn, AboveFloor, OpenLost, OpenEnded, Control;
    InvFloor(l);
    HeadGone(l);
    var l1 := l.(q := Pop(l.q));
    assert [] + Objs(l1.q.items) == Objs(l1.q.items);
    ControlIs(l1, l.q.items[0], used, Turn(l.q, l.h));
  }

  // ---- resume() ---------------------------------------------------------------------------

  /** The controls left of `items`: all but the resets aimed below `floor`. */
  ghost function Aimed(items: seq<Item>, floor: nat): seq<Item>
  {
    if items == [] then []
    else
      var x := items[0];
      (if x.Obj? || (x.ResetGroup? && (if x.upTo.None? then 0 else x.upTo.value) < floor) then [] else [x])
      + Aimed(items[1..], floor)
  }

  lemma {:induction false} KeptAimed(items: seq<Item>, floor: nat)
    ensures Controls(Kept(items, floor, true)) == Aimed(items, floor)
  {
    if items != [] {
      var x, rest := items[0], Kept(items[1..], floor, true);
      KeptAimed(items[1..], floor);
      assert Kept(items, floor, true) == if Keeps(x, floor, true) then [x] + rest else rest;
      assert ([x] + rest)[1..] == rest && [] + Controls(rest) == Controls(rest);
    }
  }

  /** resume() drops what is queued of its group and earlier ones, and resets the open
      stream; later groups lose nothing, and take what they took. Its own group is taken
      again just when that is asked for, the lane has not lost it, and nothing later was
      given up. */
  lemma ResumeIs(l: Lane, group: nat, rejoin: bool)
    requires Inv(l) && !l.stopped && !l.final
    ensures Fits(l.d)
    ensures var r := Resume(l, group, rejoin);
            && Objs(r.q.items) == From(Objs(l.q.items), group + 1) && OpenLost(l.d, r.d) && r.h == l.h
            && Controls(r.q.items) == Aimed(l.q.items, group + 1) && r.lost == l.lost
            && (forall g: nat :: g > group ==> (Below(g, r.floor) <==> Below(g, l.floor)))
            && (Below(group, r.floor) <==> !rejoin || l.lost == Some(group) || Below(group + 1, l.floor))
  {
    hide Inv, Objs, From, Kept, Controls, ResetStream, OpenLost, AboveFloor, Skip, Aimed;
    InvFloor(l);
    ResetLoses(l.d);
    KeptObjs(l.q.items, group + 1, true);
    KeptAimed(l.q.items, group + 1);
    var l1 := ResetOpen(l).(q := Trim(l.q, group + 1, true));
    TrimFloor(l, group);
    SkipIs(l1, group);
    FromFrom(Objs(l.q.items), group + 1, group + 1);
  }

  lemma TrimFloor(l: Lane, group: nat)
    requires AboveFloor(l.q, l.floor)
    ensures AboveFloor(Trim(l.q, group + 1, true), l.floor)
  {
    hide Objs, Kept;
    KeptObjs(l.q.items, group + 1, true);
    FromIn(Objs(l.q.items), group + 1);
  }

  lemma {:induction false} FromIn(s: seq<Object>, floor: nat)
    ensures forall o :: o in From(s, floor) ==> o in s
  {
    if s != [] { FromIn(s[1..], floor); }
  }

  // ---- cutting ------------------------------------------------------------------------------

  /** Just the streams of groups below `floor` that are open, or that are watched and
      have bytes left, are reset; and of those watched just the ones from it on are. */
  ghost predicate CutBelow(d: Delivery, d': Delivery, floor: nat, used: Backlog)
  {
    && |d'.streams| == |d.streams|
    && (forall i :: 0 <= i < |d.streams| ==>
          d'.streams[i] == if d.streams[i].group < floor
                              && ((d.open.Some? && d.open.value.sid == i) || (i in Sids(d.tx) && used(i) > 0))
                           then d.streams[i].(state := Reset) else d.streams[i])
    && d'.open == (if d.open.Some? && d.open.value.group < floor then None else d.open)
    && forall t :: t in d'.tx <==> t in d.tx && t.group >= floor
  }

  lemma {:induction false} AboveAre(tx: seq<OpenStream>, floor: nat)
    ensures forall t :: t in AtOrAbove(tx, floor) <==> t in tx && t.group >= floor
  {
    if tx != [] { AboveAre(tx[1..], floor); }
  }

  lemma {:induction false} WipesAre(streams: seq<Stream>, tx: seq<OpenStream>, floor: nat, used: Backlog)
    requires forall t :: t in tx ==> t.sid < |streams| && Filed(streams, t)
    ensures |WipeBelow(streams, tx, floor, used)| == |streams|
    ensures forall i :: 0 <= i < |streams| ==>
              WipeBelow(streams, tx, floor, used)[i]
              == if streams[i].group < floor && i in Sids(tx) && used(i) > 0 then streams[i].(state := Reset)
                 else streams[i]
    decreases tx
  {
    if tx != [] {
      var t0, rest := tx[0], tx[1..];
      var next := if t0.group < floor && used(t0.sid) > 0 then Wipe(streams, t0.sid) else streams;
      assert Filed(streams, t0) && tx == [t0] + rest;
      assert forall t :: t in rest ==> Filed(streams, t) && Filed(next, t);
      WipesAre(next, rest, floor, used);
    }
  }

  lemma ResetBelowIs(d: Delivery, floor: nat, used: Backlog)
    requires Fits(d) && TxOk(d.streams, d.open, d.tx)
    ensures CutBelow(d, ResetBelow(d, floor, used), floor, used)
  {
    hide Once;
    var d1 := if d.open.Some? && d.open.value.group < floor then ResetStream(d) else d;
    assert forall t :: t in d.tx ==> Filed(d.streams, t) && Filed(d1.streams, t);
    WipesAre(d1.streams, d1.tx, floor, used);
    AboveAre(d1.tx, floor);
  }

  /** What a CUT does at its turn: it cuts below the floor, and that is all. */
  lemma CutTurn(l: Lane, expired: bool, used: Backlog)
    requires Inv(l) && Tracked(l.d, _ => true) && CanTake(l) && l.q.items[0].Cut?
    ensures Fits(l.d)
    ensures var r := Take(l, expired, used);
            && (if l.floor.Some? then CutBelow(l.d, r.d, l.floor.value, used) else r.d == l.d)
            && Objs(r.q.items) == Objs(l.q.items) && !r.q.cut && r.floor == l.floor && r.lost == l.lost
            && r.h == l.h && r.phase.Idle? && !r.ended
  {
    hide Inv, Objs, Pop, Turn, ResetBelow, AboveFloor, CutBelow, TxOk, OnlyOpen, FinsWatched;
    InvFloor(l);
    HeadGone(l);
    assert [] + Objs(l.q.items[1..]) == Objs(l.q.items[1..]);
    if l.floor.Some? { ResetBelowIs(l.d, l.floor.value, used); }
  }

  /** The event's readings found the stream drained. */
  ghost predicate FoundDrained(e: Env, sid: nat)
  {
    e.probe(sid) == 0 || e.shed(sid) == 0 || e.shedAll(sid) == 0 || e.reset(sid) == 0
  }

  /** Fewer are watched, those left out all found drained. */
  ghost predicate Pruned(d: Delivery, d': Delivery, e: Env)
  {
    && Forgets(d, d') && TxOk(d'.streams, d'.open, d'.tx)
    && forall t :: t in d.tx ==> t in d'.tx || FoundDrained(e, t.sid)
  }

  lemma ReadPrunes(l: Lane, floor: Option<nat>, used: Backlog, d: Delivery, e: Env)
    requires Pruned(d, l.d, e) && forall i: nat :: used(i) == 0 ==> FoundDrained(e, i)
    ensures Pruned(d, ReadBacklog(l, floor, used).d, e)
  {
    hide TxQueued, Filed, Once;
    TxOnce(l.d);
    UndrainedOnce(l.d.tx, used);
    FewerTxOk(l.d.streams, l.d.open, l.d.tx, Undrained(l.d.tx, used));
  }

  lemma ProbePrunes(l: Lane, o: Object, e: Env)
    requires TxOk(l.d.streams, l.d.open, l.d.tx)
    ensures Pruned(l.d, Probed(l, o, e).d, e)
  {
    hide ReadBacklog, TxOk;
    ReadPrunes(l, l.floor, e.probe, l.d, e);
  }

  /** After a shed, what a parked write may wait on is gone: the streams below the floor
      are reset or were found drained, and none of them is watched. */
  ghost predicate Unparked(d: Delivery, d': Delivery, floor: nat, e: Env)
  {
    && |d'.streams| == |d.streams| && (d'.open.Some? ==> d'.open.value.group >= floor)
    && (forall t :: t in d'.tx ==> t.group >= floor)
    && forall i: nat :: i in Held(d) && i < |d.streams| && d.streams[i].group < floor ==>
         d'.streams[i].state.Reset? || FoundDrained(e, i)
  }

  lemma CutUnparks(d: Delivery, d1: Delivery, d': Delivery, floor: nat, e: Env)
    requires Pruned(d, d1, e) && CutBelow(d1, d', floor, e.reset)
    ensures Unparked(d, d', floor, e)
  {
    hide TxOk;
    forall i: nat | i in Held(d) && i < |d.streams| && d.streams[i].group < floor
      ensures d'.streams[i].state.Reset? || FoundDrained(e, i)
    {
      if !(d.open.Some? && d.open.value.sid == i) {
        var t :| t in d.tx && t.sid == i;
        assert t in d1.tx || FoundDrained(e, t.sid);
      }
    }
  }

  lemma RaisedUnparks(l: Lane, d: Delivery, floor: nat, e: Env)
    requires Fits(l.d) && Pruned(d, l.d, e) && !Below(floor, l.floor)
    ensures Fits(Raise(l, floor).d)
    ensures var r := Unpark(Raise(l, floor), e.reset);
            if l.phase.Opening? || l.phase.Header? then Unparked(d, r.d, floor, e)
            else r.d.streams == d.streams && r.d.open == d.open
  {
    hide ResetBelow, CutBelow, Unparked, TxOk, PushCut;
    ResetBelowIs(l.d, floor, e.reset);
    CutUnparks(d, l.d, ResetBelow(l.d, floor, e.reset), floor, e);
  }

  lemma ShedUnparks(l: Lane, d: Delivery, group: nat, e: Env)
    requires Fits(l.d) && Pruned(d, l.d, e) && !Below(group, l.floor)
    ensures var r := Shed(l, group, e);
            && r.floor.Some?
            && if l.phase.Opening? || l.phase.Header? then Unparked(d, r.d, r.floor.value, e)
               else r.d.streams == d.streams && r.d.open == d.open
  {
    hide Trim, ReadBacklog, Raise, Unpark, Pruned, Unparked, TxQueued;
    var l1 := CutTo(l, group, e.shed);
    var l2 := CutTo(l1, group + 1, e.shedAll);
    ReadForgets(l.(q := Trim(l.q, group, false)), Some(group), e.shed);
    ReadPrunes(l.(q := Trim(l.q, group, false)), Some(group), e.shed, d, e);
    ReadForgets(l1.(q := Trim(l1.q, group + 1, false)), Some(group + 1), e.shedAll);
    ReadPrunes(l1.(q := Trim(l1.q, group + 1, false)), Some(group + 1), e.shedAll, d, e);
    RaisedUnparks(l1, d, group, e);
    RaisedUnparks(l2, d, group + 1, e);
    RaiseFloor(l1, group);
    RaiseFloor(l2, group + 1);
    UnparkFloor(Raise(l1, group), e.reset);
    UnparkFloor(Raise(l2, group + 1), e.reset);
  }

  lemma RaiseFloor(l: Lane, floor: nat)
    requires !Below(floor, l.floor)
    ensures Raise(l, floor).floor == Some(floor)
  {
    hide PushCut;
  }

  lemma UnparkFloor(l: Lane, used: Backlog)
    requires Fits(l.d)
    ensures Unpark(l, used).floor == l.floor
  {
    hide ResetBelow;
  }

  /** An offer that sheds frees at once a write parked in opening a stream or in its
      header, and leaves the streams to the CUT when there is none. */
  lemma ShedFreesParked(l: Lane, o: Object, e: Env)
    requires Reachable(l) && !l.stopped && !l.final && MayOffer(l, o) && !Below(o.group, l.floor)
    requires o.live && l.q.bytes + o.cost + Heard(l, o, e) > l.max
    ensures Fits(l.d)
    ensures var r := Offer(l, o, e);
            && r.floor.Some?
            && if l.phase.Opening? || l.phase.Header? then Unparked(l.d, r.d, r.floor.value, e)
               else r.d.streams == l.d.streams && r.d.open == l.d.open
  {
    hide Reachable, Inv, MayOffer, Tracked, Probed, Heard, HeardFrom, Push, Shed, Offer, Core, Pruned, Unparked,
         TxQueued, TxOk;
    ReachableTracked(l);
    InvFits(l);
    TrackedTx(l.d);
    ProbedIs(l, o, e);
    ProbePrunes(l, o, e);
    OfferIsShed(l, o, e);
    ShedUnparks(Note(Probed(l, o, e), o).(q := Push(l.q, Obj(o))), l.d, o.group, e);
  }

  lemma TrackedTx(d: Delivery)
    requires Tracked(d, _ => true)
    ensures TxOk(d.streams, d.open, d.tx)
  {
  }

  // ---- a stream the peer stops ------------------------------------------------------------

  /** The peer stopping the stream written to loses it, and ends its group there; queue,
      floor and what was lost before stay. */
  lemma StopNoted(l: Lane)
    requires Inv(l) && !l.phase.Idle?
    ensures 0 <= Turn(l.q, l.h) - 1 && Fits(l.d)
    ensures var r := Wake(l, Stopped);
            && r.phase.Idle? && r.q == l.q && r.floor == l.floor && r.lost == l.lost && r.h == l.h
            && if l.phase.epoch == l.d.epoch then OpenLost(l.d, r.d) && r.d.stopped == Some(l.phase.o.group)
               else r.d == l.d
  {
    hide Inv, Turn, OpenLost;
    InFlightOf(l);
    StopLoses(l.d, l.phase.o.group);
  }

  lemma InFlightOf(l: Lane)
    requires Inv(l) && !l.phase.Idle?
    ensures 0 <= Turn(l.q, l.h) - 1 && Fits(l.d)
  {
    hide Core;
    InFlight(l);
  }

  lemma StopLoses(d: Delivery, group: nat)
    requires Fits(d)
    ensures OpenLost(d, StreamStopped(d, group)) && StreamStopped(d, group).stopped == Some(group)
  {
  }

  /** An object of that group, but the first of one, has its turn and goes nowhere. */
  lemma HaltedTurn(l: Lane, o: Object, used: Backlog)
    requires Inv(l) && CanTake(l) && l.q.items[0] == Obj(o) && l.gate && l.d.stopped == Some(o.group) && !o.start
    ensures Fits(l.d)
    ensures var r := Take(l, false, used);
            r.d == l.d && r.phase.Idle? && r.h.handed == l.h.handed + [o] && r.floor == l.floor && r.lost == l.lost
  {
    hide Inv, Pop, Turn, EndStream;
    InvFloor(l);
  }

  lemma SameStopped(d: Delivery, floor: nat, used: Backlog)
    requires Fits(d)
    ensures ResetStream(d).stopped == d.stopped && ResetBelow(d, floor, used).stopped == d.stopped
    ensures EndStream(d, floor).stopped == d.stopped
  {
    hide WipeBelow, AtOrAbove;
  }

  lemma FailedStopped(l: Lane, group: nat)
    requires Fits(l.d)
    ensures Failed(l, group).d.stopped == l.d.stopped
  {
    hide Skip, ResetStream;
    SameStopped(l.d, 0, _ => 0);
    SkipClosed(ResetOpen(l), group);
  }

  lemma ShedStopped(l: Lane, group: nat, e: Env)
    requires Fits(l.d)
    ensures Shed(l, group, e).d.stopped == l.d.stopped
  {
    hide Trim, ReadBacklog, Raise, Unpark;
    var l1 := CutTo(l, group, e.shed);
    var l2 := CutTo(l1, group + 1, e.shedAll);
    ReadForgets(l.(q := Trim(l.q, group, false)), Some(group), e.shed);
    ReadForgets(l1.(q := Trim(l1.q, group + 1, false)), Some(group + 1), e.shedAll);
    UnparkStopped(l1, group, e.reset);
    UnparkStopped(l2, group + 1, e.reset);
  }

  lemma UnparkStopped(l: Lane, floor: nat, used: Backlog)
    requires Fits(l.d)
    ensures Fits(Raise(l, floor).d) && Unpark(Raise(l, floor), used).d.stopped == l.d.stopped
  {
    hide Raise, ResetBelow;
    RaiseClosed(l, floor);
    var r := Raise(l, floor);
    if r.floor.Some? { SameStopped(r.d, r.floor.value, used); }
  }

  lemma ThroughStopped(l: Lane, o: Object, inline: Inline)
    requires Fits(l.d) && l.d.open.Some? && !inline.PeerStopped?
    ensures WriteThrough(l, o, inline).d.stopped == l.d.stopped
  {
    hide Failed;
    FailedStopped(Note(l, o).(h := Hand(Note(l, o).h, o, |l.h.offered|, l.passes(o.group, o.id))), o.group);
  }

  lemma OfferStopped(l: Lane, o: Object, e: Env)
    requires Fits(l.d) && !e.inline.PeerStopped?
    ensures Offer(l, o, e).d.stopped == l.d.stopped
  {
    hide Probe, Shed, Push, WriteThrough, Defers;
    if !l.stopped && !l.final && !Below(o.group, l.floor) {
      var l1 := if o.live then Probe(l, o.group, e.probe) else l;
      ProbeForgets(l, o.group, e.probe);
      ProbeFits(l, o.group, e.probe);
      if Inlines(l1, o) && !Defers(l1, o, e.inline) { ThroughStopped(l1, o, e.inline); }
      ShedStopped(Note(l1, o).(q := Push(l1.q, Obj(o))), o.group, e);
    }
  }

  lemma TakeStopped(l: Lane, expired: bool, used: Backlog)
    requires Fits(l.d) && CanTake(l)
    ensures Take(l, expired, used).d.stopped == l.d.stopped
  {
    hide Pop, Turn, Skip, ResetStream, ResetBelow, EndStream;
    var at, l1 := Turn(l.q, l.h), l.(q := Pop(l.q));
    SameStopped(l.d, at, used);
    if l.floor.Some? { SameStopped(l.d, l.floor.value, used); }
    var x := l.q.items[0];
    if x.Obj? {
      SkipClosed(ResetOpen(l1), x.o.group);
      var reset := l.d.open.Some? && l.d.open.value.group == x.o.group;
      SkipClosed(l1.(d := if reset then ResetStream(l.d) else EndStream(l.d, at)), x.o.group);
    } else if x.ResetGroup? && x.upTo.Some? {
      SkipClosed(ResetOpen(l1), x.upTo.value);
    }
  }

  lemma WakeStopped(l: Lane, out: Outcome)
    requires Fits(l.d) && !l.phase.Idle? && 0 <= Turn(l.q, l.h) - 1 && !out.Stopped?
    ensures Wake(l, out).d.stopped == l.d.stopped
  {
    hide Failed, GoOn, StreamStopped, Turn;
    FailedStopped(l.(phase := Idle), l.phase.o.group);
  }

  lemma ResumeStopped(l: Lane, group: nat, rejoin: bool)
    requires Fits(l.d)
    ensures Resume(l, group, rejoin).d.stopped == l.d.stopped
  {
    hide Trim, Skip, ResetStream;
    SameStopped(l.d, 0, _ => 0);
    SkipClosed(ResetOpen(l).(q := Trim(l.q, group + 1, true)), group);
  }

  /** Only another stop, of another stream, puts another group in its place. */
  lemma StopStays(l: Lane, ev: Event)
    requires Fits(l.d) && Enabled(l, ev)
    requires !(ev.Wakes? && ev.out.Stopped?) && !(ev.Offers? && ev.e.inline.PeerStopped?)
    ensures Step(l, ev).d.stopped == l.d.stopped
  {
    hide Offer, Resume, Take, Wake, CanTake, Turn, ResetStream, MayOffer;
    SameStopped(l.d, 0, _ => 0);
    match ev
    case Offers(o, e) => OfferStopped(l, o, e);
    case Resumes(group, rejoin) => ResumeStopped(l, group, rejoin);
    case Takes(expired, used) => TakeStopped(l, expired, used);
    case Wakes(out) => WakeStopped(l, out);
    case _ =>
  }
}
