/** A lane that nothing disturbs: what it is offered and the filter admits gets to the
    peer, on streams that end in FIN. */
module LaneCalm {
  import opened Basics
  import opened LaneSpec
  import opened LaneQueue
  import opened LaneProofs
  import opened LaneRuns
  import opened LaneStreams
  import opened LaneBacklog
  import opened LaneShed

  /** Nothing is lost by the event: offers there is room for, ends asked for, turns in
      time at Forward State 1, and writes that go through. */
  ghost predicate Calm(l: Lane, ev: Event)
  {
    match ev
    case Offers(o, e) =>
      && !Below(o.group, l.floor) && (o.live ==> l.q.bytes + o.cost + Heard(l, o, e) <= l.max)
      && (e.inline.Took? || e.inline.MustWait?)
    case Puts(x) => x.EndGroup? || x.EndTrack? || x.Close?
    case Takes(expired, _) => !expired
    case Wakes(out) => out.Done?
    case Filters(_) => true
    case Gates(gate) => gate
    case _ => false
  }

  ghost predicate CalmRun(l: Lane, run: seq<Event>, l': Lane)
    decreases run
  {
    if run == [] then l' == l
    else Fits(l.d) && Enabled(l, run[0]) && Calm(l, run[0]) && CalmRun(Step(l, run[0]), run[1..], l')
  }

  /** At rest and ready: nothing queued or in flight, and no stream lost. */
  ghost predicate Ready(l: Lane)
  {
    && !l.stopped && !l.final && !l.ended && l.gate && l.q.items == [] && !l.q.cut && l.phase.Idle?
    && l.d.stopped.None?
    && (l.d.open.Some? ==> l.d.open.value.sid < |l.d.streams| && l.d.streams[l.d.open.value.sid].state.Open?)
  }

  /** The position of the next object to be on a stream. */
  function Place(l: Lane): int { if l.phase.Idle? then Turn(l.q, l.h) else Turn(l.q, l.h) - 1 }

  /** The stream carries, or as the open one is to carry, what was admitted at `p`. */
  ghost predicate Covers(st: Stream, p: int) { st.from <= p && (st.state.Open? || (st.state.Fin? && p < st.to)) }

  ghost predicate OnStream(streams: seq<Stream>, p: int) { exists i :: 0 <= i < |streams| && Covers(streams[i], p) }

  /** Every object offered from `start` on had its turn, and what was admitted is on a
      stream. */
  ghost predicate Covered(l: Lane, start: nat)
  {
    forall p: nat :: start <= p < Place(l) ==> p in l.h.judged && (l.h.judged[p] ==> OnStream(l.d.streams, p))
  }

  ghost predicate Plain(x: Item) { x.Obj? || x.EndGroup? || x.EndTrack? || x.Close? }

  ghost predicate Ends(x: Item) { x.EndGroup? || x.EndTrack? || x.Close? }

  /** Running, with nothing to reset or to end it in sight, and no stream lost. */
  ghost predicate Undisturbed(l: Lane)
  {
    && !l.stopped && !l.final && !l.ended && l.gate && !l.q.cut && l.d.stopped.None?
    && (forall x :: x in l.q.items ==> Plain(x))
    && (!l.phase.Idle? ==> l.phase.epoch == l.d.epoch)
    && (l.d.open.Some? ==> l.d.open.value.sid < |l.d.streams| && l.d.streams[l.d.open.value.sid].state.Open?)
  }

  /** No stream was reset since. */
  ghost predicate NoneReset(l0: Lane, l: Lane)
  {
    && |l0.d.streams| <= |l.d.streams|
    && forall i :: 0 <= i < |l.d.streams| && l.d.streams[i].state.Reset? ==>
         i < |l0.d.streams| && l0.d.streams[i].state.Reset?
  }

  /** Nothing was dropped since. */
  ghost predicate NoneLost(l0: Lane, l: Lane)
  {
    && |l0.h.offered| <= |l.h.offered| && l.h.offered[..|l0.h.offered|] == l0.h.offered
    && l.h.handed + Objs(l.q.items) == l0.h.handed + l.h.offered[|l0.h.offered|..]
  }

  /** An end asked for after the last object is still to come, or has come. */
  ghost predicate EndComes(l0: Lane, l: Lane)
  {
    && (forall p :: p in l.h.ends || p in l.h.trackEnds ==> p <= |l.h.offered|)
    && (|l.h.offered| > |l0.h.offered| && (|l.h.offered| in l.h.ends || |l.h.offered| in l.h.trackEnds) ==>
          (l.d.open.None? && l.phase.Idle? && Objs(l.q.items) == []) || EndLast(l.q.items))
  }

  /** An end is queued behind every object. */
  ghost predicate EndLast(items: seq<Item>)
  {
    exists k :: 0 <= k < |items| && Ends(items[k]) && forall j :: k < j < |items| ==> !items[j].Obj?
  }

  ghost predicate CalmOk(l0: Lane, l: Lane)
  {
    Undisturbed(l) && Covered(l, |l0.h.offered|) && NoneReset(l0, l) && NoneLost(l0, l) && EndComes(l0, l)
  }

  // ---- what the invariant says of such a lane --------------------------------------------

  lemma TurnIn(l: Lane)
    requires Inv(l)
    ensures 0 <= Turn(l.q, l.h) <= |l.h.offered| && Fits(l.d)
  {
    hide Objs, Ascending, EndsAsked;
    CoreFits(l);
  }

  lemma OpenIn(l: Lane)
    requires Inv(l) && !l.ended && !l.q.cut && l.d.open.Some?
    ensures l.d.open.value.sid < |l.d.streams| && l.d.streams[l.d.open.value.sid].from <= Place(l)
  {
    hide Objs, QueueOk, AboveFloor, Named, FinsWhole, StopSeen, PhaseOk, Admitted;
  }

  lemma FlightIn(l: Lane)
    requires Inv(l) && !l.ended && !l.q.cut && !l.phase.Idle? && l.phase.epoch == l.d.epoch
    ensures 1 <= Turn(l.q, l.h) <= |l.h.offered| && (l.phase.Opening? <==> l.d.open.None?)
    ensures Turn(l.q, l.h) - 1 in l.h.judged
  {
    hide Objs, QueueOk, AboveFloor, Named, FinsWhole, StopSeen, OpenOk;
  }

  // ---- the events -----------------------------------------------------------------------

  lemma SameStreams(streams: seq<Stream>, streams': seq<Stream>)
    requires |streams| <= |streams'|
    requires forall i :: 0 <= i < |streams| ==>
               streams'[i].from == streams[i].from && streams'[i].to == streams[i].to
               && streams'[i].state == streams[i].state
    ensures forall p: int :: OnStream(streams, p) ==> OnStream(streams', p)
  {
    forall p: int | OnStream(streams, p)
      ensures OnStream(streams', p)
    {
      var i :| 0 <= i < |streams| && Covers(streams[i], p);
      assert Covers(streams'[i], p);
    }
  }

  lemma QueuedCalm(l0: Lane, l: Lane, r: Lane, o: Object)
    requires CalmOk(l0, l) && Queued(l, r, o)
    ensures CalmOk(l0, r)
  {
    hide Covers, OnStream, Objs;
    ObjsSnoc(l.q.items, Obj(o));
    assert Objs(r.q.items) == Objs(l.q.items) + [o];
    MoreOffered(l0.h, l.h, o);
    Regroup(l.h.handed, Objs(l.q.items), [o]);
  }

  lemma MoreOffered(h0: History, h: History, o: Object)
    requires |h0.offered| <= |h.offered|
    ensures (h.offered + [o])[|h0.offered|..] == h.offered[|h0.offered|..] + [o]
    ensures (h.offered + [o])[..|h0.offered|] == h.offered[..|h0.offered|]
  {
  }

  /** Written through an empty queue. */
  lemma WroteCalm(l0: Lane, l: Lane, r: Lane, o: Object, inline: Inline)
    requires CalmOk(l0, l) && Inv(l) && Fits(l.d) && l.d.open.Some? && l.q.items == [] && l.phase.Idle?
    requires Wrote(l, r, o, inline) && (inline.Took? || !l.passes(o.group, o.id)) && r.q == l.q && r.floor == l.floor
    ensures CalmOk(l0, r)
  {
    hide Covers, OnStream, Inv;
    NoObjs();
    OpenIn(l);
    SameStreams(l.d.streams, r.d.streams);
    MoreOffered(l0.h, l.h, o);
    assert l.h.handed + [] == l.h.handed && r.h.handed + [] == r.h.handed;
    Regroup(l0.h.handed, l.h.offered[|l0.h.offered|..], [o]);
    OpenCovers(r.d, |l.h.offered|);
  }

  lemma OpenCovers(d: Delivery, p: int)
    requires d.open.Some? && d.open.value.sid < |d.streams| && d.streams[d.open.value.sid].state.Open?
    requires d.streams[d.open.value.sid].from <= p
    ensures OnStream(d.streams, p)
  {
    assert Covers(d.streams[d.open.value.sid], p);
  }

  lemma OfferCalm(l0: Lane, l: Lane, o: Object, e: Env)
    requires CalmOk(l0, l) && Inv(l) && Tracked(l.d, _ => true) && Calm(l, Offers(o, e))
    ensures Fits(l.d) && CalmOk(l0, Offer(l, o, e))
  {
    hide CalmOk, Inv, Tracked, Heard, Wrote, Queued, Offer;
    NotStopped(l0, l);
    OfferTaken(l, o, e);
    if WritesNow(l, o, e) {
      WroteKeeps(l, Offer(l, o, e), o, e.inline);
      WroteCalm(l0, l, Offer(l, o, e), o, e.inline);
    } else {
      QueuedCalm(l0, l, Offer(l, o, e), o);
    }
  }

  lemma NotStopped(l0: Lane, l: Lane)
    requires CalmOk(l0, l)
    ensures !l.stopped && !l.final && !l.ended && l.gate && !l.q.cut
  {
  }

  lemma WroteKeeps(l: Lane, r: Lane, o: Object, inline: Inline)
    requires Fits(l.d) && l.d.open.Some? && Wrote(l, r, o, inline) && !inline.Raised?
    ensures r.q == l.q && r.floor == l.floor
  {
  }

  lemma PutCalm(l0: Lane, l: Lane, x: Item)
    requires CalmOk(l0, l) && Ends(x)
    ensures CalmOk(l0, Put(l, x))
  {
    hide Covers, OnStream, Objs, Covered, NoneReset, EndComes;
    ObjsSnoc(l.q.items, x);
    assert Objs(l.q.items) + [] == Objs(l.q.items);
    PutCovered(l0, l, x);
    PutEnds(l0, l, x);
  }

  lemma PutCovered(l0: Lane, l: Lane, x: Item)
    requires Covered(l, |l0.h.offered|) && NoneReset(l0, l) && Objs(l.q.items + [x]) == Objs(l.q.items) && Ends(x)
    ensures Covered(Put(l, x), |l0.h.offered|) && NoneReset(l0, Put(l, x))
  {
    hide OnStream, Objs;
  }

  lemma PutEnds(l0: Lane, l: Lane, x: Item)
    requires EndComes(l0, l) && Ends(x) && Objs(l.q.items + [x]) == Objs(l.q.items)
    ensures EndComes(l0, Put(l, x))
  {
    hide Objs;
    var items := l.q.items + [x];
    assert items[|l.q.items|] == x && EndLast(items);
  }

  // ---- the writer's turns -----------------------------------------------------------------

  /** The streams after the open one ended at `to`: what was on one still is. */
  lemma EndCovers(d: Delivery, to: nat)
    requires Fits(d) && (d.open.Some? ==> d.streams[d.open.value.sid].state.Open?)
    ensures var d' := EndStream(d, to);
            && |d'.streams| == |d.streams| && d'.open.None? && d'.epoch == d.epoch && d'.stopped == d.stopped
            && (forall i :: 0 <= i < |d.streams| && d'.streams[i].state.Reset? ==> d.streams[i].state.Reset?)
            && (forall p: int :: p < to && OnStream(d.streams, p) ==> OnStream(d'.streams, p))
  {
    var d' := EndStream(d, to);
    forall p: int | p < to && OnStream(d.streams, p)
      ensures OnStream(d'.streams, p)
    {
      var i :| 0 <= i < |d.streams| && Covers(d.streams[i], p);
      assert Covers(d'.streams[i], p);
    }
  }

  lemma PopIs(l: Lane)
    requires Inv(l) && l.q.items != []
    ensures var q := Pop(l.q);
            && q.items == l.q.items[1..] && q.cut == l.q.cut && Objs(l.q.items) == One(l.q.items[0]) + Objs(q.items)
            && Turn(q, l.h) == Turn(l.q, l.h) + |One(l.q.items[0])|
    ensures l.q.items[0].Obj? ==> Turn(l.q, l.h) < |l.h.offered| && l.h.offered[Turn(l.q, l.h)] == l.q.items[0].o
  {
    hide Objs, Ascending, EndsAsked, LiveBytes, ReplayBytes, Charged;
    ObjsHead(l.q.items);
    if l.q.items[0].Obj? { PopObject(l.q, l.h); }
  }

  /** The object at the head is the next to be on a stream, unless the filter keeps it out. */
  lemma TakenCovered(l0: Lane, l: Lane, r: Lane)
    requires Covered(l, |l0.h.offered|) && Inv(l) && l.phase.Idle? && l.q.items != [] && l.q.items[0].Obj?
    requires Fits(l.d) && (l.d.open.Some? ==> l.d.streams[l.d.open.value.sid].state.Open?)
    requires var o, at := l.q.items[0].o, Turn(l.q, l.h);
             0 <= at && r == BeginWrite(l.(q := Pop(l.q)), o, at) && l.d.stopped.None?
    ensures Covered(r, |l0.h.offered|) && Place(r) >= Place(l)
  {
    hide Covers, OnStream, Objs, Inv, Pop;
    PopIs(l);
    EndCovers(l.d, Turn(l.q, l.h));
    hide EndStream;
  }

  lemma TakenUndisturbed(l: Lane, r: Lane, o: Object, at: nat)
    requires Undisturbed(l) && Fits(l.d) && l.phase.Idle? && l.q.items != [] && Pop(l.q).cut == l.q.cut
    requires Pop(l.q).items == l.q.items[1..] && r == BeginWrite(l.(q := Pop(l.q)), o, at)
    ensures Undisturbed(r)
  {
    hide Pop, Plain;
    EndCovers(l.d, at);
    hide EndStream;
    assert forall x :: x in l.q.items[1..] ==> x in l.q.items;
  }

  lemma TakenKept(l0: Lane, l: Lane, r: Lane, o: Object, at: nat)
    requires NoneReset(l0, l) && NoneLost(l0, l) && Fits(l.d) && Undisturbed(l)
    requires l.q.items != [] && l.q.items[0] == Obj(o) && Objs(l.q.items) == [o] + Objs(Pop(l.q).items)
    requires r == BeginWrite(l.(q := Pop(l.q)), o, at)
    ensures NoneReset(l0, r) && NoneLost(l0, r)
  {
    hide Pop, Objs, Plain;
    EndCovers(l.d, at);
    hide EndStream;
    Regroup(l.h.handed, [o], Objs(Pop(l.q).items));
  }

  lemma EndsAfter(l0: Lane, l: Lane, r: Lane)
    requires EndComes(l0, l) && l.q.items != [] && r.q.items == l.q.items[1..] && r.h.offered == l.h.offered
    requires r.h.ends == l.h.ends && r.h.trackEnds == l.h.trackEnds
    requires if l.q.items[0].Obj? then Objs(l.q.items) != [] else r.d.open.None? && r.phase.Idle?
    ensures EndComes(l0, r)
  {
    hide Ends;
    if EndLast(l.q.items) {
      var items := l.q.items;
      var k :| 0 <= k < |items| && Ends(items[k]) && forall j :: k < j < |items| ==> !items[j].Obj?;
      if k == 0 {
        assert forall j :: 0 <= j < |r.q.items| ==> r.q.items[j] == items[j + 1];
        NoObjsIn(r.q.items);
        NotEnds(items[0]);
      } else {
        assert r.q.items[k - 1] == items[k] && forall j :: 0 <= j < |r.q.items| ==> r.q.items[j] == items[j + 1];
        assert EndLast(r.q.items);
      }
    } else if !l.q.items[0].Obj? {
      ObjsHead(l.q.items);
    }
  }

  lemma NotEnds(x: Item)
    ensures Ends(x) ==> !x.Obj?
  {
  }

  lemma {:induction false} NoObjsIn(items: seq<Item>)
    requires forall j :: 0 <= j < |items| ==> !items[j].Obj?
    ensures Objs(items) == []
  {
    if items != [] { NoObjsIn(items[1..]); }
  }

  lemma TakeObjectCalm(l0: Lane, l: Lane, o: Object, used: Backlog)
    requires CalmOk(l0, l) && Inv(l) && CanTake(l) && l.q.items[0] == Obj(o)
    ensures Fits(l.d) && CalmOk(l0, Take(l, false, used))
  {
    hide Covered, NoneReset, NoneLost, Inv, Objs, Pop, Turn, EndComes, BeginWrite;
    TurnIn(l);
    PopIs(l);
    var r, at := Take(l, false, used), Turn(l.q, l.h);
    TakenCovered(l0, l, r);
    TakenUndisturbed(l, r, o, at);
    TakenKept(l0, l, r, o, at);
    BegunEnds(l0, l, r, o, at);
  }

  lemma BegunEnds(l0: Lane, l: Lane, r: Lane, o: Object, at: nat)
    requires EndComes(l0, l) && Fits(l.d) && l.q.items != [] && l.q.items[0] == Obj(o)
    requires Pop(l.q).items == l.q.items[1..] && Objs(l.q.items) == [o] + Objs(Pop(l.q).items)
    requires r == BeginWrite(l.(q := Pop(l.q)), o, at)
    ensures EndComes(l0, r)
  {
    hide EndComes, EndStream, Pop, Objs;
    EndsAfter(l0, l, r);
  }

  /** What an end makes of the lane: nothing is open any more, and what was on a
      stream still is. */
  lemma EndIs(l: Lane, x: Item, used: Backlog, at: nat)
    requires Undisturbed(l) && Fits(l.d) && Ends(x)
    ensures var r := Control(l, x, used, at);
            && r.d.open.None? && r.d.epoch == l.d.epoch && r.d.stopped == l.d.stopped && r.q == l.q
            && r.phase == l.phase && r.gate == l.gate && r.ended == l.ended
            && r.h.offered == l.h.offered && r.h.judged == l.h.judged && r.h.handed == l.h.handed
            && r.h.ends == l.h.ends && r.h.trackEnds == l.h.trackEnds
            && |l.d.streams| <= |r.d.streams|
            && (forall i :: 0 <= i < |r.d.streams| && r.d.streams[i].state.Reset? ==>
                  i < |l.d.streams| && l.d.streams[i].state.Reset?)
            && (forall p: int :: p < at && OnStream(l.d.streams, p) ==> OnStream(r.d.streams, p))
  {
    hide Plain, OnStream, Covers;
    EndCovers(l.d, at);
    hide EndStream;
    if x.EndTrack? && l.d.open.None? { TrackEndCovers(l, x.largest, at); }
  }

  lemma TrackEndCovers(l: Lane, largest: Option<nat>, at: nat)
    requires Fits(l.d) && l.d.open.None?
    ensures var d' := EndTrackStep(l, largest, at).d;
            && |l.d.streams| <= |d'.streams| && (forall p: int :: OnStream(l.d.streams, p) ==> OnStream(d'.streams, p))
            && (forall i :: 0 <= i < |d'.streams| && d'.streams[i].state.Reset? ==>
                  i < |l.d.streams| && l.d.streams[i].state.Reset?)
  {
    SameStreams(l.d.streams, EndTrackStep(l, largest, at).d.streams);
  }

  lemma TakeEndCalm(l0: Lane, l: Lane, used: Backlog)
    requires CalmOk(l0, l) && Inv(l) && CanTake(l) && Ends(l.q.items[0])
    ensures Fits(l.d) && CalmOk(l0, Take(l, false, used))
  {
    hide Inv, Objs, Pop, Covers, OnStream, EndComes, Control, Plain;
    TurnIn(l);
    PopIs(l);
    var x, at, l1 := l.q.items[0], Turn(l.q, l.h), l.(q := Pop(l.q));
    assert forall y :: y in l.q.items[1..] ==> y in l.q.items;
    EndIs(l1, x, used, at);
    NotEnds(x);
    assert One(x) + Objs(l1.q.items) == Objs(l1.q.items);
    EndsAfter(l0, l, Take(l, false, used));
  }

  lemma HeadPlain(l: Lane)
    requires Undisturbed(l) && l.q.items != []
    ensures l.q.items[0].Obj? || Ends(l.q.items[0])
  {
    assert l.q.items[0] in l.q.items;
  }

  // ---- a write that goes through -------------------------------------------------------------

  lemma OpenedCovers(d: Delivery, group: nat, from: nat)
    ensures var d' := StreamOpened(d, group, from);
            && |d.streams| <= |d'.streams| && (forall p: int :: OnStream(d.streams, p) ==> OnStream(d'.streams, p))
            && d'.open.Some? && d'.open.value.sid < |d'.streams| && d'.streams[d'.open.value.sid].state.Open?
            && d'.epoch == d.epoch && d'.stopped == d.stopped
            && (forall i :: 0 <= i < |d'.streams| && d'.streams[i].state.Reset? ==>
                  i < |d.streams| && d.streams[i].state.Reset?)
  {
    SameStreams(d.streams, StreamOpened(d, group, from).streams);
  }

  lemma WrittenCovers(d: Delivery, o: Object)
    requires Fits(d) && d.open.Some? && d.streams[d.open.value.sid].state.Open?
    ensures var d', sid := Written(d, o), d.open.value.sid;
            && |d.streams| == |d'.streams| && (forall p: int :: OnStream(d.streams, p) ==> OnStream(d'.streams, p))
            && d'.open == d.open && d'.streams[sid].state.Open? && d'.streams[sid].from == d.streams[sid].from
            && d'.epoch == d.epoch && d'.stopped == d.stopped
            && (forall i :: 0 <= i < |d'.streams| && d'.streams[i].state.Reset? ==> d.streams[i].state.Reset?)
  {
    SameStreams(d.streams, Written(d, o).streams);
  }

  lemma WakeCalm(l0: Lane, l: Lane)
    requires CalmOk(l0, l) && Inv(l) && !l.phase.Idle?
    ensures 0 <= Turn(l.q, l.h) - 1 && Fits(l.d) && CalmOk(l0, Wake(l, Done))
  {
    hide Inv, Objs, Covers, OnStream, Plain, StreamOpened, Written, OpenedLate, Turn, EndComes;
    InvFits(l);
    UndisturbedIs(l0, l);
    FlightIn(l);
    var r := GoOn(l);
    assert Wake(l, Done) == r by { hide GoOn; }
    if l.phase.Opening? {
      OpenedCovers(l.d, l.phase.o.group, Turn(l.q, l.h) - 1);
    } else if l.phase.Body? {
      OpenIn(l);
      WrittenCovers(l.d, l.phase.o);
      OpenCovers(Written(l.d, l.phase.o), Turn(l.q, l.h) - 1);
    }
    WokenEnds(l0, l, r);
  }

  lemma UndisturbedIs(l0: Lane, l: Lane)
    requires CalmOk(l0, l)
    ensures !l.ended && !l.q.cut && (!l.phase.Idle? ==> l.phase.epoch == l.d.epoch)
  {
  }

  lemma WokenEnds(l0: Lane, l: Lane, r: Lane)
    requires EndComes(l0, l) && !l.phase.Idle? && r.q == l.q && r.h == l.h
    ensures EndComes(l0, r)
  {
    hide Objs, EndLast;
  }

  lemma StepCalm(l0: Lane, l: Lane, ev: Event)
    requires CalmOk(l0, l) && Inv(l) && Tracked(l.d, _ => true) && Enabled(l, ev) && Calm(l, ev)
    ensures Fits(l.d) && CalmOk(l0, Step(l, ev))
  {
    hide CalmOk, Inv, Tracked, Heard, Offer, Put, Take, Wake, Undisturbed, MayOffer;
    InvFits(l);
    match ev
    case Offers(o, e) => OfferCalm(l0, l, o, e);
    case Puts(x) => PutCalm(l0, l, x);
    case Takes(_, used) =>
      CalmUndisturbed(l0, l);
      HeadPlain(l);
      if l.q.items[0].Obj? { TakeObjectCalm(l0, l, l.q.items[0].o, used); } else { TakeEndCalm(l0, l, used); }
    case Wakes(_) => WakeCalm(l0, l);
    case Gates(_) => GateCalm(l0, l, l.passes);
    case Filters(passes) => GateCalm(l0, l, passes);
  }

  lemma CalmUndisturbed(l0: Lane, l: Lane)
    requires CalmOk(l0, l)
    ensures Undisturbed(l)
  {
  }

  lemma GateCalm(l0: Lane, l: Lane, passes: Filter)
    requires CalmOk(l0, l)
    ensures CalmOk(l0, l.(gate := true)) && CalmOk(l0, l.(passes := passes))
  {
    hide OnStream, Objs, EndLast, Plain;
  }

  lemma {:induction false} RunCalm(l0: Lane, l: Lane, run: seq<Event>, l': Lane)
    requires CalmOk(l0, l) && Inv(l) && Tracked(l.d, _ => true) && CalmRun(l, run, l')
    ensures CalmOk(l0, l') && Inv(l') && Tracked(l'.d, _ => true)
    decreases run
  {
    hide CalmOk, Inv, Tracked, Calm, Step, Enabled;
    if run != [] {
      StepCalm(l0, l, run[0]);
      StepKeeps(l, run[0]);
      AllRead(run[0]);
      StepClosed(l, run[0], _ => true);
      RunCalm(l0, Step(l, run[0]), run[1..], l');
    }
  }

  lemma AllRead(ev: Event)
    ensures Reads(ev, _ => true)
  {
  }

  /** Ends were asked for at places there were. */
  ghost predicate EndsPast(h: History) { forall p :: p in h.ends || p in h.trackEnds ==> p <= |h.offered| }

  lemma StepEndsPast(l: Lane, ev: Event)
    requires Fits(l.d) && Enabled(l, ev) && EndsPast(l.h)
    ensures EndsPast(Step(l, ev).h)
  {
    hide Offer, Put, Resume, Take, Wake, CanTake, Turn, ResetStream, Stop, PeerStops, MayOffer;
  }

  lemma {:induction false} RunEndsPast(l: Lane, run: seq<Event>, l': Lane)
    requires EndsPast(l.h) && Reaches(l, run, l')
    ensures EndsPast(l'.h)
    decreases run
  {
    hide EndsPast, Step, Enabled;
    if run != [] {
      StepEndsPast(l, run[0]);
      RunEndsPast(Step(l, run[0]), run[1..], l');
    }
  }

  lemma ReadyIs(l: Lane)
    requires Ready(l) && EndsPast(l.h)
    ensures CalmOk(l, l)
  {
    NoObjs();
    assert l.h.offered[|l.h.offered|..] == [] && l.h.offered[..|l.h.offered|] == l.h.offered;
  }

  lemma ReachableEndsPast(l: Lane)
    requires Reachable(l)
    ensures EndsPast(l.h)
  {
    hide Reaches;
    var max, through, passes, floor, gate, run :| Reaches(Init(max, through, passes, floor, gate), run, l);
    RunEndsPast(Init(max, through, passes, floor, gate), run, l);
  }

  // ---- what gets to the peer -------------------------------------------------------------------

  lemma {:induction false} AdmittedHas(h: History, from: nat, to: nat, p: nat)
    requires from <= p < to <= |h.offered| && p in h.judged && h.judged[p]
    ensures h.offered[p] in Admitted(h, from, to)
  {
    if p < to - 1 { AdmittedHas(h, from, to - 1, p); }
  }

  /** A stream of the lane that is to carry what was admitted at `p` does. */
  lemma CoversCarries(l: Lane, i: nat, p: nat)
    requires Inv(l) && Tracked(l.d, _ => true) && !l.ended && !l.q.cut && i < |l.d.streams|
    requires Covers(l.d.streams[i], p) && p < Place(l) && p in l.h.judged && l.h.judged[p]
    ensures p < |l.h.offered| && l.h.offered[p] in l.d.streams[i].objs
  {
    hide Admitted, Tracked, Objs;
    var st := l.d.streams[i];
    TurnIn(l);
    if st.state.Fin? {
      FinIn(l, i);
      AdmittedHas(l.h, st.from, st.to, p);
    } else {
      OpenHeld(l, i);
      OpenCarries(l);
      AdmittedHas(l.h, st.from, Place(l), p);
    }
  }

  lemma FinIn(l: Lane, i: nat)
    requires Inv(l) && i < |l.d.streams| && l.d.streams[i].state.Fin?
    ensures var st := l.d.streams[i]; st.from <= st.to <= |l.h.offered| && st.objs == Admitted(l.h, st.from, st.to)
  {
    hide QueueOk, AboveFloor, Named, StreamsFit, WriterOk, Admitted, MayEnd;
    assert Whole(l.d.streams[i], l.h);
  }

  lemma OpenHeld(l: Lane, i: nat)
    requires Tracked(l.d, _ => true) && i < |l.d.streams| && l.d.streams[i].state.Open?
    ensures l.d.open.Some? && l.d.open.value.sid == i
  {
  }

  lemma OpenCarries(l: Lane)
    requires Inv(l) && !l.ended && !l.q.cut && l.d.open.Some?
    ensures l.d.open.value.sid < |l.d.streams|
    ensures var st := l.d.streams[l.d.open.value.sid];
            st.from <= Place(l) <= |l.h.offered| && st.objs == Admitted(l.h, st.from, Place(l))
  {
    hide Objs, QueueOk, AboveFloor, Named, FinsWhole, StopSeen, PhaseOk, Admitted;
  }

  /** Some stream that was not reset carries what was offered at `p`. */
  ghost predicate Delivered(l: Lane, p: nat)
    requires p < |l.h.offered|
  {
    exists i :: 0 <= i < |l.d.streams| && Covers(l.d.streams[i], p) && l.h.offered[p] in l.d.streams[i].objs
  }

  /** However a lane came to rest, what it is offered from then on, with nothing to
      disturb it, is all handed over or queued, in order; no stream is reset; and every
      object that had its turn, and that the filter admitted then, is on a stream. Once
      an end is asked for and nothing is left to do, that stream has ended in FIN. */
  lemma CalmLaneDelivers(l0: Lane, run: seq<Event>, l: Lane)
    requires Reachable(l0) && Ready(l0) && CalmRun(l0, run, l)
    ensures NoneReset(l0, l) && NoneLost(l0, l) && Place(l) <= |l.h.offered|
    ensures forall p: nat :: |l0.h.offered| <= p < Place(l) ==>
              p in l.h.judged && (l.h.judged[p] ==> Delivered(l, p))
    ensures var n := |l.h.offered|;
            l.q.items == [] && l.phase.Idle? && |l0.h.offered| < n && (n in l.h.ends || n in l.h.trackEnds) ==>
              Place(l) == n && l.d.open.None? && forall i :: 0 <= i < |l.d.streams| ==> !l.d.streams[i].state.Open?
  {
    hide Reachable, Inv, Tracked, Covers, NoneReset, NoneLost;
    ReachableTracked(l0);
    ReachableEndsPast(l0);
    ReadyIs(l0);
    RunCalm(l0, l0, run, l);
    TurnIn(l);
    NoObjs();
    forall p: nat | |l0.h.offered| <= p < Place(l) && l.h.judged[p]
      ensures Delivered(l, p)
    {
      var i :| 0 <= i < |l.d.streams| && Covers(l.d.streams[i], p);
      CoversCarries(l, i, p);
    }
    if l.d.open.None? { NoneOpen(l); }
  }

  lemma NoneOpen(l: Lane)
    requires Tracked(l.d, _ => true) && l.d.open.None?
    ensures forall i :: 0 <= i < |l.d.streams| ==> !l.d.streams[i].state.Open?
  {
  }
}
