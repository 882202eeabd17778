/** What an offer loses, and what it may not lose. */
module LaneShed {
  import opened Basics
  import opened LaneSpec
  import opened LaneQueue
  import opened LaneProofs
  import opened LaneRuns
  import opened LaneStreams
  import opened LaneBacklog

  // ---- what the lane knows of the transport ------------------------------------------

  /** A live object's offer reads the backlog: its group's first, and then every
      LANE_TX_PROBE offers. */
  predicate Due(l: Lane, o: Object) { o.live && (l.probeGroup != Some(o.group) || l.probeN >= LANE_TX_PROBE) }

  /** The backlog an offer of `o` goes by: read now, or when it was last read. */
  ghost function Heard(l: Lane, o: Object, e: Env): nat
  {
    if Due(l, o) then Bytes(l.d.streams, Held(l.d), l.floor, e.probe, |l.d.streams|) else l.txBytes
  }

  /** What a shed reads after that; a stream just found drained stays so. */
  ghost function HeardNext(l: Lane, o: Object, e: Env): Backlog
  {
    var due, watched, probe, shed := Due(l, o), Sids(l.d.tx), e.probe, e.shed;
    (i: nat) => if due && i in watched && probe(i) == 0 then 0 else shed(i)
  }

  /** The backlog of the streams of groups from `o`'s on. */
  ghost function HeardFrom(l: Lane, o: Object, e: Env): nat
  {
    Bytes(l.d.streams, Held(l.d), Some(o.group), HeardNext(l, o, e), |l.d.streams|)
  }

  lemma {:induction false} BytesSame(streams: seq<Stream>, a: set<nat>, b: set<nat>, floor: Option<nat>, used: Backlog,
                                     used': Backlog, n: nat)
    requires n <= |streams|
    requires forall i: nat :: i < n ==> (if i in a then used(i) else 0) == (if i in b then used'(i) else 0)
    ensures Bytes(streams, a, floor, used, n) == Bytes(streams, b, floor, used', n)
  {
    if n > 0 { BytesSame(streams, a, b, floor, used, used', n - 1); }
  }

  lemma ProbeReads(l: Lane, group: nat, used: Backlog)
    ensures var r, due := Probe(l, group, used), l.probeGroup != Some(group) || l.probeN >= LANE_TX_PROBE;
            && r.txBytes == (if due then TxQueued(l.d, l.floor, used) else l.txBytes)
            && r.d.tx == if due then Undrained(l.d.tx, used) else l.d.tx
  {
    hide TxQueued, Undrained;
  }

  /** The lane as the probe leaves it. */
  ghost function Probed(l: Lane, o: Object, e: Env): Lane { if o.live then Probe(l, o.group, e.probe) else l }

  lemma ProbedIs(l: Lane, o: Object, e: Env)
    requires Inv(l) && Tracked(l.d, _ => true)
    ensures var l1 := Probed(l, o, e);
            && l1 == l.(txBytes := l1.txBytes, d := l1.d, probeGroup := l1.probeGroup, probeN := l1.probeN)
            && Forgets(l.d, l1.d) && l1.txBytes == Heard(l, o, e) && Fits(l1.d) && Core(l1)
            && TxQueued(l1.d, Some(o.group), e.shed) == HeardFrom(l, o, e)
            && TxOk(l1.d.streams, l1.d.open, l1.d.tx)
  {
    hide Inv, Core, Probe, TxQueued, Bytes, Once, FinsWatched, OnlyOpen, Undrained;
    InvCore(l);
    CoreFits(l);
    QueuedBytes(l.d, l.floor, e.probe);
    if o.live {
      ProbeForgets(l, o.group, e.probe);
      ProbeReads(l, o.group, e.probe);
      ProbeKeeps(l, o.group, e.probe);
    }
    var l1 := Probed(l, o, e);
    CoreFits(l1);
    UndrainedOnce(l.d.tx, e.probe);
    UndrainedAre(l.d.tx, e.probe);
    FewerTxOk(l.d.streams, l.d.open, l.d.tx, l1.d.tx);
    QueuedBytes(l1.d, Some(o.group), e.shed);
    BytesSame(l.d.streams, Held(l1.d), Held(l.d), Some(o.group), e.shed, HeardNext(l, o, e), |l.d.streams|);
  }

  lemma {:induction false} UndrainedAre(tx: seq<OpenStream>, used: Backlog)
    ensures forall t :: t in Undrained(tx, used) <==> t in tx && used(t.sid) != 0
  {
    if tx != [] { UndrainedAre(tx[1..], used); }
  }

  lemma InvCore(l: Lane)
    requires Inv(l)
    ensures Core(l)
  {
  }

  // ---- an offer there is room for -------------------------------------------------------

  /** send_nowait() takes the object: nothing is before it, the backlog leaves room,
      and, when the filter admits it, its stream carries an object already and the
      transport takes or loses it now. */
  ghost predicate WritesNow(l: Lane, o: Object, e: Env)
    requires Fits(l.d)
  {
    && l.through && l.q.items == [] && l.phase.Idle? && l.gate && Heard(l, o, e) + o.cost <= l.max
    && l.d.open.Some? && !o.start
    && (l.passes(o.group, o.id) ==> !e.inline.MustWait? && l.d.streams[l.d.open.value.sid].objs != [])
  }

  /** What no offer touches. */
  ghost predicate SameTask(l: Lane, r: Lane)
  {
    && r.phase == l.phase && r.gate == l.gate && r.ended == l.ended && r.closing == l.closing
    && r.passes == l.passes && r.max == l.max && r.stopped == l.stopped && r.final == l.final
  }

  /** All that changes is that `o` waits at the queue's end, and what the transport
      was found to have drained is forgotten. */
  ghost predicate Queued(l: Lane, r: Lane, o: Object)
  {
    && r.q.items == l.q.items + [Obj(o)] && r.q.cut == l.q.cut && r.floor == l.floor && r.lost == l.lost
    && r.h == l.h.(offered := l.h.offered + [o], top := Max(l.h.top, o.group))
    && r.d == l.d.(tx := r.d.tx) && SameTask(l, r)
  }

  /** The writer has `o`: skipped when the filter excludes it, else on the open
      stream, unless that stream is lost; and only an error raises the floor. */
  ghost predicate Wrote(l: Lane, r: Lane, o: Object, inline: Inline)
    requires Fits(l.d) && l.d.open.Some?
  {
    var sid, pass := l.d.open.value.sid, l.passes(o.group, o.id);
    && r.h == l.h.(offered := l.h.offered + [o], top := Max(l.h.top, o.group), handed := l.h.handed + [o],
                   judged := l.h.judged[|l.h.offered| := pass])
    && SameTask(l, r)
    && ((pass && inline.Raised?) || (r.q == l.q && r.floor == l.floor && r.lost == l.lost))
    && (!pass ==> r.d == l.d.(tx := r.d.tx))
    && (pass && inline.Took? ==>
          r.d == l.d.(tx := r.d.tx,
                      streams := l.d.streams[sid := l.d.streams[sid].(objs := l.d.streams[sid].objs + [o])]))
  }

  lemma PushIs(q: Queue, o: Object)
    ensures Push(q, Obj(o)).items == q.items + [Obj(o)] && Push(q, Obj(o)).cut == q.cut
    ensures Push(q, Obj(o)).bytes == q.bytes + if o.live then o.cost else 0
  {
    ObjsSnoc(q.items, Obj(o));
    BytesConcat(Objs(q.items), [o]);
    assert LiveBytes([o]) == if o.live then o.cost else 0;
  }

  /** The step an offer takes once the backlog is known. */
  lemma OfferIs(l: Lane, o: Object, e: Env)
    requires Fits(l.d) && Fits(Probed(l, o, e).d) && !l.stopped && !l.final && !Below(o.group, l.floor)
    ensures var l1 := Probed(l, o, e);
            Offer(l, o, e) == if Inlines(l1, o) && !Defers(l1, o, e.inline) then WriteThrough(l1, o, e.inline)
                              else Enqueue(Note(l1, o), o, e)
  {
    hide Probe, Inlines, Defers, WriteThrough, Enqueue;
  }

  lemma WritesIff(l: Lane, o: Object, e: Env)
    requires Inv(l) && Tracked(l.d, _ => true)
    ensures Fits(l.d) && Fits(Probed(l, o, e).d)
    ensures var l1 := Probed(l, o, e); WritesNow(l, o, e) <==> Inlines(l1, o) && !Defers(l1, o, e.inline)
  {
    hide Inv, Core, Probed, Heard, HeardFrom, Tracked, TxQueued;
    ProbedIs(l, o, e);
    InvFits(l);
  }

  lemma EnqueueIs(l: Lane, o: Object, e: Env)
    requires Fits(l.d) && (o.live ==> l.q.bytes + o.cost + l.txBytes <= l.max)
    ensures Enqueue(l, o, e) == l.(q := Push(l.q, Obj(o)))
  {
    hide Push, Shed;
    PushIs(l.q, o);
  }

  /** What an inline write makes of the lane: only an error raises the floor. */
  lemma ThroughIs(l: Lane, o: Object, inline: Inline)
    requires Fits(l.d) && l.d.open.Some?
    ensures var r := WriteThrough(l, o, inline);
            (inline.MustWait? ==> !l.passes(o.group, o.id)) ==> Wrote(l, r, o, inline)
  {
    hide Failed, StreamStopped;
    FailedTask(Note(l, o).(h := Hand(Note(l, o).h, o, |l.h.offered|, l.passes(o.group, o.id))), o.group);
  }

  lemma FailedTask(l: Lane, group: nat)
    requires Fits(l.d)
    ensures SameTask(l, Failed(l, group))
  {
    hide Trim, ResetStream;
  }

  lemma OfferTaken(l: Lane, o: Object, e: Env)
    requires Inv(l) && Tracked(l.d, _ => true) && !l.stopped && !l.final && !Below(o.group, l.floor)
    requires o.live ==> l.q.bytes + o.cost + Heard(l, o, e) <= l.max
    ensures Fits(l.d)
    ensures var r := Offer(l, o, e); if WritesNow(l, o, e) then Wrote(l, r, o, e.inline) else Queued(l, r, o)
  {
    hide Inv, Tracked, Probed, Heard, HeardFrom, Inlines, Defers, WritesNow, Push, TxQueued;
    InvFits(l);
    ProbedIs(l, o, e);
    WritesIff(l, o, e);
    OfferIs(l, o, e);
    var l1 := Probed(l, o, e);
    if WritesNow(l, o, e) {
      NotWaiting(l, o, e);
      ThroughIs(l1, o, e.inline);
    } else {
      EnqueueIs(Note(l1, o), o, e);
      PushIs(l.q, o);
    }
  }

  /** A running lane loses nothing it has room for: an object of a group not given
      up is handed to the writer or queued behind the rest, and no floor rises but
      for the error of that very write. */
  lemma OfferLosesNothing(l: Lane, o: Object, e: Env)
    requires Reachable(l) && !l.stopped && !l.final && MayOffer(l, o) && !Below(o.group, l.floor)
    requires o.live ==> l.q.bytes + o.cost + Heard(l, o, e) <= l.max
    ensures Fits(l.d)
    ensures var r := Offer(l, o, e);
            if WritesNow(l, o, e) then Wrote(l, r, o, e.inline) else Queued(l, r, o)
  {
    hide Reachable, Inv, Tracked, Heard, WritesNow, Wrote, Queued, Offer;
    ReachableTracked(l);
    OfferTaken(l, o, e);
  }

  lemma NotWaiting(l: Lane, o: Object, e: Env)
    requires Fits(l.d) && Fits(Probed(l, o, e).d)
    requires Inlines(Probed(l, o, e), o) && WritesNow(l, o, e)
    ensures Probed(l, o, e).d.open.Some? && (e.inline.MustWait? ==> !l.passes(o.group, o.id))
  {
    hide Probed, Heard;
  }

  lemma ReachableTracked(l: Lane)
    requires Reachable(l)
    ensures Inv(l) && Tracked(l.d, _ => true)
  {
    hide Reaches;
    var max, through, passes, start, gate, run :| Reaches(Init(max, through, passes, start, gate), run, l);
    TrackedIn(max, through, passes, start, gate, run, l, _ => true);
  }

  // ---- an offer there is no room for ------------------------------------------------------

  ghost function OfGroup(s: seq<Object>, group: nat): seq<Object>
  {
    if s == [] then [] else (if s[0].group == group then [s[0]] else []) + OfGroup(s[1..], group)
  }

  /** The items that are no objects. */
  ghost function Controls(items: seq<Item>): seq<Item>
  {
    if items == [] then [] else (if items[0].Obj? then [] else [items[0]]) + Controls(items[1..])
  }

  lemma {:induction false} FromOfGroup(s: seq<Object>, group: nat)
    requires forall x :: x in s ==> x.group <= group
    ensures From(s, group) == OfGroup(s, group) && From(s, group + 1) == []
  {
    if s != [] { FromOfGroup(s[1..], group); }
  }

  lemma FromCons(x: Object, rest: seq<Object>, floor: nat)
    ensures From([x] + rest, floor) == (if x.group >= floor then [x] else []) + From(rest, floor)
  {
    assert ([x] + rest)[1..] == rest;
  }

  lemma {:induction false} FromSnoc(s: seq<Object>, o: Object, floor: nat)
    ensures From(s + [o], floor) == From(s, floor) + if o.group >= floor then [o] else []
  {
    var last := if o.group >= floor then [o] else [];
    if s == [] {
      assert s + [o] == [o] + [];
      FromCons(o, [], floor);
    } else {
      var x, rest := s[0], s[1..];
      assert s == [x] + rest && s + [o] == [x] + (rest + [o]);
      FromCons(x, rest + [o], floor);
      FromCons(x, rest, floor);
      hide From;
      FromSnoc(rest, o, floor);
    }
  }

  lemma {:induction false} KeptControls(items: seq<Item>, floor: nat)
    ensures Controls(Kept(items, floor, false)) == Controls(items)
  {
    if items != [] {
      var x, rest := items[0], Kept(items[1..], floor, false);
      KeptControls(items[1..], floor);
      assert Kept(items, floor, false) == if Keeps(x, floor, false) then [x] + rest else rest;
      assert ([x] + rest)[1..] == rest && [] + Controls(rest) == Controls(rest);
    }
  }

  lemma TrimIs(q: Queue, floor: nat)
    requires Counted(q)
    ensures var r := Trim(q, floor, false);
            && Objs(r.items) == From(Objs(q.items), floor) && r.bytes == LiveBytes(Objs(r.items)) && r.cut == q.cut
            && Controls(r.items) == Controls(q.items) && Counted(r)
  {
    hide Kept, From;
    KeptObjs(q.items, floor, false);
    KeptControls(q.items, floor);
  }

  lemma CutIs(q: Queue)
    ensures Objs(PushCut(q).items) == Objs(q.items) && PushCut(q).cut && PushCut(q).bytes == q.bytes
    ensures Controls(PushCut(q).items) == (if q.cut then [] else [Cut]) + Controls(q.items)
  {
    ObjsCons(Cut, q.items);
    assert ([Cut] + q.items)[1..] == q.items;
    assert One(Cut) + Objs(q.items) == Objs(q.items);
  }

  /** The queue and the floor after a shed. */
  ghost predicate ShedTo(l: Lane, r: Lane, objs: seq<Object>, floor: nat)
  {
    && Objs(r.q.items) == objs && r.q.cut
    && Controls(r.q.items) == (if l.q.cut then [] else [Cut]) + Controls(l.q.items)
    && r.floor == Some(floor) && r.lost == (if floor == 0 then None else Some(floor - 1))
    && r.h.handed == l.h.handed && r.phase == l.phase
  }

  lemma CutToIs(l: Lane, floor: nat, used: Backlog)
    requires Fits(l.d) && Counted(l.q) && TxOk(l.d.streams, l.d.open, l.d.tx)
    ensures var r, q := CutTo(l, floor, used), Trim(l.q, floor, false);
            && r == l.(q := q, txBytes := TxQueued(l.d, Some(floor), used), d := r.d) && Forgets(l.d, r.d)
            && TxOk(r.d.streams, r.d.open, r.d.tx)
  {
    hide Trim, TxQueued, Filed, Once, Undrained;
    UndrainedOnce(l.d.tx, used);
    FewerTxOk(l.d.streams, l.d.open, l.d.tx, Undrained(l.d.tx, used));
  }

  /** A floor at or above the one before, and a CUT to act on it. */
  lemma RaiseIs(l: Lane, floor: nat)
    requires !Below(floor, l.floor)
    ensures ShedTo(l, Raise(l, floor), Objs(l.q.items), floor) && Raise(l, floor).d == l.d
  {
    hide PushCut, Objs, Controls;
    CutIs(l.q);
  }

  /** Resetting what was parked touches nothing of a group from the floor on. */
  lemma UnparkIs(l: Lane, floor: nat, used: Backlog)
    requires Fits(l.d) && l.floor == Some(floor) && TxOk(l.d.streams, l.d.open, l.d.tx)
    ensures var r := Unpark(l, used); r == l.(d := r.d) && Spares(l.d, r.d, floor)
  {
    hide ResetBelow, TxOk, Spares;
    ResetBelowSpares(l.d, floor, used);
    SparesAll(l.d, floor);
  }

  /** Streams of groups from `floor` on are as they were, open or not. */
  ghost predicate Spares(d: Delivery, d': Delivery, floor: nat)
  {
    && |d'.streams| == |d.streams|
    && (forall i :: 0 <= i < |d.streams| && d.streams[i].group >= floor ==> d'.streams[i] == d.streams[i])
    && (d.open.Some? && d.open.value.group >= floor ==> d'.open == d.open)
  }

  lemma SparesAll(d: Delivery, floor: nat)
    ensures Spares(d, d, floor)
  {
  }

  lemma SparesSame(d: Delivery, d1: Delivery, d': Delivery, floor: nat)
    requires Forgets(d, d1) && Spares(d1, d', floor)
    ensures Spares(d, d', floor)
  {
  }

  lemma ResetBelowSpares(d: Delivery, floor: nat, used: Backlog)
    requires Fits(d) && TxOk(d.streams, d.open, d.tx)
    ensures Spares(d, ResetBelow(d, floor, used), floor)
  {
    var d1 := if d.open.Some? && d.open.value.group < floor then ResetStream(d) else d;
    WipeBelowSpares(d1.streams, d1.tx, floor, used);
  }

  lemma {:induction false} WipeBelowSpares(streams: seq<Stream>, tx: seq<OpenStream>, floor: nat, used: Backlog)
    requires forall t :: t in tx ==> t.sid < |streams| && Filed(streams, t)
    ensures |WipeBelow(streams, tx, floor, used)| == |streams|
    ensures forall i :: 0 <= i < |streams| && streams[i].group >= floor ==>
              WipeBelow(streams, tx, floor, used)[i] == streams[i]
    decreases tx
  {
    if tx != [] {
      var gone := tx[0].group < floor && used(tx[0].sid) > 0;
      var next := if gone then Wipe(streams, tx[0].sid) else streams;
      assert Filed(streams, tx[0]);
      assert forall t :: t in tx[1..] ==> Filed(streams, t) && Filed(next, t);
      WipeBelowSpares(next, tx[1..], floor, used);
    }
  }

  lemma RaisedIs(l: Lane, l1: Lane, objs: seq<Object>, floor: nat, reset: Backlog)
    requires Fits(l1.d) && TxOk(l1.d.streams, l1.d.open, l1.d.tx) && !Below(floor, l.floor) && Forgets(l.d, l1.d)
    requires l1 == l.(q := l1.q, txBytes := l1.txBytes, d := l1.d)
    requires Objs(l1.q.items) == objs && Controls(l1.q.items) == Controls(l.q.items) && l1.q.cut == l.q.cut
    ensures Fits(Raise(l1, floor).d)
    ensures var r := Unpark(Raise(l1, floor), reset); ShedTo(l, r, objs, floor) && Spares(l.d, r.d, floor)
  {
    hide Raise, Unpark, Objs, Controls, TxOk;
    RaiseIs(l1, floor);
    UnparkIs(Raise(l1, floor), floor, reset);
  }

  lemma ShedIs(l: Lane, group: nat, e: Env)
    requires Fits(l.d) && Counted(l.q) && !Below(group, l.floor) && TxOk(l.d.streams, l.d.open, l.d.tx)
    ensures var kept := From(Objs(l.q.items), group);
            var fits := LiveBytes(kept) + TxQueued(l.d, Some(group), e.shed) <= l.max;
            var r, floor := Shed(l, group, e), if fits then group else group + 1;
            ShedTo(l, r, if fits then kept else From(kept, group + 1), floor) && Spares(l.d, r.d, floor)
  {
    hide Trim, TxQueued, CutTo, Raise, Unpark, From, Counted, TxOk, Spares, ShedTo, Controls, Objs;
    var l1 := CutTo(l, group, e.shed);
    var l2 := CutTo(l1, group + 1, e.shedAll);
    CutToIs(l, group, e.shed);
    TrimIs(l.q, group);
    CutToIs(l1, group + 1, e.shedAll);
    TrimIs(l1.q, group + 1);
    RaisedIs(l, l1, Objs(l1.q.items), group, e.reset);
    RaisedIs(l, l2, Objs(l2.q.items), group + 1, e.reset);
  }

  lemma EnqueueSheds(l: Lane, o: Object, e: Env)
    requires Fits(l.d) && o.live && l.q.bytes + o.cost + l.txBytes > l.max
    ensures Enqueue(l, o, e) == Shed(l.(q := Push(l.q, Obj(o))), o.group, e)
  {
    hide Push, Shed;
    PushIs(l.q, o);
  }

  lemma PushControls(items: seq<Item>, o: Object)
    ensures Controls(items + [Obj(o)]) == Controls(items)
  {
    if items != [] {
      assert (items + [Obj(o)])[1..] == items[1..] + [Obj(o)];
      PushControls(items[1..], o);
    }
  }

  /** What is queued of the offered group, when nothing of a later one is. */
  lemma PushedFrom(l: Lane, o: Object)
    requires Inv(l) && l.h.top <= o.group
    ensures var q, same := Push(l.q, Obj(o)), OfGroup(Objs(l.q.items), o.group) + [o];
            && From(Objs(q.items), o.group) == same && From(same, o.group + 1) == []
            && Counted(q) && Controls(q.items) == Controls(l.q.items)
  {
    hide From, OfGroup, LiveBytes, ReplayBytes, Charged, Controls;
    var objs := Objs(l.q.items);
    QueuedNamed(l);
    ObjsSnoc(l.q.items, Obj(o));
    PushControls(l.q.items, o);
    FromSnoc(objs, o, o.group);
    FromOfGroup(objs, o.group);
    OfGroupIn(objs, o.group);
    FromOfGroup(OfGroup(objs, o.group) + [o], o.group);
  }

  lemma {:induction false} OfGroupIn(s: seq<Object>, group: nat)
    ensures forall x :: x in OfGroup(s, group) ==> x.group == group
  {
    if s != [] { OfGroupIn(s[1..], group); }
  }

  lemma QueuedNamed(l: Lane)
    requires Inv(l)
    ensures Counted(l.q) && (l.q.items == [] ==> l.q.bytes == 0)
    ensures forall x :: x in Objs(l.q.items) ==> x.group <= l.h.top
  {
    hide Objs, LiveBytes, ReplayBytes, Charged, EndsAsked, Ascending, IsSub;
    NoObjs();
    var objs, turn := Objs(l.q.items), Turn(l.q, l.h);
    forall x | x in objs
      ensures x.group <= l.h.top
    {
      var i :| 0 <= i < |objs| && objs[i] == x;
      assert l.h.offered[turn..][i] == l.h.offered[turn + i];
    }
  }

  lemma OfferIsShed(l: Lane, o: Object, e: Env)
    requires Inv(l) && Tracked(l.d, _ => true) && !l.stopped && !l.final && !Below(o.group, l.floor)
    requires o.live && l.q.bytes + o.cost + Heard(l, o, e) > l.max
    ensures Fits(l.d) && Fits(Probed(l, o, e).d)
    ensures Offer(l, o, e) == Shed(Note(Probed(l, o, e), o).(q := Push(l.q, Obj(o))), o.group, e)
  {
    hide Inv, Tracked, Probed, Heard, HeardFrom, Inlines, Defers, Push, TxQueued, TxOk, Shed, Core, Objs, Counted;
    InvFits(l);
    QueuedNamed(l);
    ProbedIs(l, o, e);
    WritesIff(l, o, e);
    OfferIs(l, o, e);
    EnqueueSheds(Note(Probed(l, o, e), o), o, e);
  }

  /** A running lane with no room for a live object gives up older groups, and its
      group too only when what is queued of that, with the transport's backlog from
      there on, is over the bound by itself. */
  lemma OfferShedsLeast(l: Lane, o: Object, e: Env)
    requires Reachable(l) && !l.stopped && !l.final && MayOffer(l, o) && !Below(o.group, l.floor)
    requires o.live && l.q.bytes + o.cost + Heard(l, o, e) > l.max
    ensures Fits(l.d)
    ensures var same := OfGroup(Objs(l.q.items), o.group) + [o];
            var r, fits := Offer(l, o, e), LiveBytes(same) + HeardFrom(l, o, e) <= l.max;
            && ShedTo(l, r, if fits then same else [], if fits then o.group else o.group + 1)
            && Spares(l.d, r.d, r.floor.value)
  {
    hide Reachable, Inv, MayOffer, Tracked, Probed, Heard, HeardFrom, Push, TxQueued, TxOk, Shed, Offer, Core, From,
         OfGroup, Objs, Controls, Counted, Spares, ShedTo;
    ReachableTracked(l);
    InvFits(l);
    ProbedIs(l, o, e);
    OfferIsShed(l, o, e);
    PushIs(l.q, o);
    MayFollowTop(l, o);
    PushedFrom(l, o);
    var l2 := Note(Probed(l, o, e), o).(q := Push(l.q, Obj(o)));
    ShedIs(l2, o.group, e);
    ShedToSame(l, l2, Offer(l, o, e));
    SparesSame(l.d, l2.d, Offer(l, o, e).d, Offer(l, o, e).floor.value);
  }

  lemma ShedToSame(l: Lane, l2: Lane, r: Lane)
    requires l2.q.cut == l.q.cut && Controls(l2.q.items) == Controls(l.q.items)
    requires l2.h.handed == l.h.handed && l2.phase == l.phase
    ensures forall objs, floor: nat :: ShedTo(l2, r, objs, floor) ==>
              ShedTo(l, r, objs, floor) && r.floor == Some(floor)
  {
    hide Controls, Objs;
  }

  lemma MayFollowTop(l: Lane, o: Object)
    requires MayOffer(l, o)
    ensures l.h.top <= o.group
  {
  }

  // ---- how old the backlog gets ---------------------------------------------------------

  ghost predicate SameProbe(l: Lane, r: Lane) { r.probeGroup == l.probeGroup && r.probeN == l.probeN }

  lemma ShedProbe(l: Lane, group: nat, e: Env)
    requires Fits(l.d)
    ensures SameProbe(l, Shed(l, group, e))
  {
    hide Trim, ReadBacklog, PushCut, ResetBelow;
    ReadForgets(l.(q := Trim(l.q, group, false)), Some(group), e.shed);
    var l1 := CutTo(l, group, e.shed);
    ReadForgets(l1.(q := Trim(l1.q, group + 1, false)), Some(group + 1), e.shedAll);
    var l2 := CutTo(l1, group + 1, e.shedAll);
    hide CutTo;
    RaisedProbe(l1, group, e.reset);
    RaisedProbe(l2, group + 1, e.reset);
  }

  lemma RaisedProbe(l: Lane, floor: nat, reset: Backlog)
    requires Fits(l.d)
    ensures Fits(Raise(l, floor).d) && SameProbe(l, Unpark(Raise(l, floor), reset))
  {
    hide PushCut, ResetBelow;
  }

  lemma ThroughProbe(l: Lane, o: Object, inline: Inline)
    requires Fits(l.d) && l.d.open.Some?
    ensures SameProbe(l, WriteThrough(l, o, inline))
  {
    hide Failed, StreamStopped, Written;
    FailedProbe(Note(l, o).(h := Hand(Note(l, o).h, o, |l.h.offered|, l.passes(o.group, o.id))), o.group);
  }

  lemma FailedProbe(l: Lane, group: nat)
    requires Fits(l.d)
    ensures SameProbe(l, Failed(l, group))
  {
    hide Trim, ResetStream;
  }

  lemma OfferProbe(l: Lane, o: Object, e: Env)
    requires Fits(l.d) && !l.stopped && !l.final && !Below(o.group, l.floor) && o.live
    ensures var r := Offer(l, o, e); r.probeGroup == Some(o.group) && r.probeN == if Due(l, o) then 1 else l.probeN + 1
  {
    hide Shed, Push, WriteThrough, Defers, ReadBacklog;
    var l1 := Probe(l, o.group, e.probe);
    ReadForgets(l, l.floor, e.probe);
    ProbeFits(l, o.group, e.probe);
    hide Probe;
    if Inlines(l1, o) && !Defers(l1, o, e.inline) { ThroughProbe(l1, o, e.inline); }
    ShedProbe(Note(l1, o).(q := Push(l1.q, Obj(o))), o.group, e);
  }

  /** The lane after the first `k` of these offers. */
  ghost function Offered(l: Lane, os: seq<Object>, es: seq<Env>, k: nat): Option<Lane>
    requires k <= |os| == |es|
  {
    if k == 0 then Some(l)
    else
      var was := Offered(l, os, es, k - 1);
      if was.Some? && Fits(was.value.d) then Some(Offer(was.value, os[k - 1], es[k - 1])) else None
  }

  /** In a row of live objects of one group that the lane takes, the backlog is read
      with the first and then with every LANE_TX_PROBE-th. */
  lemma {:induction false} ReadsEveryEighth(l: Lane, os: seq<Object>, es: seq<Env>, k: nat)
    requires k < |os| == |es| && Due(l, os[0]) && !l.stopped && !l.final
    requires forall i :: 0 <= i < |os| ==> os[i].live && os[i].group == os[0].group
    requires forall i: nat :: i <= k ==>
               var m := Offered(l, os, es, i); m.Some? && Fits(m.value.d) && !Below(os[0].group, m.value.floor)
    ensures var m := Offered(l, os, es, k).value;
            && !m.stopped && !m.final && (Due(m, os[k]) <==> k % LANE_TX_PROBE == 0)
            && (k > 0 ==> m.probeGroup == Some(os[0].group) && m.probeN == (k - 1) % LANE_TX_PROBE + 1)
  {
    hide Offer, Below, Fits;
    if k > 0 {
      var was := Offered(l, os, es, k - 1).value;
      ReadsEveryEighth(l, os, es, k - 1);
      OfferProbe(was, os[k - 1], es[k - 1]);
      if k > 1 { EighthStep(k - 1, was.probeN); }
      EighthStep(k, (k - 1) % LANE_TX_PROBE + 1);
    }
  }

  lemma EighthStep(k: nat, n: nat)
    requires 0 < k && n == (k - 1) % LANE_TX_PROBE + 1
    ensures (n >= LANE_TX_PROBE <==> k % LANE_TX_PROBE == 0)
    ensures k % LANE_TX_PROBE + 1 == if k % LANE_TX_PROBE == 0 then 1 else n + 1
  {
  }
}
