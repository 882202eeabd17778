/** The send lane and its writer as the objects they are: each method makes of
    the fields what the functions of LaneSpec make of their value. */
module LaneObjects {
  import opened Basics
  import opened LaneSpec
  import opened LaneQueue
  import opened LaneProofs

  /** What send_nowait() says: written, skipped, to be queued, or an error. */
  datatype Nowait = Sent | Skipped | Wait | Raises

  lemma WatchStep(left: seq<OpenStream>, tx: seq<OpenStream>, floor: Option<nat>, used: Backlog)
    ensures tx == [] ==> TxHeld(tx, floor, used) == 0 && left + Undrained(tx, used) == left
    ensures tx != [] ==>
              var n := used(tx[0].sid);
              && TxHeld(tx, floor, used) == (if Below(tx[0].group, floor) then 0 else n) + TxHeld(tx[1..], floor, used)
              && left + Undrained(tx, used) == (if n == 0 then left else left + [tx[0]]) + Undrained(tx[1..], used)
  {
    if tx != [] { Regroup(left, if used(tx[0].sid) == 0 then [] else [tx[0]], Undrained(tx[1..], used)); }
  }

  lemma SweepStep(left: seq<OpenStream>, tx: seq<OpenStream>, floor: nat, streams: seq<Stream>, used: Backlog)
    requires forall t :: t in tx ==> t.sid < |streams|
    ensures tx == [] ==> left + AtOrAbove(tx, floor) == left && WipeBelow(streams, tx, floor, used) == streams
    ensures tx != [] ==>
              var gone := tx[0].group < floor && used(tx[0].sid) > 0;
              var rest := if gone then Wipe(streams, tx[0].sid) else streams;
              && left + AtOrAbove(tx, floor)
                 == (if tx[0].group < floor then left else left + [tx[0]]) + AtOrAbove(tx[1..], floor)
              && |rest| == |streams| && (forall t :: t in tx[1..] ==> t.sid < |rest|)
              && WipeBelow(streams, tx, floor, used) == WipeBelow(rest, tx[1..], floor, used)
  {
  }

  /** One session's copy of an object sequence, PER_GROUP. */
  class SubgroupDelivery {
    var open: Option<OpenStream>      // _stream_id and the group of _header
    var stoppedGroup: Option<nat>
    var epoch: nat
    var txStreams: seq<OpenStream>    // a dict, in its order
    var passes: Filter
    var last: Option<nat>             // _header's last object id
    var nextStream: nat               // the id the session opens next
    ghost var streams: seq<Stream>    // what the peer has seen

    ghost function View(): Delivery
      reads this
    {
      Delivery(open, stoppedGroup, epoch, txStreams, streams)
    }

    ghost predicate Valid()
      reads this
    {
      && Fits(View()) && nextStream == |streams|
      && (open.Some? ==> (last.None? <==> streams[open.value.sid].objs == []))
    }

    constructor (passes: Filter)
      ensures Valid() && View() == Delivery(None, None, 0, [], []) && this.passes == passes
    {
      open, stoppedGroup, epoch, txStreams := None, None, 0, [];
      this.passes, last, nextStream, streams := passes, None, 0, [];
    }

    method EndGroup(ghost to: nat)
      requires Valid()
      modifies this
      ensures View() == EndStream(old(View()), to) && Valid() && passes == old(passes)
    {
      if open.None? { return; }
      var sid := open.value.sid;
      if streams[sid].state.Open? {
        streams := streams[sid := streams[sid].(state := Fin, to := to)];
      }
      txStreams := txStreams + [open.value];
      open := None;
    }

    method ResetGroup()
      requires Valid()
      modifies this
      ensures View() == ResetStream(old(View())) && Valid() && passes == old(passes)
    {
      epoch := epoch + 1;
      if open.None? { return; }
      streams := Wipe(streams, open.value.sid);
      open := None;
    }

    /** END_OF_TRACK with no group open, at the first Location past `largest`. */
    method EndTrack(largest: Option<nat>, ghost to: nat)
      requires Valid()
      modifies this
      ensures Valid() && passes == old(passes)
      ensures var group := if largest.None? then 0 else largest.value + 1;
              View() == if old(open).Some? then EndStream(old(View()), to)
                        else if passes(group, 0) then TrackEnded(old(View()), group, to)
                        else old(View())
    {
      if open.Some? {
        EndGroup(to);
        return;
      }
      var group := if largest.None? then 0 else largest.value + 1;
      if !passes(group, 0) { return; }
      txStreams := txStreams + [OpenStream(nextStream, group)];
      nextStream := nextStream + 1;
      streams := streams + [Stream(group, to, to, [], Fin)];
    }

    /** MOQTStreamStopped from a call that waited. */
    method Stopped(group: nat)
      requires Valid()
      modifies this
      ensures View() == StreamStopped(old(View()), group) && Valid() && passes == old(passes)
    {
      stoppedGroup := Some(group);
      if open.Some? {
        streams := Wipe(streams, open.value.sid);
        open := None;
      }
    }

    method SendNowait(o: Object, inline: Inline) returns (r: Nowait)
      requires Valid()
      modifies this
      ensures Valid() && passes == old(passes)
      ensures var d := old(View());
              if d.open.None? || o.start
                 || (passes(o.group, o.id) && (inline.MustWait? || d.streams[d.open.value.sid].objs == []))
              then r.Wait? && View() == d
              else if !passes(o.group, o.id) then r.Skipped? && View() == d
              else match inline
                case Took => r.Sent? && View() == Written(d, o)
                case PeerStopped => r.Skipped? && View() == StreamStopped(d, o.group)
                case _ => r.Raises? && View() == d
    {
      if open.None? || o.start { return Wait; }
      if !passes(o.group, o.id) { return Skipped; }
      if last.None? { return Wait; }
      match inline
      case MustWait => r := Wait;
      case Raised => r := Raises;
      case PeerStopped =>
        Stopped(o.group);
        r := Skipped;
      case Took =>
        var sid := open.value.sid;
        last := Some(o.id);
        streams := streams[sid := streams[sid].(objs := streams[sid].objs + [o])];
        r := Sent;
    }

    /** write() up to its first await. */
    method Begin(o: Object, ghost at: nat) returns (phase: Phase)
      requires Valid()
      modifies this
      ensures Valid() && passes == old(passes)
      ensures var d, pass := old(View()), passes(o.group, o.id);
              var halted := d.stopped == Some(o.group) && !o.start;
              var rotates := o.start || (pass && !halted && d.open.None?);
              && View() == (if rotates then EndStream(d, at) else d)
              && phase == (if !pass || halted then Idle
                           else if rotates then Opening(o, d.epoch) else Body(o, d.epoch))
    {
      if !passes(o.group, o.id) {
        if o.start { EndGroup(at); }
        return Idle;
      }
      if stoppedGroup == Some(o.group) && !o.start { return Idle; }
      if o.start || open.None? {
        EndGroup(at);
        return Opening(o, epoch);
      }
      return Body(o, epoch);
    }

    /** write() from where it was suspended to its next await, the awaited
        call having succeeded. */
    method Continue(phase: Phase, ghost from: nat) returns (next: Phase)
      requires Valid() && !phase.Idle?
      modifies this
      ensures Valid() && passes == old(passes)
      ensures var d, o := old(View()), phase.o;
              var same := phase.epoch == d.epoch;
              if phase.Opening? then
                if same then View() == StreamOpened(d, o.group, from) && next == Header(o, d.epoch)
                else View() == OpenedLate(d, o.group, from) && next == Idle
              else if !same || d.open.None? then View() == d && next == Idle
              else if phase.Header? then View() == d && next == Body(o, d.epoch)
              else View() == Written(d, o) && next == Idle
    {
      var o := phase.o;
      if phase.Opening? {
        nextStream := nextStream + 1;
        if epoch != phase.epoch {
          streams := streams + [Stream(o.group, from, 0, [], Reset)];
          return Idle;
        }
        open := Some(OpenStream(nextStream - 1, o.group));
        last := None;
        streams := streams + [Stream(o.group, from, 0, [], Open)];
        return Header(o, epoch);
      }
      if epoch != phase.epoch || open.None? { return Idle; }
      if phase.Header? { return Body(o, epoch); }
      var sid := open.value.sid;
      last := Some(o.id);
      streams := streams[sid := streams[sid].(objs := streams[sid].objs + [o])];
      return Idle;
    }

    /** Past the delivery timeout: the group's stream is reset, another's ends. */
    method Expire(group: nat, ghost to: nat)
      requires Valid()
      modifies this
      ensures Valid() && passes == old(passes)
      ensures var d := old(View());
              View() == if d.open.Some? && d.open.value.group == group then ResetStream(d) else EndStream(d, to)
    {
      if open.Some? && open.value.group == group { ResetGroup(); } else { EndGroup(to); }
    }

    method TxQueued(floor: Option<nat>, used: Backlog) returns (total: nat)
      requires Valid()
      modifies this
      ensures Valid() && passes == old(passes) && total == LaneSpec.TxQueued(old(View()), floor, used)
      ensures View() == old(View()).(tx := Undrained(old(txStreams), used))
    {
      hide Undrained, TxHeld;
      total := 0;
      if open.Some? && !Below(open.value.group, floor) { total := used(open.value.sid); }
      ghost var first := total;
      var tx, left := txStreams, [];
      while tx != []
        invariant total + TxHeld(tx, floor, used) == first + TxHeld(txStreams, floor, used)
        invariant left + Undrained(tx, used) == Undrained(txStreams, used)
        decreases tx
        modifies {}
      {
        WatchStep(left, tx, floor, used);
        var n := used(tx[0].sid);
        if n > 0 {
          left := left + [tx[0]];
          if !Below(tx[0].group, floor) { total := total + n; }
        }
        tx := tx[1..];
      }
      WatchStep(left, tx, floor, used);
      txStreams := left;
    }

    /** The streams of `was` at or above `floor`; the others are reset. */
    method Sweep(was: seq<OpenStream>, floor: nat, used: Backlog, ghost streams: seq<Stream>)
      returns (left: seq<OpenStream>, ghost reset: seq<Stream>)
      requires forall t :: t in was ==> t.sid < |streams|
      ensures left == AtOrAbove(was, floor) && reset == WipeBelow(streams, was, floor, used)
    {
      hide AtOrAbove, WipeBelow;
      var tx := was;
      left, reset := [], streams;
      while tx != []
        invariant left + AtOrAbove(tx, floor) == AtOrAbove(was, floor)
        invariant |reset| == |streams| && forall t :: t in tx ==> t.sid < |reset|
        invariant WipeBelow(reset, tx, floor, used) == WipeBelow(streams, was, floor, used)
        decreases tx
      {
        SweepStep(left, tx, floor, reset, used);
        var t := tx[0];
        tx := tx[1..];
        if t.group >= floor {
          left := left + [t];
        } else if used(t.sid) > 0 {
          reset := Wipe(reset, t.sid);
        }
      }
      SweepStep(left, tx, floor, reset, used);
    }

    method ResetBelow(floor: nat, used: Backlog)
      requires Valid()
      modifies this
      ensures Valid() && passes == old(passes) && View() == LaneSpec.ResetBelow(old(View()), floor, used)
    {
      if open.Some? && open.value.group < floor { ResetGroup(); }
      WipeBelowWipes(streams, txStreams, floor, used);
      txStreams, streams := Sweep(txStreams, floor, used, streams);
    }
  }

  /** How the counts of what is queued exceed the counts of what is kept. */
  ghost predicate Excess(items: seq<Item>, floor: nat, resets: bool, live: int, replay: int, objects: int)
  {
    var was, now := Objs(items), Objs(Kept(items, floor, resets));
    && live == LiveBytes(was) - LiveBytes(now)
    && replay == ReplayBytes(was) - ReplayBytes(now)
    && objects == Charged(was) - Charged(now)
  }

  /** A dropped object takes its share of the excess with it. */
  lemma ExcessStep(x: Item, rest: seq<Item>, floor: nat, resets: bool, live: int, replay: int, objects: int)
    requires Excess([x] + rest, floor, resets, live, replay, objects)
    ensures Keeps(x, floor, resets) ==> Excess(rest, floor, resets, live, replay, objects)
    ensures !Keeps(x, floor, resets) && !x.Obj? ==> Excess(rest, floor, resets, live, replay, objects)
    ensures !Keeps(x, floor, resets) && x.Obj? ==>
              Excess(rest, floor, resets, live - Live(x.o), replay - Replay(x.o), objects - Charge(x.o))
  {
    hide Objs, Kept, LiveBytes, ReplayBytes, Charged;
    var kept := Kept(rest, floor, resets);
    KeptCons(x, rest, floor, resets);
    assert [] + kept == kept;
    ObjsCons(x, rest);
    ObjsCons(x, kept);
    CountCons(x, Objs(rest));
    CountCons(x, Objs(kept));
  }

  function Live(o: Object): nat { if o.live then o.cost else 0 }
  function Replay(o: Object): nat { if o.live then 0 else o.cost }
  function Charge(o: Object): nat { if o.cost > 0 then 1 else 0 }

  lemma CountCons(x: Item, s: seq<Object>)
    ensures !x.Obj? ==> One(x) + s == s
    ensures x.Obj? ==>
              && LiveBytes(One(x) + s) == Live(x.o) + LiveBytes(s)
              && ReplayBytes(One(x) + s) == Replay(x.o) + ReplayBytes(s)
              && Charged(One(x) + s) == Charge(x.o) + Charged(s)
  {
    assert x.Obj? ==> (One(x) + s)[1..] == s;
  }

  lemma TrimExcess(q: Queue, floor: nat, resets: bool)
    ensures var to := Trim(q, floor, resets);
            && Excess(q.items, floor, resets, q.bytes - to.bytes, q.replay - to.replay, q.objects - to.objects)
            && to.items == Kept(q.items, floor, resets) && to.cut == q.cut
  {
  }

  lemma ExcessNone(floor: nat, resets: bool, live: int, replay: int, objects: int)
    requires Excess([], floor, resets, live, replay, objects)
    ensures live == 0 && replay == 0 && objects == 0 && Kept([], floor, resets) == []
  {
  }

  lemma KeptCons(x: Item, rest: seq<Item>, floor: nat, resets: bool)
    ensures Kept([x] + rest, floor, resets) == (if Keeps(x, floor, resets) then [x] else []) + Kept(rest, floor, resets)
  {
    assert ([x] + rest)[1..] == rest;
  }

  lemma KeptStart(items: seq<Item>, floor: nat, resets: bool)
    ensures [] + Kept(items, floor, resets) == Kept(items, floor, resets)
  {
  }

  lemma KeptStep(kept: seq<Item>, x: Item, rest: seq<Item>, floor: nat, resets: bool)
    ensures kept + Kept([x] + rest, floor, resets)
            == (if Keeps(x, floor, resets) then kept + [x] else kept) + Kept(rest, floor, resets)
  {
    hide Kept, Keeps;
    KeptCons(x, rest, floor, resets);
    Regroup(kept, if Keeps(x, floor, resets) then [x] else [], Kept(rest, floor, resets));
  }

  lemma KeptDone(kept: seq<Item>, floor: nat, resets: bool)
    ensures kept + Kept([], floor, resets) == kept
  {
  }

  lemma PushCounts(q: Queue, o: Object)
    ensures Push(q, Obj(o)) == Queue(q.items + [Obj(o)], q.bytes + Live(o), q.replay + Replay(o),
                                     q.objects + Charge(o), q.cut)
  {
    ObjsSnoc(q.items, Obj(o));
    BytesConcat(Objs(q.items), [o]);
    CountCons(Obj(o), []);
    assert [o] + [] == [o];
  }

  lemma PopCounts(q: Queue)
    requires q.items != []
    ensures var x := q.items[0];
            Pop(q) == if x.Obj?
                      then Queue(q.items[1..], q.bytes - Live(x.o), q.replay - Replay(x.o),
                                 q.objects - Charge(x.o), q.cut)
                      else q.(items := q.items[1..])
  {
    ObjsHead(q.items);
    CountCons(q.items[0], Objs(q.items[1..]));
  }

  lemma ObjectsCounted(l: Lane)
    requires Inv(l)
    ensures l.q.objects == Charged(Objs(l.q.items))
  {
  }

  /** One peer's objects behind its own FIFO and writer task. `phase` is where
      the task is suspended in write(): `busy` unless Idle. */
  class SendLane {
    const writer: SubgroupDelivery
    const maxBytes: nat
    const through: bool
    var items: seq<Item>
    var bytes: int
    var replayBytes: int
    var txBytes: nat
    var probeGroup: Option<nat>
    var probeN: nat
    var objects: int
    var floor: Option<nat>
    var lost: Option<nat>
    var gate: bool
    var final: bool
    var stopped: bool
    var ended: bool
    var cut: bool
    var closing: bool
    var phase: Phase
    ghost var h: History

    ghost function Q(): Queue
      reads this
    {
      Queue(items, bytes, replayBytes, objects, cut)
    }

    ghost function View(): Lane
      reads this, writer
    {
      Lane(maxBytes, through, writer.passes, Q(), txBytes, probeGroup, probeN, floor, lost, gate, final, stopped,
           ended, closing, phase, writer.View(), h)
    }

    ghost predicate Valid()
      reads this, writer
    {
      writer.Valid() && Inv(View())
    }

    constructor (writer: SubgroupDelivery, maxBytes: nat, through: bool, floor: Option<nat>, gate: bool)
      requires writer.Valid() && writer.View() == Delivery(None, None, 0, [], [])
      ensures Valid() && this.writer == writer && View() == Init(maxBytes, through, writer.passes, floor, gate)
    {
      hide Inv;
      this.writer, this.maxBytes, this.through, this.floor, this.gate := writer, maxBytes, through, floor, gate;
      items, bytes, replayBytes, txBytes, objects, probeGroup, probeN, lost := [], 0, 0, 0, 0, None, 0, None;
      final, stopped, ended, cut, closing, phase := false, false, false, false, false, Idle;
      h := History([], map[], [], 0, {}, {});
      new;
      InitInv(maxBytes, through, writer.passes, floor, gate);
    }

    method Uncount(o: Object)
      modifies this`objects, this`bytes, this`replayBytes
      ensures objects == old(objects) - Charge(o)
      ensures bytes == old(bytes) - Live(o) && replayBytes == old(replayBytes) - Replay(o)
    {
      if o.cost > 0 {
        objects := objects - 1;
        if o.live { bytes := bytes - o.cost; } else { replayBytes := replayBytes - o.cost; }
      }
    }

    /** The items of groups from `floor` on, and the markers. */
    method Keep(floor: nat, resets: bool)
      modifies this`items, this`objects, this`bytes, this`replayBytes
      ensures Q() == Trim(old(Q()), floor, resets)
    {
      hide Kept, Keeps, Trim, Excess, Live, Replay, Charge;
      var left, kept := items, [];
      ghost var q, to := Q(), Trim(Q(), floor, resets);
      TrimExcess(q, floor, resets);
      KeptStart(left, floor, resets);
      while left != []
        invariant kept + Kept(left, floor, resets) == to.items
        invariant items == q.items && cut == q.cut
        invariant Excess(left, floor, resets, bytes - to.bytes, replayBytes - to.replay, objects - to.objects)
        decreases left
      {
        var x, rest := left[0], left[1..];
        assert left == [x] + rest;
        KeptStep(kept, x, rest, floor, resets);
        ExcessStep(x, rest, floor, resets, bytes - to.bytes, replayBytes - to.replay, objects - to.objects);
        if Keeps(x, floor, resets) { kept := kept + [x]; } else if x.Obj? { Uncount(x.o); }
        left := rest;
      }
      ExcessNone(floor, resets, bytes - to.bytes, replayBytes - to.replay, objects - to.objects);
      KeptDone(kept, floor, resets);
      items := kept;
    }

    /** Send nothing more of groups up to `group`. */
    method Skip(group: nat)
      modifies this`floor, this`items, this`objects, this`bytes, this`replayBytes
      ensures View() == LaneSpec.Skip(old(View()), group)
    {
      hide Trim, SubgroupDelivery.View, LaneSpec.Onward;
      if floor.None? || group + 1 > floor.value {
        floor := Some(group + 1);
        Keep(group + 1, false);
      }
    }

    method Put(x: Item)
      modifies this`items, this`h
      ensures items == old(items) + [x] && h == Ending(old(h), x)
    {
      items, h := items + [x], Ending(h, x);
    }

    method EndGroup()
      requires Valid()
      modifies this
      ensures Valid() && View() == LaneSpec.Put(old(View()), Item.EndGroup)
    {
      hide Inv, Core, StreamsFit, WriterOk, QueueOk;
      PutKeepsInv(View(), Item.EndGroup);
      if !stopped && !final { Put(Item.EndGroup); }
    }

    method EndTrack(largest: Option<nat>)
      requires Valid()
      modifies this
      ensures Valid() && View() == LaneSpec.Put(old(View()), Item.EndTrack(largest))
    {
      hide Inv, Core, StreamsFit, WriterOk, QueueOk;
      PutKeepsInv(View(), Item.EndTrack(largest));
      if !stopped && !final { Put(Item.EndTrack(largest)); }
    }

    method ResetGroup(group: Option<nat>)
      requires Valid()
      modifies this
      ensures Valid() && View() == LaneSpec.Put(old(View()), Item.ResetGroup(group))
    {
      hide Inv, Core, StreamsFit, WriterOk, QueueOk;
      PutKeepsInv(View(), Item.ResetGroup(group));
      if !stopped && !final { Put(Item.ResetGroup(group)); }
    }

    method CloseStreams()
      requires Valid()
      modifies this
      ensures Valid() && View() == LaneSpec.Put(old(View()), Item.Close)
    {
      hide Inv, Core, StreamsFit, WriterOk, QueueOk;
      PutKeepsInv(View(), Item.Close);
      if !closing && !final && !stopped {
        closing := true;
        Put(Item.Close);
      }
    }

    method Finish()
      requires Valid()
      modifies this
      ensures Valid() && View() == LaneSpec.Put(old(View()), Item.Final)
    {
      hide Inv, Core, StreamsFit, WriterOk, QueueOk;
      PutKeepsInv(View(), Item.Final);
      if !final && !stopped {
        final := true;
        Put(Item.Final);
      }
    }

    /** Forward State back to 1 with the source in `group`. */
    method Resume(group: nat, rejoin: bool)
      requires Valid()
      modifies this, writer
      ensures Valid() && View() == LaneSpec.Resume(old(View()), group, rejoin)
    {
      hide Inv, Core, StreamsFit, WriterOk, Trim;
      ResumeKeeps(View(), group, rejoin);
      if stopped || final { return; }
      Keep(group + 1, true);
      writer.ResetGroup();
      if !rejoin || lost == Some(group) {
        Skip(group);
      } else if floor == Some(group + 1) {
        floor := Some(group);
      }
    }

    /** Something is queued or in flight, and the lane runs. */
    method Busy() returns (busy: bool)
      requires Valid()
      ensures busy <==> !stopped && (Charged(Objs(items)) > 0 || !phase.Idle?)
    {
      hide Inv, Objs, Charged;
      ObjectsCounted(View());
      busy := !stopped && (objects > 0 || !phase.Idle?);
    }

    /** Nothing more is queued or sent. */
    method Halt()
      modifies this
      ensures View() == LaneSpec.Stop(old(View()))
    {
      hide SubgroupDelivery.View;
      if !stopped {
        stopped := true;
        items, bytes, replayBytes, objects, txBytes := [], 0, 0, 0, 0;
        ended, phase := true, Idle;
      }
    }

    /** End now; true if an object was dropped or its send abandoned. */
    method Stop() returns (dropped: bool)
      requires Valid()
      modifies this
      ensures Valid() && View() == LaneSpec.Stop(old(View()))
      ensures dropped <==> !old(stopped) && (Charged(Objs(old(items))) > 0 || !old(phase).Idle?)
    {
      hide Inv, LaneSpec.Stop, Objs, Charged;
      StopKeeps(View());
      dropped := Busy();
      Halt();
    }

    /** A send raised; the lane goes on at the next group. */
    method Failed(group: nat)
      requires writer.Valid()
      modifies this, writer
      ensures writer.Valid() && View() == LaneSpec.Failed(old(View()), group)
    {
      writer.ResetGroup();
      Skip(group);
      lost := Some(group);
    }

    /** The queue trimmed below `to`, and the backlog from there on read again. */
    method CutTo(to: nat, used: Backlog)
      requires writer.Valid()
      modifies this, writer
      ensures writer.Valid() && View() == LaneSpec.CutTo(old(View()), to, used)
    {
      hide Trim;
      Keep(to, false);
      txBytes := writer.TxQueued(Some(to), used);
    }

    /** The floor rises, and a CUT goes to the queue's head. */
    method Raise(to: nat)
      modifies this
      ensures View() == LaneSpec.Raise(old(View()), to)
    {
      hide Max;
      var raised := if floor.None? then to else Max(floor.value, to);
      floor, lost := Some(raised), if raised == 0 then None else Some(raised - 1);
      if !cut {
        cut := true;
        items := [Cut] + items;
      }
    }

    /** A parked open or header write waits on backlog that only resets free. */
    method Unpark(reset: Backlog)
      requires writer.Valid()
      modifies writer
      ensures writer.Valid() && View() == LaneSpec.Unpark(old(View()), reset)
    {
      if floor.Some? && (phase.Opening? || phase.Header?) { writer.ResetBelow(floor.value, reset); }
    }

    method Shed(group: nat, e: Env)
      requires writer.Valid()
      modifies this, writer
      ensures writer.Valid() && View() == LaneSpec.Shed(old(View()), group, e)
    {
      hide LaneSpec.CutTo, LaneSpec.Raise, LaneSpec.Unpark;
      var to := group;
      CutTo(to, e.shed);
      if bytes + txBytes > maxBytes {
        to := group + 1;
        CutTo(to, e.shedAll);
      }
      Raise(to);
      Unpark(e.reset);
    }

    method Probe(group: nat, used: Backlog)
      requires writer.Valid()
      modifies this, writer
      ensures writer.Valid() && View() == LaneSpec.Probe(old(View()), group, used)
    {
      hide SubgroupDelivery.Valid;
      if probeGroup != Some(group) || probeN >= LANE_TX_PROBE {
        probeGroup, probeN := Some(group), 0;
        txBytes := writer.TxQueued(floor, used);
      }
      probeN := probeN + 1;
    }

    method Enqueue(o: Object, e: Env)
      requires writer.Valid()
      modifies this, writer
      ensures writer.Valid() && View() == LaneSpec.Enqueue(old(View()), o, e)
    {
      hide Objs, LaneSpec.Shed, SubgroupDelivery.Valid;
      PushCounts(Q(), o);
      if o.cost > 0 {
        objects := objects + 1;
        if o.live { bytes := bytes + o.cost; } else { replayBytes := replayBytes + o.cost; }
      }
      items := items + [Obj(o)];
      if o.live && bytes + txBytes > maxBytes { Shed(o.group, e); }
    }

    /** send_nowait() for an object with nothing queued before it; false when
        it has to be queued. */
    method WriteThrough(o: Object, inline: Inline) returns (done: bool)
      requires writer.Valid() && through && writer.open.Some? && !o.start
      modifies this, writer
      ensures writer.Valid() && done == !Defers(old(View()), o, inline)
      ensures View() == if done then LaneSpec.WriteThrough(old(View()), o, inline) else old(View())
    {
      hide LaneSpec.Skip;
      ghost var pass := writer.passes(o.group, o.id);
      ghost var h' := Hand(LaneSpec.Note(View(), o).h, o, |h.offered|, pass);
      var r := writer.SendNowait(o, inline);
      done := !r.Wait?;
      if done { h := h'; }
      if r.Raises? { Failed(o.group); }
    }

    /** The source hands the lane an object. */
    method Offer(o: Object, e: Env)
      requires Valid() && (stopped || final || MayOffer(View(), o))
      modifies this, writer
      ensures Valid() && View() == LaneSpec.Offer(old(View()), o, e)
    {
      hide Inv, Core, StreamsFit, WriterOk, MayOffer, LaneSpec.Probe, LaneSpec.Enqueue, LaneSpec.WriteThrough,
           Onward;
      OfferKeeps(View(), o, e);
      if stopped || final { return; }
      if Below(o.group, floor) {
        h := LaneSpec.Note(View(), o).h;
        return;
      }
      if o.live { Probe(o.group, e.probe); }
      var done := false;
      if through && items == [] && phase.Idle? && gate && txBytes + o.cost <= maxBytes
         && writer.open.Some? && !o.start
      {
        done := WriteThrough(o, e.inline);
      }
      if !done {
        h := LaneSpec.Note(View(), o).h;
        Enqueue(o, e);
      }
    }

    /** The item is out of the queue and of its counts. */
    method PopHead() returns (x: Item)
      requires items != []
      modifies this`items, this`bytes, this`replayBytes, this`objects
      ensures x == old(items)[0] && Q() == Pop(old(Q()))
    {
      PopCounts(Q());
      x := items[0];
      items := items[1..];
      if x.Obj? { Uncount(x.o); }
    }

    /** END_OF_TRACK, unless the peer's Forward State is 0. */
    method SendEndTrack(largest: Option<nat>, ghost at: nat)
      requires writer.Valid()
      modifies this`h, writer
      ensures writer.Valid() && View() == EndTrackStep(old(View()), largest, at)
    {
      if !gate { return; }
      ghost var group := if largest.None? then 0 else largest.value + 1;
      if writer.open.None? && writer.passes(group, 0) { h := h.(top := Max(h.top, group)); }
      writer.EndTrack(largest, at);
    }

    method Reset(upTo: Option<nat>)
      requires writer.Valid()
      modifies this, writer
      ensures writer.Valid()
      ensures View() == LaneSpec.Control(old(View()), Item.ResetGroup(upTo), _ => 0, 0)
    {
      hide LaneSpec.Skip, ResetStream;
      writer.ResetGroup();
      if upTo.Some? { Skip(upTo.value); }
    }

    method CutStreams(used: Backlog)
      requires writer.Valid()
      modifies this`cut, writer
      ensures writer.Valid()
      ensures View() == LaneSpec.Control(old(View()), Cut, used, 0)
    {
      hide LaneSpec.ResetBelow;
      cut := false;
      if floor.Some? { writer.ResetBelow(floor.value, used); }
    }

    /** A control item just off the queue; `at` is the writer's place in the
        offers. */
    method Control(x: Item, used: Backlog, ghost at: nat)
      requires writer.Valid() && !x.Obj?
      modifies this, writer
      ensures writer.Valid()
      ensures View() == LaneSpec.Control(old(View()), x, used, at)
    {
      hide LaneSpec.ResetBelow, LaneSpec.Skip, EndStream, ResetStream, EndTrackStep, SubgroupDelivery.Valid,
           SubgroupDelivery.View;
      if x.Cut? {
        CutStreams(used);
      } else if x.EndGroup? {
        writer.EndGroup(at);
      } else if x.EndTrack? {
        SendEndTrack(x.largest, at);
      } else if x.ResetGroup? {
        Reset(x.upTo);
      } else if x.Close? {
        closing := false;
        writer.EndGroup(at);
      } else {
        ended := true;
      }
    }

    method Expire(o: Object, ghost at: nat)
      requires writer.Valid()
      modifies this, writer
      ensures writer.Valid() && View() == LaneSpec.Expire(old(View()), o, at)
    {
      hide LaneSpec.Skip, EndStream, ResetStream;
      writer.Expire(o.group, at);
      Skip(o.group);
      lost := Some(o.group);
    }

    /** An object just off the queue, whose place in the offers was `at`. */
    method Send(o: Object, expired: bool, ghost at: nat)
      requires writer.Valid() && phase.Idle?
      modifies this, writer
      ensures writer.Valid() && View() == SendOff(old(View()), o, expired, at)
    {
      hide LaneSpec.Skip, EndStream, ResetStream, LaneSpec.Expire;
      if !gate {
        writer.ResetGroup();
        Skip(o.group);
      } else if expired {
        Expire(o, at);
      } else {
        h := Hand(h, o, at, writer.passes(o.group, o.id));
        phase := writer.Begin(o, at);
      }
    }

    /** One turn of the writer task, up to its first await. */
    method Turn(expired: bool, used: Backlog)
      requires Valid() && CanTake(View())
      modifies this, writer
      ensures Valid() && View() == Take(old(View()), expired, used)
    {
      hide Inv, Core, StreamsFit, WriterOk, QueueOk, Pop, SendOff, LaneSpec.Control;
      TakeKeeps(View(), expired, used);
      ghost var at := LaneSpec.Turn(Q(), h);
      var x := PopHead();
      if x.Obj? { Send(x.o, expired, at); } else { Control(x, used, at); }
    }

    /** The awaited transport call raised. */
    method Broken(out: Outcome)
      requires writer.Valid() && !phase.Idle? && !out.Done? && 0 <= LaneSpec.Turn(Q(), h) - 1
      modifies this, writer
      ensures writer.Valid() && View() == LaneSpec.Wake(old(View()), out)
    {
      hide LaneSpec.Turn, LaneSpec.Failed, StreamStopped;
      var o, same := phase.o, writer.epoch == phase.epoch;
      phase := Idle;
      if out.Stopped? {
        if same { writer.Stopped(o.group); }
      } else if out.Error? {
        Failed(o.group);
      } else {
        ended := true;
      }
    }

    /** The transport call the writer awaited comes back. */
    method Wake(out: Outcome)
      requires Valid() && !phase.Idle?
      modifies this, writer
      ensures Valid() && 0 <= old(LaneSpec.Turn(Q(), h)) - 1
      ensures View() == LaneSpec.Wake(old(View()), out)
    {
      hide Inv, Core, StreamsFit, WriterOk, QueueOk, LaneSpec.Turn, LaneSpec.Failed, StreamStopped, StreamOpened,
           Written, SubgroupDelivery.View;
      WakeKeeps(View(), out);
      ghost var from := LaneSpec.Turn(Q(), h) - 1;
      if out.Done? { phase := writer.Continue(phase, from); } else { Broken(out); }
    }
  }
}
