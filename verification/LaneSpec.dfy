/** The send lane and its writer as values: what every step of `SendLane`
    and of the `SubgroupDelivery` behind it makes of their state. */
module LaneSpec {
  import opened Basics

  /** An object item: `start` is group_start, `cost` its retained bytes,
      `live` false for a replay. */
  datatype Object = Object(group: nat, id: nat, start: bool, live: bool, cost: nat, payload: seq<int>)

  datatype Item =
    | Obj(o: Object)
    | Cut
    | EndGroup
    | EndTrack(largest: Option<nat>)   // group of the Largest Location
    | ResetGroup(upTo: Option<nat>)
    | Close
    | Final

  /** The lane's deque, its counts, and whether a CUT waits at the head. */
  datatype Queue = Queue(items: seq<Item>, bytes: int, replay: int, objects: int, cut: bool)

  datatype StreamState = Open | Fin | Reset

  /** One stream as the peer sees it: `from` is the position, among the
      objects offered to the lane, of the object it opened for; `to` is set by
      the FIN to the position of the first object still behind it. */
  datatype Stream = Stream(group: nat, from: nat, to: nat, objs: seq<Object>, state: StreamState)

  datatype OpenStream = OpenStream(sid: nat, group: nat)

  /** The writer: stream ids index `streams`; `tx` lists the FINed streams the
      transport may still hold bytes of. */
  datatype Delivery = Delivery(
    open: Option<OpenStream>,
    stopped: Option<nat>,
    epoch: nat,
    tx: seq<OpenStream>,
    streams: seq<Stream>)

  /** What the lane has been through: objects offered, the filter's verdict on
      each offered position at its turn, objects given to the writer, the greatest
      group named so far, and the places among the offers where the source asked
      for the open group to end (END_GROUP, CLOSE) or for the track to. */
  datatype History = History(offered: seq<Object>, judged: map<nat, bool>, handed: seq<Object>, top: nat,
                             ends: set<nat>, trackEnds: set<nat>)

  /** What the writer task is suspended on, with the epoch its write began in. */
  datatype Phase =
    | Idle
    | Opening(o: Object, epoch: nat)
    | Header(o: Object, epoch: nat)
    | Body(o: Object, epoch: nat)

  type Filter = (nat, nat) -> bool
  type Backlog = nat -> nat   // bytes the transport holds, by stream id

  datatype Lane = Lane(
    max: nat,
    through: bool,           // the writer has send_nowait
    passes: Filter,
    q: Queue,
    txBytes: nat,
    probeGroup: Option<nat>,
    probeN: nat,
    floor: Option<nat>,
    lost: Option<nat>,
    gate: bool,
    final: bool,
    stopped: bool,
    ended: bool,             // the writer task is over
    closing: bool,
    phase: Phase,
    d: Delivery,
    h: History)

  const LANE_TX_PROBE := 8

  function Init(max: nat, through: bool, passes: Filter, floor: Option<nat>, gate: bool): Lane
  {
    Lane(max, through, passes, Queue([], 0, 0, 0, false), 0, None, 0, floor, None, gate, false, false, false, false,
         Idle, Delivery(None, None, 0, [], []), History([], map[], [], 0, {}, {}))
  }

  // ---- queue ---------------------------------------------------------

  function One(x: Item): seq<Object> { if x.Obj? then [x.o] else [] }

  function Objs(items: seq<Item>): seq<Object>
  {
    if items == [] then [] else One(items[0]) + Objs(items[1..])
  }

  function LiveBytes(objs: seq<Object>): nat
  {
    if objs == [] then 0 else (if objs[0].live then objs[0].cost else 0) + LiveBytes(objs[1..])
  }

  function ReplayBytes(objs: seq<Object>): nat
  {
    if objs == [] then 0 else (if objs[0].live then 0 else objs[0].cost) + ReplayBytes(objs[1..])
  }

  /** Items that carry a cost; stream markers do not. */
  function Charged(objs: seq<Object>): nat
  {
    if objs == [] then 0 else (if objs[0].cost > 0 then 1 else 0) + Charged(objs[1..])
  }

  predicate Below(group: nat, floor: Option<nat>) { floor.Some? && group < floor.value }

  predicate Keeps(x: Item, floor: nat, resets: bool)
  {
    match x
    case Obj(o) => o.group >= floor
    case ResetGroup(upTo) => !resets || (if upTo.None? then 0 else upTo.value) >= floor
    case _ => true
  }

  /** The queue without the objects below `floor`, and with `resets` without
      the resets aimed below it. */
  function Kept(items: seq<Item>, floor: nat, resets: bool): seq<Item>
  {
    if items == [] then []
    else (if Keeps(items[0], floor, resets) then [items[0]] else []) + Kept(items[1..], floor, resets)
  }

  function Recount(q: Queue, items: seq<Item>): Queue
  {
    var was, now := Objs(q.items), Objs(items);
    Queue(items,
          q.bytes - LiveBytes(was) + LiveBytes(now),
          q.replay - ReplayBytes(was) + ReplayBytes(now),
          q.objects - Charged(was) + Charged(now),
          q.cut)
  }

  function Trim(q: Queue, floor: nat, resets: bool): Queue { Recount(q, Kept(q.items, floor, resets)) }

  /** The writer task takes the head. */
  function Pop(q: Queue): Queue
    requires q.items != []
  {
    Recount(q, q.items[1..])
  }

  function Push(q: Queue, x: Item): Queue { Recount(q, q.items + [x]) }

  function PushCut(q: Queue): Queue { if q.cut then q else q.(cut := true, items := [Cut] + q.items) }

  /** Position of the first offered object not yet taken off the queue. */
  function Turn(q: Queue, h: History): int { |h.offered| - |Objs(q.items)| }

  // ---- writer --------------------------------------------------------

  predicate Fits(d: Delivery)
  {
    && (d.open.Some? ==> d.open.value.sid < |d.streams|)
    && forall t :: t in d.tx ==> t.sid < |d.streams|
  }

  function Wipe(streams: seq<Stream>, sid: nat): seq<Stream>
    requires sid < |streams|
  {
    streams[sid := streams[sid].(state := Reset)]
  }

  /** FIN the open stream; `to` is the position of the first object behind it. */
  function EndStream(d: Delivery, to: nat): Delivery
    requires Fits(d)
  {
    if d.open.None? then d
    else
      var s := d.open.value;
      var st := d.streams[s.sid];
      d.(open := None, tx := d.tx + [s],
         streams := d.streams[s.sid := if st.state.Open? then st.(state := Fin, to := to) else st])
  }

  function ResetStream(d: Delivery): Delivery
    requires Fits(d)
  {
    if d.open.None? then d.(epoch := d.epoch + 1)
    else d.(open := None, epoch := d.epoch + 1, streams := Wipe(d.streams, d.open.value.sid))
  }

  /** The stopped stream is the session's to reset; its group is not reopened. */
  function StreamStopped(d: Delivery, group: nat): Delivery
    requires Fits(d)
  {
    if d.open.None? then d.(stopped := Some(group))
    else d.(stopped := Some(group), open := None, streams := Wipe(d.streams, d.open.value.sid))
  }

  function Written(d: Delivery, o: Object): Delivery
    requires Fits(d) && d.open.Some?
  {
    var sid := d.open.value.sid;
    d.(streams := d.streams[sid := d.streams[sid].(objs := d.streams[sid].objs + [o])])
  }

  /** A stream opened for the object at position `from`. */
  function StreamOpened(d: Delivery, group: nat, from: nat): Delivery
  {
    d.(open := Some(OpenStream(|d.streams|, group)), streams := d.streams + [Stream(group, from, 0, [], Open)])
  }

  /** One that opened after all for a write already given up: reset at once. */
  function OpenedLate(d: Delivery, group: nat, from: nat): Delivery
  {
    d.(streams := d.streams + [Stream(group, from, 0, [], Reset)])
  }

  /** The stream of an END_OF_TRACK with no group open: no object precedes it. */
  function TrackEnded(d: Delivery, group: nat, at: nat): Delivery
  {
    d.(tx := d.tx + [OpenStream(|d.streams|, group)], streams := d.streams + [Stream(group, at, at, [], Fin)])
  }

  /** Bytes still held on FINed streams of groups from `floor` on. */
  function TxHeld(tx: seq<OpenStream>, floor: Option<nat>, used: Backlog): nat
  {
    if tx == [] then 0
    else (if Below(tx[0].group, floor) then 0 else used(tx[0].sid)) + TxHeld(tx[1..], floor, used)
  }

  function TxQueued(d: Delivery, floor: Option<nat>, used: Backlog): nat
  {
    (if d.open.Some? && !Below(d.open.value.group, floor) then used(d.open.value.sid) else 0)
    + TxHeld(d.tx, floor, used)
  }

  /** The FINed streams the transport has not drained. */
  function Undrained(tx: seq<OpenStream>, used: Backlog): (r: seq<OpenStream>)
    ensures forall t :: t in r ==> t in tx
  {
    if tx == [] then []
    else (if used(tx[0].sid) == 0 then [] else [tx[0]]) + Undrained(tx[1..], used)
  }

  function AtOrAbove(tx: seq<OpenStream>, floor: nat): (r: seq<OpenStream>)
    ensures forall t :: t in r ==> t in tx
  {
    if tx == [] then []
    else (if tx[0].group < floor then [] else [tx[0]]) + AtOrAbove(tx[1..], floor)
  }

  function WipeBelow(streams: seq<Stream>, tx: seq<OpenStream>, floor: nat, used: Backlog): (r: seq<Stream>)
    requires forall t :: t in tx ==> t.sid < |streams|
    ensures |r| == |streams|
    decreases tx
  {
    if tx == [] then streams
    else
      var gone := tx[0].group < floor && used(tx[0].sid) > 0;
      WipeBelow(if gone then Wipe(streams, tx[0].sid) else streams, tx[1..], floor, used)
  }

  function ResetBelow(d: Delivery, floor: nat, used: Backlog): Delivery
    requires Fits(d)
  {
    var d := if d.open.Some? && d.open.value.group < floor then ResetStream(d) else d;
    d.(tx := AtOrAbove(d.tx, floor), streams := WipeBelow(d.streams, d.tx, floor, used))
  }

  // ---- lane steps ----------------------------------------------------

  ghost predicate SameHistory(l: Lane, r: Lane) { r.h == l.h && r.passes == l.passes }

  ghost predicate SameFlags(l: Lane, r: Lane) { r.stopped == l.stopped && r.final == l.final }

  ghost predicate Onward(l: Lane, r: Lane) { SameHistory(l, r) && SameFlags(l, r) }

  function ResetOpen(l: Lane): (r: Lane)
    requires Fits(l.d)
    ensures Onward(l, r)
  {
    l.(d := ResetStream(l.d))
  }

  function EndOpen(l: Lane, at: nat): (r: Lane)
    requires Fits(l.d)
    ensures Onward(l, r)
  {
    l.(d := EndStream(l.d, at))
  }

  /** Send nothing more of groups up to `group`. */
  function Skip(l: Lane, group: nat): (r: Lane)
    ensures Onward(l, r)
  {
    if l.floor.None? || group + 1 > l.floor.value
    then l.(q := Trim(l.q, group + 1, false), floor := Some(group + 1))
    else l
  }

  function Failed(l: Lane, group: nat): (r: Lane)
    requires Fits(l.d)
    ensures Onward(l, r)
  {
    Skip(ResetOpen(l), group).(lost := Some(group))
  }

  function ReadBacklog(l: Lane, floor: Option<nat>, used: Backlog): (r: Lane)
    ensures Onward(l, r)
  {
    l.(txBytes := TxQueued(l.d, floor, used), d := l.d.(tx := Undrained(l.d.tx, used)))
  }

  function Probe(l: Lane, group: nat, used: Backlog): (r: Lane)
    ensures Onward(l, r)
  {
    if l.probeGroup != Some(group) || l.probeN >= LANE_TX_PROBE
    then ReadBacklog(l, l.floor, used).(probeGroup := Some(group), probeN := 1)
    else l.(probeN := l.probeN + 1)
  }

  /** What the transport makes of an inline write. */
  datatype Inline = Took | MustWait | PeerStopped | Raised

  datatype Env = Env(inline: Inline, probe: Backlog, shed: Backlog, shedAll: Backlog, reset: Backlog)

  /** The writer may be handed `o` inline. */
  predicate Inlines(l: Lane, o: Object)
    requires Fits(l.d)
  {
    && l.through && l.q.items == [] && l.phase.Idle? && l.gate
    && l.txBytes + o.cost <= l.max
    && l.d.open.Some? && !o.start
  }

  /** send_nowait() leaves the object to the queue: the transport is full, or
      nothing is on the stream yet. */
  predicate Defers(l: Lane, o: Object, inline: Inline)
    requires Fits(l.d) && l.d.open.Some?
  {
    l.passes(o.group, o.id) && (inline.MustWait? || l.d.streams[l.d.open.value.sid].objs == [])
  }

  /** The floor rises, and a CUT goes to the queue's head. */
  function Raise(l: Lane, floor: nat): (r: Lane)
    ensures Onward(l, r)
  {
    var f := if l.floor.None? then floor else Max(l.floor.value, floor);
    l.(floor := Some(f), lost := if f == 0 then None else Some(f - 1), q := PushCut(l.q))
  }

  /** A parked open or header write waits on backlog that only resets free. */
  function Unpark(l: Lane, used: Backlog): (r: Lane)
    requires Fits(l.d)
    ensures Onward(l, r)
  {
    if l.floor.Some? && (l.phase.Opening? || l.phase.Header?)
    then l.(d := ResetBelow(l.d, l.floor.value, used))
    else l
  }

  /** The queue trimmed below `floor`, and the backlog from there on read again. */
  function CutTo(l: Lane, floor: nat, used: Backlog): (r: Lane)
    requires Fits(l.d)
    ensures Onward(l, r) && Fits(r.d)
  {
    ReadBacklog(l.(q := Trim(l.q, floor, false)), Some(floor), used)
  }

  /** Drop the groups queued before `group`, and `group` too if it alone is over
      the bound; a CUT goes to the head, to reset the streams of what is gone. */
  function Shed(l: Lane, group: nat, e: Env): (r: Lane)
    requires Fits(l.d)
    ensures Onward(l, r)
  {
    var l1 := CutTo(l, group, e.shed);
    if l1.q.bytes + l1.txBytes <= l1.max then Unpark(Raise(l1, group), e.reset)
    else Unpark(Raise(CutTo(l1, group + 1, e.shedAll), group + 1), e.reset)
  }

  function Enqueue(l: Lane, o: Object, e: Env): (r: Lane)
    requires Fits(l.d)
    ensures Onward(l, r)
  {
    var l1 := l.(q := Push(l.q, Obj(o)));
    if o.live && l1.q.bytes + l1.txBytes > l1.max then Shed(l1, o.group, e) else l1
  }

  function Note(l: Lane, o: Object): Lane
  {
    l.(h := l.h.(offered := l.h.offered + [o], top := Max(l.h.top, o.group)))
  }

  /** The object at position `at` goes to the writer, judged by the filter. */
  function Hand(h: History, o: Object, at: nat, pass: bool): History
  {
    h.(handed := h.handed + [o], judged := h.judged[at := pass])
  }

  /** send_nowait() took the object: skipped by the filter, written, or its
      stream is lost. */
  function WriteThrough(l: Lane, o: Object, inline: Inline): (r: Lane)
    requires Fits(l.d) && l.d.open.Some?
    ensures r.h == Hand(Note(l, o).h, o, |l.h.offered|, l.passes(o.group, o.id)) && r.passes == l.passes
    ensures SameFlags(l, r)
  {
    var pass := l.passes(o.group, o.id);
    var l1 := Note(l, o).(h := Hand(Note(l, o).h, o, |l.h.offered|, pass));
    if !pass then l1
    else match inline
      case Took => l1.(d := Written(l.d, o))
      case PeerStopped => l1.(d := StreamStopped(l.d, o.group))
      case _ => Failed(l1, o.group)
  }

  /** The source hands the lane an object. */
  function Offer(l: Lane, o: Object, e: Env): (r: Lane)
    requires Fits(l.d)
    ensures r.passes == l.passes && SameFlags(l, r)
    ensures (l.stopped || l.final) ==> r.h == l.h
    ensures !(l.stopped || l.final) ==>
              r.h == Note(l, o).h
              || r.h == Hand(Note(l, o).h, o, |l.h.offered|, l.passes(o.group, o.id))
  {
    if l.stopped || l.final then l
    else if Below(o.group, l.floor) then Note(l, o)
    else
      var l1 := if o.live then Probe(l, o.group, e.probe) else l;
      if Inlines(l1, o) && !Defers(l1, o, e.inline)
      then WriteThrough(l1, o, e.inline)
      else Enqueue(Note(l1, o), o, e)
  }

  /** The item asks for what is open to end, after all that is offered so far. */
  function Ending(h: History, x: Item): History
  {
    h.(ends := if x.EndGroup? || x.Close? then h.ends + {|h.offered|} else h.ends,
       trackEnds := if x.EndTrack? then h.trackEnds + {|h.offered|} else h.trackEnds)
  }

  /** Any control item, but no second CLOSE, from the source. */
  function Put(l: Lane, x: Item): (r: Lane)
    requires !x.Obj? && !x.Cut?
    ensures r.h == (if l.stopped || l.final || (x.Close? && l.closing) then l.h else Ending(l.h, x))
    ensures r.passes == l.passes
  {
    if l.stopped || l.final || (x.Close? && l.closing) then l
    else l.(q := l.q.(items := l.q.items + [x]), h := Ending(l.h, x),
            final := x.Final?, closing := l.closing || x.Close?)
  }

  /** Forward State back to 1 with the source in `group`. */
  function Resume(l: Lane, group: nat, rejoin: bool): (r: Lane)
    requires Fits(l.d)
    ensures Onward(l, r)
  {
    if l.stopped || l.final then l
    else
      var l1 := ResetOpen(l).(q := Trim(l.q, group + 1, true));
      if !rejoin || l1.lost == Some(group) then Skip(l1, group)
      else if l1.floor == Some(group + 1) then l1.(floor := Some(group))
      else l1
  }

  function Emptied(q: Queue): Queue { Queue([], 0, 0, 0, q.cut) }

  function Stop(l: Lane): (r: Lane)
    ensures SameHistory(l, r)
  {
    if l.stopped then l
    else l.(stopped := true, ended := true, phase := Idle, q := Emptied(l.q), txBytes := 0)
  }

  predicate CanTake(l: Lane)
  {
    !l.stopped && !l.ended && l.phase.Idle? && l.q.items != [] && 0 <= Turn(l.q, l.h)
  }

  /** write() up to its first await, for an object just off the queue whose
      place in the offers is `at`. */
  function BeginWrite(l: Lane, o: Object, at: nat): (r: Lane)
    requires Fits(l.d)
    ensures SameFlags(l, r)
    ensures r.h == Hand(l.h, o, at, l.passes(o.group, o.id)) && r.passes == l.passes
  {
    var pass := l.passes(o.group, o.id);
    var halted := l.d.stopped == Some(o.group) && !o.start;
    var rotates := o.start || (pass && !halted && l.d.open.None?);
    l.(h := Hand(l.h, o, at, pass), d := if rotates then EndStream(l.d, at) else l.d,
       phase := if !pass || halted then l.phase
                else if rotates then Opening(o, l.d.epoch) else Body(o, l.d.epoch))
  }

  /** Past its delivery timeout: the group is not resumed. */
  function Expire(l: Lane, o: Object, at: nat): (r: Lane)
    requires Fits(l.d)
    ensures Onward(l, r)
  {
    var reset := l.d.open.Some? && l.d.open.value.group == o.group;
    Skip(l.(d := if reset then ResetStream(l.d) else EndStream(l.d, at)), o.group).(lost := Some(o.group))
  }

  /** An object just off the queue; at Forward State 0 its group is given up. */
  function SendOff(l: Lane, o: Object, expired: bool, at: nat): (r: Lane)
    requires Fits(l.d)
    ensures SameFlags(l, r)
    ensures r.h == (if l.gate && !expired then Hand(l.h, o, at, l.passes(o.group, o.id)) else l.h)
    ensures r.passes == l.passes
  {
    if !l.gate then Skip(ResetOpen(l), o.group)
    else if expired then Expire(l, o, at)
    else BeginWrite(l, o, at)
  }

  function EndTrackStep(l: Lane, largest: Option<nat>, at: nat): (r: Lane)
    requires Fits(l.d)
    ensures SameFlags(l, r)
    ensures r.h == l.h.(top := r.h.top) && r.passes == l.passes
  {
    if !l.gate then l
    else if l.d.open.Some? then EndOpen(l, at)
    else
      var group := if largest.None? then 0 else largest.value + 1;
      if !l.passes(group, 0) then l
      else l.(h := l.h.(top := Max(l.h.top, group)), d := TrackEnded(l.d, group, at))
  }

  /** A control item just off the queue. */
  function Control(l: Lane, x: Item, used: Backlog, at: nat): (r: Lane)
    requires Fits(l.d) && !x.Obj?
    ensures SameFlags(l, r)
    ensures r.h == l.h.(top := r.h.top) && r.passes == l.passes
  {
    match x
    case Cut =>
      l.(d := if l.floor.None? then l.d else ResetBelow(l.d, l.floor.value, used), q := l.q.(cut := false))
    case EndGroup => EndOpen(l, at)
    case EndTrack(largest) => EndTrackStep(l, largest, at)
    case ResetGroup(upTo) => if upTo.None? then ResetOpen(l) else Skip(ResetOpen(l), upTo.value)
    case Close => EndOpen(l, at).(closing := false)
    case Final => l.(ended := true)
  }

  /** One turn of the writer loop, up to its first await. */
  function Take(l: Lane, expired: bool, used: Backlog): (r: Lane)
    requires Fits(l.d) && CanTake(l)
    ensures SameFlags(l, r)
    ensures var x := l.q.items[0];
            if x.Obj? && l.gate && !expired
            then r.h == Hand(l.h, x.o, Turn(l.q, l.h), l.passes(x.o.group, x.o.id)) && r.passes == l.passes
            else r.h == l.h.(top := r.h.top) && r.passes == l.passes
  {
    var x, at, l1 := l.q.items[0], Turn(l.q, l.h), l.(q := Pop(l.q));
    if x.Obj? then SendOff(l1, x.o, expired, at) else Control(l1, x, used, at)
  }

  /** The write goes on to its next await, unless its stream is gone. */
  function GoOn(l: Lane): (r: Lane)
    requires Fits(l.d) && !l.phase.Idle? && 0 <= Turn(l.q, l.h) - 1
    ensures Onward(l, r)
    ensures r.lost == l.lost && r.floor == l.floor && r.d.stopped == l.d.stopped
  {
    var o := l.phase.o;
    var same := l.phase.epoch == l.d.epoch;
    var from := Turn(l.q, l.h) - 1;
    if l.phase.Opening? then
      if same then l.(phase := Header(o, l.d.epoch), d := StreamOpened(l.d, o.group, from))
      else l.(phase := Idle, d := OpenedLate(l.d, o.group, from))
    else if !same || l.d.open.None? then l.(phase := Idle)
    else if l.phase.Header? then l.(phase := Body(o, l.d.epoch))
    else l.(phase := Idle, d := Written(l.d, o))
  }

  /** How an awaited transport call of write() comes back. */
  datatype Outcome = Done | Stopped | Error | Cancelled

  function Wake(l: Lane, out: Outcome): (r: Lane)
    requires Fits(l.d) && !l.phase.Idle? && 0 <= Turn(l.q, l.h) - 1
    ensures Onward(l, r)
  {
    var o := l.phase.o;
    match out
    case Stopped => l.(phase := Idle, d := if l.phase.epoch == l.d.epoch then StreamStopped(l.d, o.group) else l.d)
    case Error => Failed(l.(phase := Idle), o.group)
    case Cancelled => l.(phase := Idle, ended := true)
    case Done => GoOn(l)
  }

  /** The peer stops a stream; the session resets it. */
  function PeerStops(l: Lane, sid: nat): (r: Lane)
    ensures Onward(l, r)
  {
    if sid < |l.d.streams| then l.(d := l.d.(streams := Wipe(l.d.streams, sid))) else l
  }
}
