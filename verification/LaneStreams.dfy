/** How a lane's streams end: one that is not whole is reset. */
module LaneStreams {
  import opened Basics
  import opened LaneSpec
  import opened LaneQueue
  import opened LaneProofs
  import opened LaneRuns

  /** No stream is open but the one the writer holds. */
  ghost predicate OnlyOpen(streams: seq<Stream>, open: Option<OpenStream>)
  {
    forall i :: 0 <= i < |streams| && streams[i].state.Open? ==> open.Some? && open.value.sid == i
  }

  ghost predicate Filed(streams: seq<Stream>, t: OpenStream)
  {
    t.sid < |streams| && streams[t.sid].group == t.group
  }

  ghost predicate Once(tx: seq<OpenStream>) { forall j, k :: 0 <= j < k < |tx| ==> tx[j].sid != tx[k].sid }

  /** The streams watched are ones that ended, each watched once under its group. */
  ghost predicate TxOk(streams: seq<Stream>, open: Option<OpenStream>, tx: seq<OpenStream>)
  {
    && Once(tx)
    && (forall t :: t in tx ==> Filed(streams, t) && (open.Some? ==> open.value.sid != t.sid))
    && (open.Some? ==> Filed(streams, open.value))
  }

  ghost predicate Watched(tx: seq<OpenStream>, sid: nat) { exists t :: t in tx && t.sid == sid }

  /** A stream that ended in FIN is watched, unless the transport was found to
      have drained it: `gone`. */
  ghost predicate FinsWatched(streams: seq<Stream>, tx: seq<OpenStream>, gone: nat -> bool)
  {
    forall i :: 0 <= i < |streams| && streams[i].state.Fin? ==> Watched(tx, i) || gone(i)
  }

  ghost predicate Tracked(d: Delivery, gone: nat -> bool)
  {
    OnlyOpen(d.streams, d.open) && TxOk(d.streams, d.open, d.tx) && FinsWatched(d.streams, d.tx, gone)
  }

  /** Every stream `used` reads as drained is in `gone`. */
  ghost predicate Marks(used: Backlog, gone: nat -> bool) { forall i: nat :: used(i) == 0 ==> gone(i) }

  ghost predicate AllMark(e: Env, gone: nat -> bool)
  {
    Marks(e.probe, gone) && Marks(e.shed, gone) && Marks(e.shedAll, gone) && Marks(e.reset, gone)
  }

  /** Every reading of the transport in this event is in `gone`. */
  ghost predicate Reads(ev: Event, gone: nat -> bool)
  {
    && (ev.Offers? ==> AllMark(ev.e, gone))
    && (ev.Takes? ==> Marks(ev.used, gone))
  }

  // ---- the writer's calls ------------------------------------------------------

  lemma EndClosed(d: Delivery, to: nat, gone: nat -> bool)
    requires Fits(d) && Tracked(d, gone)
    ensures Tracked(EndStream(d, to), gone)
  {
  }

  lemma ResetClosed(d: Delivery, gone: nat -> bool)
    requires Fits(d) && Tracked(d, gone)
    ensures Tracked(ResetStream(d), gone)
  {
  }

  lemma StopClosed(d: Delivery, group: nat, gone: nat -> bool)
    requires Fits(d) && Tracked(d, gone)
    ensures Tracked(StreamStopped(d, group), gone)
  {
  }

  lemma WrittenClosed(d: Delivery, o: Object, gone: nat -> bool)
    requires Fits(d) && d.open.Some? && Tracked(d, gone)
    ensures Tracked(Written(d, o), gone)
  {
  }

  lemma OpenedClosed(d: Delivery, group: nat, from: nat, gone: nat -> bool)
    requires d.open.None? && Tracked(d, gone)
    ensures Tracked(StreamOpened(d, group, from), gone)
  {
  }

  lemma WipedClosed(was: seq<Stream>, now: seq<Stream>, open: Option<OpenStream>, tx: seq<OpenStream>,
                    gone: nat -> bool)
    requires Tracked(Delivery(open, None, 0, tx, was), gone) && Wiped(was, now)
    ensures Tracked(Delivery(open, None, 0, tx, now), gone)
  {
  }

  /** Resetting what is below the floor and has bytes left. */
  lemma ResetBelowClosed(d: Delivery, floor: nat, used: Backlog, gone: nat -> bool)
    requires Fits(d) && Tracked(d, gone) && Marks(used, gone)
    ensures Tracked(ResetBelow(d, floor, used), gone)
  {
    hide TxOk, FinsWatched, OnlyOpen, Wiped, ResetStream;
    ResetClosed(d, gone);
    var d1 := if d.open.Some? && d.open.value.group < floor then ResetStream(d) else d;
    ResetFits(d);
    var streams, tx := WipeBelow(d1.streams, d1.tx, floor, used), AtOrAbove(d1.tx, floor);
    WipeBelowWipes(d1.streams, d1.tx, floor, used);
    WipedClosed(d1.streams, streams, d1.open, d1.tx, gone);
    TxOnce(d1);
    AboveOnce(d1.tx, floor);
    FewerTxOk(streams, d1.open, d1.tx, tx);
    WipedBelow(d1.streams, d1.tx, floor, used);
    FewerWatched(streams, d1.tx, tx, gone);
  }

  lemma TxOnce(d: Delivery)
    requires TxOk(d.streams, d.open, d.tx)
    ensures Once(d.tx)
  {
  }

  /** Fewer are watched. */
  lemma FewerTxOk(streams: seq<Stream>, open: Option<OpenStream>, tx: seq<OpenStream>, tx': seq<OpenStream>)
    requires TxOk(streams, open, tx) && Once(tx') && forall t :: t in tx' ==> t in tx
    ensures TxOk(streams, open, tx')
  {
  }

  lemma FewerWatched(streams: seq<Stream>, tx: seq<OpenStream>, tx': seq<OpenStream>, gone: nat -> bool)
    requires FinsWatched(streams, tx, gone) && forall t :: t in tx ==> t.sid < |streams|
    requires forall t :: t in tx ==> t in tx' || gone(t.sid) || streams[t.sid].state.Reset?
    ensures FinsWatched(streams, tx', gone)
  {
    forall i | 0 <= i < |streams| && streams[i].state.Fin?
      ensures Watched(tx', i) || gone(i)
    {
      if Watched(tx, i) {
        var t :| t in tx && t.sid == i;
        assert t in tx' || gone(i);
      }
    }
  }

  lemma {:induction false} WipedBelow(streams: seq<Stream>, tx: seq<OpenStream>, floor: nat, used: Backlog)
    requires forall t :: t in tx ==> t.sid < |streams|
    ensures forall t :: t in tx ==>
              t in AtOrAbove(tx, floor) || used(t.sid) == 0 || WipeBelow(streams, tx, floor, used)[t.sid].state.Reset?
    decreases tx
  {
    if tx != [] {
      var gone := tx[0].group < floor && used(tx[0].sid) > 0;
      var next := if gone then Wipe(streams, tx[0].sid) else streams;
      WipedBelow(next, tx[1..], floor, used);
      WipeBelowWipes(next, tx[1..], floor, used);
    }
  }

  lemma {:induction false} AboveOnce(tx: seq<OpenStream>, floor: nat)
    requires Once(tx)
    ensures Once(AtOrAbove(tx, floor))
  {
    if tx != [] {
      AboveOnce(tx[1..], floor);
      OnceMore(tx, AtOrAbove(tx[1..], floor));
    }
  }

  lemma {:induction false} UndrainedOnce(tx: seq<OpenStream>, used: Backlog)
    requires Once(tx)
    ensures Once(Undrained(tx, used)) && forall t :: t in tx ==> t in Undrained(tx, used) || used(t.sid) == 0
  {
    if tx != [] {
      UndrainedOnce(tx[1..], used);
      OnceMore(tx, Undrained(tx[1..], used));
    }
  }

  lemma OnceMore(tx: seq<OpenStream>, rest: seq<OpenStream>)
    requires Once(tx) && tx != [] && Once(rest) && forall t :: t in rest ==> t in tx[1..]
    ensures Once([tx[0]] + rest)
  {
    forall k | 0 <= k < |rest|
      ensures rest[k].sid != tx[0].sid
    {
      assert rest[k] in tx[1..];
      var i :| 0 <= i < |tx[1..]| && tx[1..][i] == rest[k];
      assert tx[i + 1] == rest[k];
    }
  }

  lemma ResetFits(d: Delivery)
    requires Fits(d)
    ensures Fits(ResetStream(d))
  {
  }

  // ---- the lane's events ------------------------------------------------------------

  lemma SkipClosed(l: Lane, group: nat)
    ensures Skip(l, group).d == l.d
  {
    hide Trim;
  }

  lemma FailedClosed(l: Lane, group: nat, gone: nat -> bool)
    requires Fits(l.d) && Tracked(l.d, gone)
    ensures Tracked(Failed(l, group).d, gone)
  {
    hide Tracked, Skip, ResetStream;
    ResetClosed(l.d, gone);
    SkipClosed(ResetOpen(l), group);
  }

  lemma RaiseClosed(l: Lane, floor: nat)
    ensures Raise(l, floor).d == l.d
  {
    hide PushCut;
  }

  lemma UnparkClosed(l: Lane, used: Backlog, gone: nat -> bool)
    requires Fits(l.d) && Tracked(l.d, gone) && Marks(used, gone)
    ensures Tracked(Unpark(l, used).d, gone)
  {
    hide Tracked, Marks, ResetBelow;
    if l.floor.Some? { ResetBelowClosed(l.d, l.floor.value, used, gone); }
  }

  /** The backlog read again leaves the streams as they are, and forgets only what is drained. */
  lemma ReadClosed(l: Lane, floor: Option<nat>, used: Backlog, gone: nat -> bool)
    requires Fits(l.d) && Tracked(l.d, gone) && Marks(used, gone)
    ensures var r := ReadBacklog(l, floor, used);
            Fits(r.d) && r.d.open == l.d.open && r.d.streams == l.d.streams && Tracked(r.d, gone)
  {
    hide TxQueued, TxOk, FinsWatched, OnlyOpen;
    TxOnce(l.d);
    UndrainedOnce(l.d.tx, used);
    FewerTxOk(l.d.streams, l.d.open, l.d.tx, Undrained(l.d.tx, used));
    FewerWatched(l.d.streams, l.d.tx, Undrained(l.d.tx, used), gone);
  }

  lemma ShedClosed(l: Lane, group: nat, e: Env, gone: nat -> bool)
    requires Fits(l.d) && Tracked(l.d, gone) && Marks(e.shed, gone) && Marks(e.shedAll, gone) && Marks(e.reset, gone)
    ensures Tracked(Shed(l, group, e).d, gone)
  {
    hide Tracked, Marks, ReadBacklog, Raise, Unpark, Trim;
    var l0 := l.(q := Trim(l.q, group, false));
    ReadClosed(l0, Some(group), e.shed, gone);
    var l1 := CutTo(l, group, e.shed);
    ReadClosed(l1.(q := Trim(l1.q, group + 1, false)), Some(group + 1), e.shedAll, gone);
    var l2 := CutTo(l1, group + 1, e.shedAll);
    RaiseClosed(l1, group);
    RaiseClosed(l2, group + 1);
    UnparkClosed(Raise(l1, group), e.reset, gone);
    UnparkClosed(Raise(l2, group + 1), e.reset, gone);
  }

  lemma ProbeClosed(l: Lane, group: nat, used: Backlog, gone: nat -> bool)
    requires Fits(l.d) && Tracked(l.d, gone) && Marks(used, gone)
    ensures Tracked(Probe(l, group, used).d, gone)
  {
    hide Tracked, Marks, ReadBacklog;
    ReadClosed(l, l.floor, used, gone);
  }

  lemma EnqueueClosed(l: Lane, o: Object, e: Env, gone: nat -> bool)
    requires Fits(l.d) && Tracked(l.d, gone) && AllMark(e, gone)
    ensures Tracked(Enqueue(l, o, e).d, gone)
  {
    hide Tracked, Push, Shed;
    ShedClosed(l.(q := Push(l.q, Obj(o))), o.group, e, gone);
  }

  lemma ThroughClosed(l: Lane, o: Object, inline: Inline, gone: nat -> bool)
    requires Fits(l.d) && l.d.open.Some? && Tracked(l.d, gone)
    ensures Tracked(WriteThrough(l, o, inline).d, gone)
  {
    hide Tracked, Failed, StreamStopped, Written;
    var pass := l.passes(o.group, o.id);
    WrittenClosed(l.d, o, gone);
    StopClosed(l.d, o.group, gone);
    FailedClosed(Note(l, o).(h := Hand(Note(l, o).h, o, |l.h.offered|, pass)), o.group, gone);
  }

  lemma OfferClosed(l: Lane, o: Object, e: Env, gone: nat -> bool)
    requires Fits(l.d) && Tracked(l.d, gone) && AllMark(e, gone)
    ensures Tracked(Offer(l, o, e).d, gone)
  {
    hide Tracked, Probe, Enqueue, WriteThrough, Defers;
    if !l.stopped && !l.final && !Below(o.group, l.floor) {
      var l1 := if o.live then Probe(l, o.group, e.probe) else l;
      ProbeClosed(l, o.group, e.probe, gone);
      ProbeFits(l, o.group, e.probe);
      if Inlines(l1, o) && !Defers(l1, o, e.inline) {
        ThroughClosed(l1, o, e.inline, gone);
      } else {
        EnqueueClosed(Note(l1, o), o, e, gone);
      }
    }
  }

  lemma ProbeFits(l: Lane, group: nat, used: Backlog)
    requires Fits(l.d)
    ensures Fits(Probe(l, group, used).d)
  {
    hide ReadBacklog;
    ReadForgets(l, l.floor, used);
  }

  lemma ResumeClosed(l: Lane, group: nat, rejoin: bool, gone: nat -> bool)
    requires Fits(l.d) && Tracked(l.d, gone)
    ensures Tracked(Resume(l, group, rejoin).d, gone)
  {
    hide Tracked, Skip, Trim, ResetStream;
    ResetClosed(l.d, gone);
    SkipClosed(ResetOpen(l).(q := Trim(l.q, group + 1, true)), group);
  }

  lemma EndTrackClosed(l: Lane, largest: Option<nat>, at: nat, gone: nat -> bool)
    requires Fits(l.d) && Tracked(l.d, gone)
    ensures Tracked(EndTrackStep(l, largest, at).d, gone)
  {
    hide EndStream, TrackEnded, Tracked;
    EndClosed(l.d, at, gone);
    if l.d.open.None? { TrackEndedClosed(l.d, if largest.None? then 0 else largest.value + 1, at, gone); }
  }

  lemma TrackEndedClosed(d: Delivery, group: nat, at: nat, gone: nat -> bool)
    requires Fits(d) && d.open.None? && Tracked(d, gone)
    ensures Tracked(TrackEnded(d, group, at), gone)
  {
    var d', t := TrackEnded(d, group, at), OpenStream(|d.streams|, group);
    assert forall x :: x in d'.tx <==> x in d.tx || x == t;
    forall i | 0 <= i < |d'.streams| && d'.streams[i].state.Fin?
      ensures Watched(d'.tx, i) || gone(i)
    {
      if i == |d.streams| {
        assert t in d'.tx;
      } else if Watched(d.tx, i) {
        var x :| x in d.tx && x.sid == i;
        assert x in d'.tx;
      }
    }
  }

  lemma ControlClosed(l: Lane, x: Item, used: Backlog, at: nat, gone: nat -> bool)
    requires Fits(l.d) && Tracked(l.d, gone) && Marks(used, gone) && !x.Obj?
    ensures Tracked(Control(l, x, used, at).d, gone)
  {
    hide Tracked, Marks, Skip, EndStream, ResetStream, ResetBelow, EndTrackStep;
    EndClosed(l.d, at, gone);
    ResetClosed(l.d, gone);
    if x.Cut? {
      if l.floor.Some? { ResetBelowClosed(l.d, l.floor.value, used, gone); }
    } else if x.EndTrack? {
      EndTrackClosed(l, x.largest, at, gone);
    } else if x.ResetGroup? {
      if x.upTo.Some? { SkipClosed(ResetOpen(l), x.upTo.value); }
    }
  }

  lemma SendOffClosed(l: Lane, o: Object, expired: bool, at: nat, gone: nat -> bool)
    requires Fits(l.d) && Tracked(l.d, gone)
    ensures Tracked(SendOff(l, o, expired, at).d, gone)
  {
    hide Tracked, Skip, EndStream, ResetStream, Hand;
    EndClosed(l.d, at, gone);
    ResetClosed(l.d, gone);
    SkipClosed(ResetOpen(l), o.group);
    var reset := l.d.open.Some? && l.d.open.value.group == o.group;
    SkipClosed(l.(d := if reset then ResetStream(l.d) else EndStream(l.d, at)), o.group);
  }

  lemma TakeClosed(l: Lane, expired: bool, used: Backlog, gone: nat -> bool)
    requires Fits(l.d) && CanTake(l) && Tracked(l.d, gone) && Marks(used, gone)
    ensures Tracked(Take(l, expired, used).d, gone)
  {
    hide Tracked, Marks, SendOff, Control, Pop, Turn;
    var x, l1 := l.q.items[0], l.(q := Pop(l.q));
    if x.Obj? {
      SendOffClosed(l1, x.o, expired, Turn(l.q, l.h), gone);
    } else {
      ControlClosed(l1, x, used, Turn(l.q, l.h), gone);
    }
  }

  lemma WakeClosed(l: Lane, out: Outcome, gone: nat -> bool)
    requires Inv(l) && Fits(l.d) && !l.phase.Idle? && 0 <= Turn(l.q, l.h) - 1 && Tracked(l.d, gone)
    ensures Tracked(Wake(l, out).d, gone)
  {
    hide Inv, Tracked, Failed, StreamStopped, GoOn, Turn;
    StopClosed(l.d, l.phase.o.group, gone);
    FailedClosed(l.(phase := Idle), l.phase.o.group, gone);
    GoOnClosed(l, gone);
  }

  lemma GoOnClosed(l: Lane, gone: nat -> bool)
    requires Inv(l) && Fits(l.d) && !l.phase.Idle? && 0 <= Turn(l.q, l.h) - 1 && Tracked(l.d, gone)
    ensures Tracked(GoOn(l).d, gone)
  {
    hide Inv, Tracked, StreamOpened, OpenedLate, Written, Turn;
    OpeningFree(l);
    if l.d.open.Some? {
      WrittenClosed(l.d, l.phase.o, gone);
    } else {
      OpenedClosed(l.d, l.phase.o.group, Turn(l.q, l.h) - 1, gone);
    }
    LateClosed(l.d, l.phase.o.group, Turn(l.q, l.h) - 1, gone);
  }

  /** A write waiting to open a stream holds none. */
  lemma OpeningFree(l: Lane)
    requires Inv(l) && !l.phase.Idle?
    ensures l.phase.Opening? && l.phase.epoch == l.d.epoch ==> l.d.open.None?
  {
    hide Core;
    InFlight(l);
  }

  lemma LateClosed(d: Delivery, group: nat, from: nat, gone: nat -> bool)
    requires Tracked(d, gone)
    ensures Tracked(OpenedLate(d, group, from), gone)
  {
  }

  lemma PeerStopsClosed(l: Lane, sid: nat, gone: nat -> bool)
    requires Tracked(l.d, gone)
    ensures Tracked(PeerStops(l, sid).d, gone)
  {
  }

  lemma StepClosed(l: Lane, ev: Event, gone: nat -> bool)
    requires Inv(l) && Fits(l.d) && Enabled(l, ev) && Tracked(l.d, gone) && Reads(ev, gone)
    ensures Tracked(Step(l, ev).d, gone)
  {
    hide Inv, Tracked, Offer, Put, Resume, Take, Wake, CanTake, Turn, ResetStream, Stop, PeerStops, MayOffer;
    match ev
    case Offers(o, e) => OfferClosed(l, o, e, gone);
    case Resumes(group, rejoin) => ResumeClosed(l, group, rejoin, gone);
    case Takes(expired, used) => TakeClosed(l, expired, used, gone);
    case Wakes(out) => WakeClosed(l, out, gone);
    case Cancels => ResetClosed(l.d, gone);
    case StopsStream(sid) => PeerStopsClosed(l, sid, gone);
    case Puts(x) => PutStops(l, x);
    case Stops => PutStops(l, EndGroup);
    case _ =>
  }

  lemma PutStops(l: Lane, x: Item)
    requires !x.Obj? && !x.Cut?
    ensures Put(l, x).d == l.d && Stop(l).d == l.d
  {
  }

  lemma {:induction false} RunClosed(l: Lane, run: seq<Event>, l': Lane, gone: nat -> bool)
    requires Inv(l) && Tracked(l.d, gone) && Reaches(l, run, l')
    requires forall ev :: ev in run ==> Reads(ev, gone)
    ensures Tracked(l'.d, gone)
    decreases run
  {
    hide Inv, Tracked, Step, Enabled;
    if run != [] {
      StepKeeps(l, run[0]);
      StepClosed(l, run[0], gone);
      RunClosed(Step(l, run[0]), run[1..], l', gone);
    }
  }

  // ---- the results ------------------------------------------------------------------------

  /** What is not whole is reset: every stream but the one the writer holds has
      ended, in a FIN, and then it is whole, or in a RESET. */
  lemma OthersAreReset(l: Lane, sid: nat)
    requires Reachable(l) && sid < |l.d.streams| && !l.d.streams[sid].state.Fin?
    ensures l.d.streams[sid].state.Reset? || (l.d.open.Some? && l.d.open.value.sid == sid)
  {
    hide Reaches;
    var max, through, passes, floor, gate, run :| Reaches(Init(max, through, passes, floor, gate), run, l);
    InitInv(max, through, passes, floor, gate);
    RunClosed(Init(max, through, passes, floor, gate), run, l, _ => true);
  }

  /** And the one it holds is whole so far, but for the object in flight, or about
      to be reset: a CUT stands at the queue's head. */
  lemma OpenIsWholeOrCut(l: Lane)
    requires Reachable(l) && !l.ended && l.d.open.Some?
    ensures l.d.open.value.sid < |l.d.streams|
    ensures var st := l.d.streams[l.d.open.value.sid];
            var at := if l.phase.Idle? then Turn(l.q, l.h) else Turn(l.q, l.h) - 1;
            if Below(st.group, l.floor) then l.q.items != [] && l.q.items[0].Cut?
            else && st.from <= at <= |l.h.offered| && st.objs == Admitted(l.h, st.from, at)
                 && (forall i :: st.from <= i < at ==> i in l.h.judged && l.h.offered[i].group == st.group)
  {
    hide Reachable, Inv, Turn, Admitted;
    ReachableInv(l);
    OpenKept(l);
  }

  lemma OpenKept(l: Lane)
    requires Inv(l) && !l.ended
    ensures StreamsFit(l.d) && OpenOk(l.d, l.q, l.h, l.floor, l.phase) && CutAtHead(l.q)
  {
    hide QueueOk, AboveFloor, Named, FinsWhole, StopSeen, PhaseOk, OpenOk;
  }
}
