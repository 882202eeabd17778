/** What the peer got: every stream, whatever became of it, carries objects its
    writer was handed, in that order. */
module LaneSent {
  import opened Basics
  import opened LaneSpec
  import opened LaneQueue
  import opened LaneProofs
  import opened LaneRuns

  /** The objects handed over and not in flight. */
  ghost function Settled(h: History, phase: Phase): seq<Object>
  {
    if phase.Idle? || h.handed == [] then h.handed else h.handed[..|h.handed| - 1]
  }

  ghost predicate AllSent(streams: seq<Stream>, handed: seq<Object>)
  {
    forall i :: 0 <= i < |streams| ==> IsSub(streams[i].objs, handed)
  }

  /** Every stream carries objects handed over, in order; the one in flight is the
      last handed. */
  ghost predicate SentOk(l: Lane)
  {
    && (!l.phase.Idle? ==> l.h.handed != [] && l.h.handed[|l.h.handed| - 1] == l.phase.o)
    && AllSent(l.d.streams, Settled(l.h, l.phase))
  }

  /** The streams carry what they did; those new carry nothing. */
  ghost predicate SameObjs(d: Delivery, d': Delivery)
  {
    && |d.streams| <= |d'.streams|
    && (forall i :: 0 <= i < |d.streams| ==> d'.streams[i].objs == d.streams[i].objs)
    && (forall i :: |d.streams| <= i < |d'.streams| ==> d'.streams[i].objs == [])
  }

  lemma EndsSame(d: Delivery, to: nat)
    requires Fits(d)
    ensures SameObjs(d, EndStream(d, to)) && SameObjs(d, ResetStream(d))
  {
  }

  lemma StopsSame(d: Delivery, group: nat)
    requires Fits(d)
    ensures SameObjs(d, StreamStopped(d, group))
  {
  }

  lemma ResetBelowSame(d: Delivery, floor: nat, used: Backlog)
    requires Fits(d)
    ensures SameObjs(d, ResetBelow(d, floor, used))
  {
    ResetBelowResets(d, floor, used);
    hide ResetBelow;
  }

  /** Nothing new is carried, and no less is settled. */
  lemma SameSent(l: Lane, r: Lane)
    requires SentOk(l) && SameObjs(l.d, r.d)
    requires (r.h.handed == l.h.handed && (r.phase.Idle? || (!l.phase.Idle? && r.phase.o == l.phase.o)))
          || (exists o :: l.phase.Idle? && r.h.handed == l.h.handed + [o] && (r.phase.Idle? || r.phase.o == o))
    ensures SentOk(r)
  {
    hide IsSub;
    var was, now := Settled(l.h, l.phase), Settled(r.h, r.phase);
    var o := if |r.h.handed| > 0 then r.h.handed[|r.h.handed| - 1] else Object(0, 0, false, false, 0, []);
    assert now == was || now == was + [o];
    forall i | 0 <= i < |r.d.streams|
      ensures IsSub(r.d.streams[i].objs, now)
    {
      if i < |l.d.streams| {
        assert IsSub(l.d.streams[i].objs, was);
        IsSubGrow(l.d.streams[i].objs, was, o);
      } else {
        NoneSub(now);
      }
    }
  }

  lemma NoneSub(s: seq<Object>)
    ensures IsSub([], s)
  {
  }

  /** The object goes out, on the open stream. */
  lemma WrittenSent(l: Lane, r: Lane, o: Object)
    requires Fits(l.d) && l.d.open.Some? && SentOk(l) && r.d == Written(l.d, o) && r.phase.Idle?
    requires if l.phase.Idle? then r.h.handed == l.h.handed + [o] else r.h.handed == l.h.handed && o == l.phase.o
    ensures SentOk(r)
  {
    hide IsSub;
    var was := Settled(l.h, l.phase);
    assert r.h.handed == was + [o];
    forall i | 0 <= i < |r.d.streams|
      ensures IsSub(r.d.streams[i].objs, r.h.handed)
    {
      assert IsSub(l.d.streams[i].objs, was);
      IsSubGrow(l.d.streams[i].objs, was, o);
    }
  }

  // ---- steps ---------------------------------------------------------------------

  lemma SkipSame(l: Lane, group: nat)
    ensures var r := Skip(l, group); r.d == l.d && r.phase == l.phase && r.h == l.h
  {
    hide Trim;
  }

  lemma FailedSame(l: Lane, group: nat)
    requires Fits(l.d)
    ensures var r := Failed(l, group); SameObjs(l.d, r.d) && r.phase == l.phase && r.h == l.h
  {
    hide Skip, ResetStream, SameObjs;
    EndsSame(l.d, 0);
    SkipSame(ResetOpen(l), group);
  }

  lemma ShedSame(l: Lane, group: nat, e: Env)
    requires Fits(l.d)
    ensures var r := Shed(l, group, e); SameObjs(l.d, r.d) && r.phase == l.phase && r.h == l.h
  {
    hide Trim, ResetBelow, TxQueued, PushCut, Raise;
    var l1 := CutTo(l, group, e.shed);
    var l2 := CutTo(l1, group + 1, e.shedAll);
    RaiseSame(l1, group);
    RaiseSame(l2, group + 1);
    UnparkSame(Raise(l1, group), e.reset);
    UnparkSame(Raise(l2, group + 1), e.reset);
  }

  lemma RaiseSame(l: Lane, floor: nat)
    ensures var r := Raise(l, floor); r.d == l.d && r.phase == l.phase && r.h == l.h
  {
    hide PushCut;
  }

  lemma UnparkSame(l: Lane, used: Backlog)
    requires Fits(l.d)
    ensures var r := Unpark(l, used); SameObjs(l.d, r.d) && r.phase == l.phase && r.h == l.h
  {
    hide ResetBelow;
    if l.floor.Some? { ResetBelowSame(l.d, l.floor.value, used); }
  }

  lemma OfferSent(l: Lane, o: Object, e: Env)
    requires Fits(l.d) && SentOk(l)
    ensures SentOk(Offer(l, o, e))
  {
    hide Probe, Enqueue, WriteThrough, SentOk, SameObjs, Defers;
    if l.stopped || l.final {
    } else if Below(o.group, l.floor) {
      NotedSent(l, o);
    } else {
      var l1 := if o.live then Probe(l, o.group, e.probe) else l;
      ProbeSent(l, o.group, e.probe);
      if Inlines(l1, o) && !Defers(l1, o, e.inline) {
        ThroughSent(l1, o, e.inline);
      } else {
        NotedSent(l1, o);
        EnqueueSent(Note(l1, o), o, e);
      }
    }
  }

  lemma NotedSent(l: Lane, o: Object)
    requires SentOk(l)
    ensures SentOk(Note(l, o))
  {
    hide IsSub;
  }

  lemma ProbeSent(l: Lane, group: nat, used: Backlog)
    requires Fits(l.d) && SentOk(l)
    ensures SentOk(Probe(l, group, used)) && Fits(Probe(l, group, used).d)
  {
    hide Probe, IsSub, Settled;
    ProbeForgets(l, group, used);
  }

  lemma EnqueueSent(l: Lane, o: Object, e: Env)
    requires Fits(l.d) && SentOk(l)
    ensures SentOk(Enqueue(l, o, e))
  {
    hide Push, Shed, SentOk, SameObjs;
    var l1 := l.(q := Push(l.q, Obj(o)));
    ShedSame(l1, o.group, e);
    NothingNew(l.d);
    SameSent(l, l1);
    SameSent(l, Shed(l1, o.group, e));
  }

  lemma NothingNew(d: Delivery)
    ensures SameObjs(d, d)
  {
  }

  lemma ThroughSent(l: Lane, o: Object, inline: Inline)
    requires Fits(l.d) && SentOk(l) && Inlines(l, o)
    ensures SentOk(WriteThrough(l, o, inline))
  {
    hide SentOk, SameObjs, Failed, StreamStopped, Written;
    var r := WriteThrough(l, o, inline);
    var pass := l.passes(o.group, o.id);
    var noted := Note(l, o).(h := Hand(Note(l, o).h, o, |l.h.offered|, pass));
    assert r.h.handed == l.h.handed + [o];
    if !pass {
      NothingNew(l.d);
      SameSent(l, r);
    } else if inline.Took? {
      WrittenSent(l, r, o);
    } else if inline.PeerStopped? {
      StopsSame(l.d, o.group);
      SameSent(l, r);
    } else {
      FailedSame(noted, o.group);
      SameSent(l, r);
    }
  }

  lemma SendOffSent(l: Lane, o: Object, expired: bool, at: nat)
    requires Fits(l.d) && SentOk(l) && l.phase.Idle?
    ensures SentOk(SendOff(l, o, expired, at))
  {
    hide SentOk, SameObjs, Skip, EndStream, ResetStream;
    EndsSame(l.d, at);
    NothingNew(l.d);
    var reset := l.d.open.Some? && l.d.open.value.group == o.group;
    SkipSame(ResetOpen(l), o.group);
    SkipSame(l.(d := if reset then ResetStream(l.d) else EndStream(l.d, at)), o.group);
    SameSent(l, SendOff(l, o, expired, at));
  }

  lemma ControlSent(l: Lane, x: Item, used: Backlog, at: nat)
    requires Fits(l.d) && SentOk(l) && !x.Obj? && l.phase.Idle?
    ensures SentOk(Control(l, x, used, at))
  {
    hide SentOk, SameObjs, Control;
    ControlSame(l, x, used, at);
    SameSent(l, Control(l, x, used, at));
  }

  /** What carries what it did, in the same phase, with nothing more handed over. */
  ghost predicate Unsent(l: Lane, r: Lane)
  {
    SameObjs(l.d, r.d) && r.phase == l.phase && r.h.handed == l.h.handed
  }

  lemma ControlSame(l: Lane, x: Item, used: Backlog, at: nat)
    requires Fits(l.d) && !x.Obj?
    ensures Unsent(l, Control(l, x, used, at))
  {
    hide SameObjs, Skip, EndStream, ResetOpen, ResetBelow, EndTrackStep, EndOpen;
    NothingNew(l.d);
    if x.Cut? {
      if l.floor.Some? { ResetBelowSame(l.d, l.floor.value, used); }
    } else if x.EndTrack? {
      EndTrackSame(l, x.largest, at);
    } else if x.ResetGroup? {
      ResetSame(l, x.upTo);
    } else {
      EndOpenSame(l, at);
    }
  }

  lemma ResetSame(l: Lane, upTo: Option<nat>)
    requires Fits(l.d)
    ensures Unsent(l, ResetOpen(l)) && (upTo.Some? ==> Unsent(l, Skip(ResetOpen(l), upTo.value)))
  {
    hide SameObjs, Skip, ResetStream;
    EndsSame(l.d, 0);
    if upTo.Some? { SkipSame(ResetOpen(l), upTo.value); }
  }

  lemma EndOpenSame(l: Lane, at: nat)
    requires Fits(l.d)
    ensures Unsent(l, EndOpen(l, at))
  {
    hide SameObjs, EndStream;
    EndsSame(l.d, at);
  }

  lemma EndTrackSame(l: Lane, largest: Option<nat>, at: nat)
    requires Fits(l.d)
    ensures Unsent(l, EndTrackStep(l, largest, at))
  {
    hide EndStream;
    EndsSame(l.d, at);
  }

  lemma WakeSent(l: Lane, out: Outcome)
    requires Fits(l.d) && SentOk(l) && !l.phase.Idle? && 0 <= Turn(l.q, l.h) - 1
    ensures SentOk(Wake(l, out))
  {
    hide SentOk, Wake, SameObjs;
    if out.Done? {
      DoneSent(l);
    } else {
      BrokenSame(l, out);
      SameSent(l, Wake(l, out));
    }
  }

  lemma BrokenSame(l: Lane, out: Outcome)
    requires Fits(l.d) && !l.phase.Idle? && 0 <= Turn(l.q, l.h) - 1 && !out.Done?
    ensures var r := Wake(l, out); SameObjs(l.d, r.d) && r.phase.Idle? && r.h.handed == l.h.handed
  {
    hide SameObjs, Failed, StreamStopped, Turn;
    NothingNew(l.d);
    StopsSame(l.d, l.phase.o.group);
    FailedSame(l.(phase := Idle), l.phase.o.group);
  }

  lemma DoneSent(l: Lane)
    requires Fits(l.d) && SentOk(l) && !l.phase.Idle? && 0 <= Turn(l.q, l.h) - 1
    ensures SentOk(Wake(l, Done))
  {
    hide SentOk, SameObjs, Turn, StreamOpened, OpenedLate, Written;
    var r := GoOn(l);
    assert Wake(l, Done) == r by { hide GoOn; }
    if l.phase.Body? && l.phase.epoch == l.d.epoch && l.d.open.Some? {
      WrittenSent(l, r, l.phase.o);
    } else {
      NothingNew(l.d);
      OpenedSame(l.d, l.phase.o.group, Turn(l.q, l.h) - 1);
      SameSent(l, r);
    }
  }

  lemma OpenedSame(d: Delivery, group: nat, from: nat)
    ensures SameObjs(d, StreamOpened(d, group, from)) && SameObjs(d, OpenedLate(d, group, from))
  {
  }

  lemma TakeSent(l: Lane, expired: bool, used: Backlog)
    requires Fits(l.d) && SentOk(l) && CanTake(l)
    ensures SentOk(Take(l, expired, used))
  {
    hide SentOk, SameObjs, SendOff, Control, Pop, Turn;
    var l1 := l.(q := Pop(l.q));
    NothingNew(l.d);
    SameSent(l, l1);
    var x := l.q.items[0];
    if x.Obj? { SendOffSent(l1, x.o, expired, Turn(l.q, l.h)); } else { ControlSent(l1, x, used, Turn(l.q, l.h)); }
  }

  lemma ResumeSent(l: Lane, group: nat, rejoin: bool)
    requires Fits(l.d) && SentOk(l)
    ensures SentOk(Resume(l, group, rejoin))
  {
    hide SentOk, SameObjs, Skip, Trim, ResetStream;
    NothingNew(l.d);
    EndsSame(l.d, 0);
    SkipSame(ResetOpen(l).(q := Trim(l.q, group + 1, true)), group);
    SameSent(l, Resume(l, group, rejoin));
  }

  lemma StepSent(l: Lane, ev: Event)
    requires Fits(l.d) && Enabled(l, ev) && SentOk(l)
    ensures SentOk(Step(l, ev))
  {
    hide SentOk, Offer, Put, Resume, Take, Wake, CanTake, Turn, ResetStream, Stop, PeerStops, SameObjs;
    match ev
    case Offers(o, e) => OfferSent(l, o, e);
    case Resumes(group, rejoin) => ResumeSent(l, group, rejoin);
    case Takes(expired, used) => TakeSent(l, expired, used);
    case Wakes(out) => WakeSent(l, out);
    case Puts(x) => PutSent(l, x);
    case Cancels => CancelSent(l);
    case Stops => StopSent(l);
    case StopsStream(sid) => PeerStopSent(l, sid);
    case Gates(gate) => GateSent(l, gate, l.passes);
    case Filters(passes) => GateSent(l, l.gate, passes);
  }

  lemma PutSent(l: Lane, x: Item)
    requires SentOk(l) && !x.Obj? && !x.Cut?
    ensures SentOk(Put(l, x))
  {
    hide SentOk;
    SameSent(l, Put(l, x));
  }

  lemma CancelSent(l: Lane)
    requires Fits(l.d) && SentOk(l)
    ensures SentOk(ResetOpen(l))
  {
    hide SentOk, ResetStream;
    EndsSame(l.d, 0);
    SameSent(l, ResetOpen(l));
  }

  lemma StopSent(l: Lane)
    requires SentOk(l)
    ensures SentOk(Stop(l))
  {
    hide SentOk;
    SameSent(l, Stop(l));
  }

  lemma PeerStopSent(l: Lane, sid: nat)
    requires SentOk(l)
    ensures SentOk(PeerStops(l, sid))
  {
    hide SentOk;
    SameSent(l, PeerStops(l, sid));
  }

  lemma GateSent(l: Lane, gate: bool, passes: Filter)
    requires SentOk(l)
    ensures SentOk(l.(gate := gate)) && SentOk(l.(passes := passes))
  {
    hide SentOk;
    SameSent(l, l.(gate := gate));
    SameSent(l, l.(passes := passes));
  }

  // ---- the result ------------------------------------------------------------------

  lemma InitSent(max: nat, through: bool, passes: Filter, floor: Option<nat>, gate: bool)
    ensures SentOk(Init(max, through, passes, floor, gate))
  {
  }

  lemma {:induction false} RunSent(l: Lane, run: seq<Event>, l': Lane)
    requires SentOk(l) && Reaches(l, run, l')
    ensures SentOk(l')
    decreases run
  {
    hide SentOk, Step, Enabled;
    if run != [] {
      StepSent(l, run[0]);
      RunSent(Step(l, run[0]), run[1..], l');
    }
  }

  /** Whatever became of a stream, open, finished or reset, it carries objects its
      writer was handed, in the order it was handed them. */
  lemma StreamCarriesHanded(l: Lane, sid: nat)
    requires Reachable(l) && sid < |l.d.streams|
    ensures IsSub(l.d.streams[sid].objs, l.h.handed)
  {
    var max, through, passes, floor, gate, run :| Reaches(Init(max, through, passes, floor, gate), run, l);
    hide SentOk, Reaches;
    InitSent(max, through, passes, floor, gate);
    RunSent(Init(max, through, passes, floor, gate), run, l);
    CarriesHanded(l, sid);
  }

  lemma CarriesHanded(l: Lane, sid: nat)
    requires SentOk(l) && sid < |l.d.streams|
    ensures IsSub(l.d.streams[sid].objs, l.h.handed)
  {
    hide IsSub, Settled;
    var objs, settled := l.d.streams[sid].objs, Settled(l.h, l.phase);
    assert IsSub(objs, settled);
    SettledOf(l.h, l.phase);
    if !l.phase.Idle? { IsSubGrow(objs, settled, l.phase.o); }
  }

  lemma SettledOf(h: History, phase: Phase)
    ensures phase.Idle? ==> Settled(h, phase) == h.handed
    ensures h.handed != [] && !phase.Idle? ==> Settled(h, phase) + [h.handed[|h.handed| - 1]] == h.handed
  {
  }
}
