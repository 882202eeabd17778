/** A shed group rejoined: the one case where the lane's memory of what it lost
    does not serve. */
module LaneCases {
  import opened Basics
  import opened LaneSpec
  import opened LaneQueue
  import opened LaneProofs
  import opened LaneRuns

  // ---- what a lane remembers of what it lost ---------------------------------

  /** The group last lost is below the floor. */
  predicate LostOk(l: Lane) { l.lost.Some? ==> l.floor.Some? && l.lost.value < l.floor.value }

  /** Nothing lost is forgotten for an older group. */
  predicate Remembers(l: Lane, r: Lane)
  {
    LostOk(r) && (l.lost.Some? ==> r.lost.Some? && r.lost.value >= l.lost.value)
  }

  /** The write of a group older than the last one lost fails. */
  predicate OlderFailure(l: Lane, ev: Event)
  {
    ev.Wakes? && ev.out.Error? && !l.phase.Idle? && l.lost.Some? && l.phase.o.group < l.lost.value
  }

  lemma SkipRemembers(l: Lane, group: nat)
    requires LostOk(l)
    ensures var r := Skip(l, group);
            Remembers(l, r) && r.lost == l.lost && r.floor.Some? && r.floor.value >= group + 1
  {
    hide Trim;
  }

  lemma FailedLost(l: Lane, group: nat)
    requires Fits(l.d) && LostOk(l)
    ensures LostOk(Failed(l, group)) && Failed(l, group).lost == Some(group)
  {
    hide Skip, ResetStream;
    SkipRemembers(ResetOpen(l), group);
  }

  lemma RaiseRemembers(l: Lane, floor: nat)
    requires LostOk(l)
    ensures Remembers(l, Raise(l, floor)) && Raise(l, floor).d == l.d
  {
    hide PushCut;
  }

  lemma ShedRemembers(l: Lane, group: nat, e: Env)
    requires Fits(l.d) && LostOk(l)
    ensures Remembers(l, Shed(l, group, e))
  {
    hide CutTo, Raise, Unpark;
    var l1 := CutTo(l, group, e.shed);
    var l2 := CutTo(l1, group + 1, e.shedAll);
    CutToLost(l, group, e.shed);
    CutToLost(l1, group + 1, e.shedAll);
    RaiseRemembers(l1, group);
    RaiseRemembers(l2, group + 1);
    UnparkLost(Raise(l1, group), e.reset);
    UnparkLost(Raise(l2, group + 1), e.reset);
  }

  lemma CutToLost(l: Lane, to: nat, used: Backlog)
    requires Fits(l.d)
    ensures CutTo(l, to, used).lost == l.lost && CutTo(l, to, used).floor == l.floor
  {
    hide Trim, TxQueued;
  }

  lemma UnparkLost(l: Lane, used: Backlog)
    requires Fits(l.d)
    ensures Unpark(l, used).lost == l.lost && Unpark(l, used).floor == l.floor
  {
    hide ResetBelow;
  }

  lemma OfferRemembers(l: Lane, o: Object, e: Env)
    requires Fits(l.d) && LostOk(l)
    ensures Remembers(l, Offer(l, o, e))
  {
    hide Probe, Enqueue, WriteThrough, Defers;
    if !l.stopped && !l.final && !Below(o.group, l.floor) {
      var l1 := if o.live then Probe(l, o.group, e.probe) else l;
      ProbeLost(l, o.group, e.probe);
      ThroughRemembers(l1, o, e.inline);
      EnqueueRemembers(Note(l1, o), o, e);
    }
  }

  lemma ProbeLost(l: Lane, group: nat, used: Backlog)
    requires Fits(l.d)
    ensures var r := Probe(l, group, used); r.lost == l.lost && r.floor == l.floor && Fits(r.d)
  {
    hide Probe;
    ProbeForgets(l, group, used);
  }

  lemma EnqueueRemembers(l: Lane, o: Object, e: Env)
    requires Fits(l.d) && LostOk(l)
    ensures Remembers(l, Enqueue(l, o, e))
  {
    hide Shed, Push;
    ShedRemembers(l.(q := Push(l.q, Obj(o))), o.group, e);
  }

  lemma ThroughRemembers(l: Lane, o: Object, inline: Inline)
    requires Fits(l.d) && LostOk(l) && !Below(o.group, l.floor)
    ensures l.d.open.Some? ==> Remembers(l, WriteThrough(l, o, inline))
  {
    hide Failed, StreamStopped, Written;
    if l.d.open.Some? {
      var pass := l.passes(o.group, o.id);
      FailedLost(Note(l, o).(h := Hand(Note(l, o).h, o, |l.h.offered|, pass)), o.group);
    }
  }

  lemma ResumeRemembers(l: Lane, group: nat, rejoin: bool)
    requires Fits(l.d) && LostOk(l)
    ensures Remembers(l, Resume(l, group, rejoin))
  {
    hide Skip, Trim, ResetStream;
    if !l.stopped && !l.final { SkipRemembers(ResetOpen(l).(q := Trim(l.q, group + 1, true)), group); }
  }

  lemma TakeRemembers(l: Lane, expired: bool, used: Backlog)
    requires Inv(l) && Fits(l.d) && LostOk(l) && CanTake(l)
    ensures Remembers(l, Take(l, expired, used))
  {
    hide Inv, Pop, SendOff, Control, Turn;
    var x, l1 := l.q.items[0], l.(q := Pop(l.q));
    if x.Obj? {
      HeadAboveFloor(l);
      SendOffRemembers(l1, x.o, expired, Turn(l.q, l.h));
    } else {
      ControlRemembers(l1, x, used, Turn(l.q, l.h));
    }
  }

  lemma SendOffRemembers(l: Lane, o: Object, expired: bool, at: nat)
    requires Fits(l.d) && LostOk(l) && !Below(o.group, l.floor)
    ensures Remembers(l, SendOff(l, o, expired, at))
  {
    hide Skip, EndStream, ResetStream, Hand;
    SkipRemembers(ResetOpen(l), o.group);
    var reset := l.d.open.Some? && l.d.open.value.group == o.group;
    SkipRemembers(l.(d := if reset then ResetStream(l.d) else EndStream(l.d, at)), o.group);
  }

  lemma ControlRemembers(l: Lane, x: Item, used: Backlog, at: nat)
    requires Fits(l.d) && LostOk(l) && !x.Obj?
    ensures Remembers(l, Control(l, x, used, at))
  {
    hide Skip, EndStream, ResetStream, ResetBelow, EndTrackStep;
    match x
    case ResetGroup(upTo) => if upTo.Some? { SkipRemembers(ResetOpen(l), upTo.value); }
    case EndTrack(largest) => EndTrackLost(l, largest, at);
    case _ =>
  }

  lemma EndTrackLost(l: Lane, largest: Option<nat>, at: nat)
    requires Fits(l.d)
    ensures EndTrackStep(l, largest, at).lost == l.lost && EndTrackStep(l, largest, at).floor == l.floor
  {
    hide EndStream, TrackEnded;
  }

  lemma HeadAboveFloor(l: Lane)
    requires Inv(l) && l.q.items != [] && l.q.items[0].Obj?
    ensures !Below(l.q.items[0].o.group, l.floor)
  {
    ObjsHead(l.q.items);
    assert l.q.items[0].o in Objs(l.q.items);
  }

  lemma WakeRemembers(l: Lane, out: Outcome)
    requires Fits(l.d) && LostOk(l) && !l.phase.Idle? && 0 <= Turn(l.q, l.h) - 1
    ensures LostOk(Wake(l, out)) && (!OlderFailure(l, Wakes(out)) ==> Remembers(l, Wake(l, out)))
  {
    hide Failed, StreamStopped, GoOn, Turn;
    FailedLost(l.(phase := Idle), l.phase.o.group);
  }

  /** Only the failed write of an older group makes a lane forget what it lost. */
  lemma StepRemembers(l: Lane, ev: Event)
    requires Inv(l) && Enabled(l, ev) && LostOk(l)
    ensures Fits(l.d) && LostOk(Step(l, ev))
    ensures !OlderFailure(l, ev) ==> Remembers(l, Step(l, ev))
  {
    hide Inv, Offer, Resume, Take, Wake, CanTake, Turn, ResetStream, Ascending;
    InvFits(l);
    match ev
    case Offers(o, e) => OfferRemembers(l, o, e);
    case Resumes(group, rejoin) => ResumeRemembers(l, group, rejoin);
    case Takes(expired, used) => TakeRemembers(l, expired, used);
    case Wakes(out) => WakeRemembers(l, out);
    case _ =>
  }

  // ---- over a run ------------------------------------------------------------------

  /** No state of the run has lost a group newer than `g`. */
  ghost predicate NoneNewer(l: Lane, run: seq<Event>, g: nat)
    decreases run
  {
    && (l.lost.Some? ==> l.lost.value <= g)
    && (run != [] ==> Fits(l.d) && Enabled(l, run[0]) && NoneNewer(Step(l, run[0]), run[1..], g))
  }

  /** No state of the run has `g` as the last group lost. */
  ghost predicate NeverLost(l: Lane, run: seq<Event>, g: nat)
    decreases run
  {
    && l.lost != Some(g)
    && (run != [] ==> Fits(l.d) && Enabled(l, run[0]) && NeverLost(Step(l, run[0]), run[1..], g))
  }

  /** With `g` the last group lost, the write of an older group fails, and `g` is
      not lost again. */
  ghost predicate Forgotten(l: Lane, run: seq<Event>, g: nat)
    decreases run
  {
    run != [] && Fits(l.d) && Enabled(l, run[0]) &&
    var next := Step(l, run[0]);
    || (OlderFailure(l, run[0]) && l.lost == Some(g) && NeverLost(next, run[1..], g))
    || Forgotten(next, run[1..], g)
  }

  lemma {:induction false} ForgottenIs(l: Lane, run: seq<Event>, l': Lane, g: nat)
    requires Inv(l) && LostOk(l) && Reaches(l, run, l') && NoneNewer(l, run, g)
    ensures Inv(l') && LostOk(l')
    ensures l.lost == Some(g) ==> (l'.lost != Some(g) <==> Forgotten(l, run, g))
    ensures l.lost != Some(g) ==> (l'.lost != Some(g) <==> NeverLost(l, run, g) || Forgotten(l, run, g))
    decreases run
  {
    hide Inv, Step, Enabled, LostOk, OlderFailure;
    if run != [] {
      StepKeeps(l, run[0]);
      StepRemembers(l, run[0]);
      var next := Step(l, run[0]);
      Unrolled(l, run, g);
      hide Forgotten, NeverLost;
      ForgottenIs(next, run[1..], l', g);
      NewestStays(l, run[0], next, g);
    }
  }

  /** One step of the run unrolled. */
  lemma Unrolled(l: Lane, run: seq<Event>, g: nat)
    requires run != [] && Fits(l.d) && Enabled(l, run[0])
    ensures var next := Step(l, run[0]);
            && (NeverLost(l, run, g) <==> l.lost != Some(g) && NeverLost(next, run[1..], g))
            && (Forgotten(l, run, g) <==> (OlderFailure(l, run[0]) && l.lost == Some(g) && NeverLost(next, run[1..], g))
                                          || Forgotten(next, run[1..], g))
    ensures NoneNewer(l, run, g) ==> NoneNewer(Step(l, run[0]), run[1..], g)
  {
    hide Step, Enabled, OlderFailure;
  }

  lemma NewestStays(l: Lane, ev: Event, next: Lane, g: nat)
    requires !OlderFailure(l, ev) ==> Remembers(l, next)
    requires next.lost.Some? ==> next.lost.value <= g
    ensures l.lost == Some(g) && next.lost != Some(g) ==> OlderFailure(l, ev)
  {
  }

  /** A lost group is rejoined exactly when an older write has failed since. With
      `g` lost, and nothing newer since, and nothing taken up to `g` any more:
      resume() with `rejoin` goes back into `g` if and only if, after `g` was last
      lost, the write of an older group failed. */
  lemma RejoinedIffForgotten(l: Lane, run: seq<Event>, l': Lane, g: nat)
    requires Reachable(l) && l.lost == Some(g) && Reaches(l, run, l') && NoneNewer(l, run, g)
    requires l'.floor == Some(g + 1) && !l'.stopped && !l'.final
    ensures Fits(l'.d)
    ensures Resume(l', g, true).floor == Some(g) <==> Forgotten(l, run, g)
    ensures Resume(l', g, true).floor == Some(g + 1) <==> !Forgotten(l, run, g)
  {
    hide Inv, Resume, Forgotten, NoneNewer, Reaches, Reachable;
    ReachableLostOk(l);
    ForgottenIs(l, run, l', g);
    InvFits(l');
    ResumeFloor(l', g);
  }

  /** Every lane a run makes remembers a group below its floor. */
  lemma ReachableLostOk(l: Lane)
    requires Reachable(l)
    ensures Inv(l) && LostOk(l)
  {
    hide Ascending;
    var max, through, passes, floor, gate, run :| Reaches(Init(max, through, passes, floor, gate), run, l);
    InitInv(max, through, passes, floor, gate);
    RunLostOk(Init(max, through, passes, floor, gate), run, l);
  }

  lemma {:induction false} RunLostOk(l: Lane, run: seq<Event>, l': Lane)
    requires Inv(l) && LostOk(l) && Reaches(l, run, l')
    ensures Inv(l') && LostOk(l')
    decreases run
  {
    hide Inv, Step, Enabled, LostOk;
    if run != [] {
      StepKeeps(l, run[0]);
      StepRemembers(l, run[0]);
      RunLostOk(Step(l, run[0]), run[1..], l');
    }
  }

  // ---- a case ------------------------------------------------------------------------

  /** A shed group is not resumed mid-way, unless a write of an older group fails
      meanwhile: the failure takes the shed's place as the newest loss. */
  lemma OlderFailureForgetsShed(l: Lane, group: nat)
    requires Inv(l) && !l.stopped && !l.final && !l.phase.Idle?
    requires l.lost == Some(group) && l.floor == Some(group + 1) && l.phase.o.group < group
    ensures Fits(l.d) && 0 <= Turn(l.q, l.h) - 1
    ensures Resume(l, group, true).floor == Some(group + 1)
    ensures var failed := Wake(l, Error);
            Fits(failed.d) && failed.floor == Some(group + 1) && Resume(failed, group, true).floor == Some(group)
  {
    hide Inv, Core, Turn, Wake, Resume;
    InvFits(l);
    InFlightInv(l);
    WakeKeeps(l, Error);
    InvFits(Wake(l, Error));
    FailureKeepsFloor(l);
    ResumeFloor(l, group);
    ResumeFloor(Wake(l, Error), group);
  }

  // A run to such a lane: an object of group 0 waits for its stream to open when
  // one of group 1, over the bound by itself, is offered and shed.

  function Sized(group: nat, cost: nat): Object { Object(group, 0, true, true, cost, []) }

  const IDLY := Env(Took, _ => 0, _ => 0, _ => 0, _ => 0)

  const BARE := Init(10, false, (_, _) => true, None, true)

  lemma OneQueued(o: Object)
    ensures LiveBytes([]) == 0 && ReplayBytes([]) == 0 && Charged([]) == 0 && Objs([]) == []
    ensures Objs([Obj(o)]) == [o] && LiveBytes([o]) == (if o.live then o.cost else 0)
    ensures ReplayBytes([o]) == (if o.live then 0 else o.cost) && Charged([o]) == (if o.cost > 0 then 1 else 0)
    ensures Kept([], 0, false) == []
    ensures forall floor: nat :: Kept([Obj(o)], floor, false) == if o.group >= floor then [Obj(o)] else []
  {
    assert [Obj(o)][1..] == [] && [o][1..] == [];
    forall floor: nat
      ensures Kept([Obj(o)], floor, false) == if o.group >= floor then [Obj(o)] else []
    {
      assert Kept([Obj(o)][1..], floor, false) == [];
    }
  }

  lemma FirstQueued()
    ensures var l := Offer(BARE, Sized(0, 5), IDLY);
            && l.q == Queue([Obj(Sized(0, 5))], 5, 0, 1, false) && l.h == History([Sized(0, 5)], map[], [], 0, {}, {})
            && l.d == BARE.d && l.phase.Idle? && l.floor.None? && l.gate && l.max == 10 && !l.through
            && !l.stopped && !l.final && !l.ended && l.passes == BARE.passes && l.txBytes == 0
  {
    hide Objs, LiveBytes, ReplayBytes, Charged, Shed;
    OneQueued(Sized(0, 5));
    assert [] + [Obj(Sized(0, 5))] == [Obj(Sized(0, 5))] && [] + [Sized(0, 5)] == [Sized(0, 5)];
  }

  /** The first object waits for its stream. */
  lemma FirstWaits(l: Lane)
    requires l.q == Queue([Obj(Sized(0, 5))], 5, 0, 1, false) && l.h == History([Sized(0, 5)], map[], [], 0, {}, {})
    requires l.d == BARE.d && l.phase.Idle? && l.gate && !l.stopped && !l.ended && l.passes == BARE.passes
    ensures Fits(l.d) && CanTake(l)
    ensures var r := Take(l, false, _ => 0);
            && r == l.(q := Queue([], 0, 0, 0, false), phase := Opening(Sized(0, 5), 0), h := r.h)
            && r.h.offered == [Sized(0, 5)] && r.h.top == 0
  {
    OneQueued(Sized(0, 5));
    hide Objs, LiveBytes, ReplayBytes, Charged;
  }

  /** The second is shed, over the bound by itself. */
  lemma SecondShed(l: Lane)
    requires l.q == Queue([], 0, 0, 0, false) && l.phase == Opening(Sized(0, 5), 0) && l.d == BARE.d
    requires l.floor.None? && l.max == 10 && !l.through && !l.stopped && !l.final && l.txBytes == 0
    ensures Fits(l.d)
    ensures var r := Offer(l, Sized(1, 20), IDLY);
            r.lost == Some(1) && r.floor == Some(2) && r.phase == l.phase && !r.stopped && !r.final
  {
    hide Objs, Kept, Push, Trim, Shed, WriteThrough, Recount;
    var o := Sized(1, 20);
    SecondPushed(l.q);
    ProbedAgain(l);
    var l1 := Probe(l, 1, _ => 0);
    ShedAll(Note(l1, o).(q := Push(l.q, Obj(o))), o);
  }

  lemma ProbedAgain(l: Lane)
    requires l.d == BARE.d && l.txBytes == 0
    ensures var r := Probe(l, 1, _ => 0);
            && r.q == l.q && r.txBytes == 0 && r.d == l.d && r.phase == l.phase && r.floor == l.floor
            && r.max == l.max && r.through == l.through && r.stopped == l.stopped && r.final == l.final
  {
    hide ReadBacklog;
    NothingToRead(l);
  }

  lemma NothingToRead(l: Lane)
    requires l.d == BARE.d && l.txBytes == 0
    ensures ReadBacklog(l, l.floor, _ => 0) == l
  {
  }

  lemma SecondPushed(q: Queue)
    requires q == Queue([], 0, 0, 0, false)
    ensures var q' := Push(q, Obj(Sized(1, 20)));
            && q'.bytes == 20 && Trim(q', 1, false) == q' && Trim(q', 2, false) == q
  {
    OneQueued(Sized(1, 20));
    hide Objs, LiveBytes, ReplayBytes, Charged, Kept;
    assert [] + [Obj(Sized(1, 20))] == [Obj(Sized(1, 20))];
  }

  lemma ShedAll(l: Lane, o: Object)
    requires Fits(l.d) && l.d == BARE.d && l.max == 10 && l.floor.None? && o.group == 1
    requires l.q.bytes == 20 && Trim(l.q, 1, false) == l.q && Trim(l.q, 2, false) == Queue([], 0, 0, 0, false)
    ensures var r := Shed(l, 1, IDLY);
            && r.lost == Some(1) && r.floor == Some(2) && r.phase == l.phase
            && r.stopped == l.stopped && r.final == l.final
  {
    hide Trim, ResetStream;
    var l1 := CutTo(l, 1, _ => 0);
    assert l1.q == l.q && l1.txBytes == 0;
    var l2 := CutTo(l1, 2, _ => 0);
    assert l2.q.bytes == 0;
  }

  lemma FirstStep() returns (l: Lane)
    ensures Fits(BARE.d) && Enabled(BARE, Offers(Sized(0, 5), IDLY)) && Step(BARE, Offers(Sized(0, 5), IDLY)) == l
    ensures l.q == Queue([Obj(Sized(0, 5))], 5, 0, 1, false) && l.h == History([Sized(0, 5)], map[], [], 0, {}, {})
    ensures l.d == BARE.d && l.phase.Idle? && l.floor.None? && l.gate && l.max == 10 && !l.through
    ensures !l.stopped && !l.final && !l.ended && l.passes == BARE.passes && l.txBytes == 0
  {
    hide Offer;
    FirstQueued();
    MayFollow(BARE, Sized(0, 5));
    l := Offer(BARE, Sized(0, 5), IDLY);
  }

  lemma SecondStep(l: Lane) returns (r: Lane)
    requires l.q == Queue([Obj(Sized(0, 5))], 5, 0, 1, false) && l.h == History([Sized(0, 5)], map[], [], 0, {}, {})
    requires l.d == BARE.d && l.phase.Idle? && l.gate && !l.stopped && !l.ended && l.passes == BARE.passes
    ensures Fits(l.d) && Enabled(l, Takes(false, _ => 0)) && Step(l, Takes(false, _ => 0)) == r
    ensures r == l.(q := Queue([], 0, 0, 0, false), phase := Opening(Sized(0, 5), 0), h := r.h)
    ensures r.h.offered == [Sized(0, 5)] && r.h.top == 0
  {
    hide Take, CanTake;
    FirstWaits(l);
    r := Take(l, false, _ => 0);
  }

  lemma ThirdStep(l: Lane) returns (r: Lane)
    requires l.q == Queue([], 0, 0, 0, false) && l.phase == Opening(Sized(0, 5), 0) && l.d == BARE.d
    requires l.floor.None? && l.max == 10 && !l.through && !l.stopped && !l.final && l.txBytes == 0
    requires l.h.offered == [Sized(0, 5)] && l.h.top == 0
    ensures Fits(l.d) && Enabled(l, Offers(Sized(1, 20), IDLY)) && Step(l, Offers(Sized(1, 20), IDLY)) == r
    ensures r.lost == Some(1) && r.floor == Some(2) && r.phase == l.phase && !r.stopped && !r.final
  {
    hide Offer, MayOffer;
    SecondShed(l);
    MayFollow(l, Sized(1, 20));
    r := Offer(l, Sized(1, 20), IDLY);
  }

  /** There is a run to a lane whose shed group the failure of an older write
      would let it rejoin. */
  lemma ForgottenShedReachable()
    ensures exists l :: Reachable(l) && !l.stopped && !l.final && !l.phase.Idle? && l.phase.o.group < 1
                        && l.lost == Some(1) && l.floor == Some(2)
  {
    hide Reachable, Reaches, Step, Enabled, Fits;
    var l1 := FirstStep();
    var l2 := SecondStep(l1);
    var l3 := ThirdStep(l2);
    var e1, e2, e3 := Offers(Sized(0, 5), IDLY), Takes(false, _ => 0), Offers(Sized(1, 20), IDLY);
    Chain(l2, e3, [], l3, l3);
    Chain(l1, e2, [e3] + [], l2, l3);
    Chain(BARE, e1, [e2] + ([e3] + []), l1, l3);
    FromInit(10, false, BARE.passes, None, true, [e1] + ([e2] + ([e3] + [])), l3);
  }

  lemma MayFollow(l: Lane, o: Object)
    requires l.h.top <= o.group
    requires l.h.offered == [] || (l.h.offered == [Sized(0, 5)] && o == Sized(1, 20))
    ensures MayOffer(l, o)
  {
  }

  lemma Chain(l: Lane, ev: Event, rest: seq<Event>, next: Lane, l': Lane)
    requires Fits(l.d) && Enabled(l, ev) && Step(l, ev) == next
    requires if rest == [] then l' == next else Reaches(next, rest, l')
    ensures Reaches(l, [ev] + rest, l')
  {
    hide Step, Enabled;
    assert ([ev] + rest)[1..] == rest;
  }

  lemma FromInit(max: nat, through: bool, passes: Filter, floor: Option<nat>, gate: bool, run: seq<Event>, l: Lane)
    requires Reaches(Init(max, through, passes, floor, gate), run, l)
    ensures Reachable(l)
  {
  }

  lemma InFlightInv(l: Lane)
    requires Inv(l) && !l.phase.Idle?
    ensures 0 <= Turn(l.q, l.h) - 1
  {
    InFlight(l);
  }

  lemma FailureKeepsFloor(l: Lane)
    requires Fits(l.d) && !l.phase.Idle? && 0 <= Turn(l.q, l.h) - 1
    requires l.floor.Some? && l.phase.o.group + 1 <= l.floor.value
    ensures var r := Wake(l, Error);
            r.floor == l.floor && r.lost == Some(l.phase.o.group) && r.stopped == l.stopped && r.final == l.final
  {
    hide Turn, ResetStream;
  }

  lemma ResumeFloor(l: Lane, group: nat)
    requires Fits(l.d) && !l.stopped && !l.final && l.floor == Some(group + 1)
    ensures Resume(l, group, true).floor == Some(if l.lost == Some(group) then group + 1 else group)
  {
    hide Trim, ResetStream;
  }
}
