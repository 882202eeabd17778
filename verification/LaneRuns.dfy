/** Whole runs of a send lane: any interleaving of the source, the track, the
    peer, the transport and the writer task. */
module LaneRuns {
  import opened Basics
  import opened LaneSpec
  import opened LaneQueue
  import opened LaneProofs

  datatype Event =
    | Offers(o: Object, e: Env)
    | Puts(x: Item)
    | Resumes(group: nat, rejoin: bool)
    | Gates(gate: bool)
    | Filters(passes: Filter)
    | Cancels                              // the writer's reset_group(), from outside
    | Stops
    | StopsStream(sid: nat)
    | Takes(expired: bool, used: Backlog)
    | Wakes(out: Outcome)

  /** The event can happen, and the source keeps its side. */
  ghost predicate Enabled(l: Lane, ev: Event)
  {
    match ev
    case Offers(o, _) => l.stopped || l.final || MayOffer(l, o)
    case Puts(x) => !x.Obj? && !x.Cut?
    case Takes(_, _) => CanTake(l)
    case Wakes(_) => !l.phase.Idle? && 0 <= Turn(l.q, l.h) - 1
    case _ => true
  }

  ghost function Step(l: Lane, ev: Event): Lane
    requires Fits(l.d) && Enabled(l, ev)
  {
    match ev
    case Offers(o, e) => Offer(l, o, e)
    case Puts(x) => Put(l, x)
    case Resumes(group, rejoin) => Resume(l, group, rejoin)
    case Gates(gate) => l.(gate := gate)
    case Filters(passes) => l.(passes := passes)
    case Cancels => ResetOpen(l)
    case Stops => Stop(l)
    case StopsStream(sid) => PeerStops(l, sid)
    case Takes(expired, used) => Take(l, expired, used)
    case Wakes(out) => Wake(l, out)
  }

  /** `l'` is reached from `l` by the events `run`. */
  ghost predicate Reaches(l: Lane, run: seq<Event>, l': Lane)
    decreases run
  {
    if run == [] then l' == l
    else Fits(l.d) && Enabled(l, run[0]) && Reaches(Step(l, run[0]), run[1..], l')
  }

  lemma StepKeeps(l: Lane, ev: Event)
    requires Inv(l) && Enabled(l, ev)
    ensures Fits(l.d) && Inv(Step(l, ev))
  {
    hide Inv, Core, Offer, Put, Resume, ResetStream, Stop, PeerStops, Take, Wake, CanTake, Turn, Ascending;
    InvFits(l);
    match ev
    case Offers(o, e) => OfferKeeps(l, o, e);
    case Puts(x) => PutKeepsInv(l, x);
    case Resumes(group, rejoin) => ResumeKeeps(l, group, rejoin);
    case Gates(gate) => GateKeeps(l, gate, l.passes);
    case Filters(passes) => GateKeeps(l, l.gate, passes);
    case Cancels => CancelKeeps(l);
    case Stops => StopKeeps(l);
    case StopsStream(sid) => PeerStopsKeeps(l, sid);
    case Takes(expired, used) => TakeKeeps(l, expired, used);
    case Wakes(out) => WakeKeeps(l, out);
  }

  lemma GateKeeps(l: Lane, gate: bool, passes: Filter)
    requires Inv(l)
    ensures Inv(l.(gate := gate)) && Inv(l.(passes := passes))
  {
    hide Core;
    FieldsKeep(l, l.(gate := gate));
    FieldsKeep(l, l.(passes := passes));
  }

  lemma CancelKeeps(l: Lane)
    requires Inv(l)
    ensures Fits(l.d) && Inv(ResetOpen(l))
  {
    hide Core;
    CoreFits(l);
    ResetOpenKeeps(l);
  }

  lemma InvFits(l: Lane)
    requires Inv(l)
    ensures Fits(l.d)
  {
    CoreFits(l);
  }

  lemma {:induction false} RunKeeps(l: Lane, run: seq<Event>, l': Lane)
    requires Inv(l) && Reaches(l, run, l')
    ensures Inv(l')
    decreases run
  {
    hide Inv, Step;
    if run != [] {
      StepKeeps(l, run[0]);
      RunKeeps(Step(l, run[0]), run[1..], l');
    }
  }

  /** A lane some run has made, from any start. */
  ghost predicate Reachable(l: Lane)
  {
    exists max, through, passes, floor, gate, run :: Reaches(Init(max, through, passes, floor, gate), run, l)
  }

  lemma ReachableInv(l: Lane)
    requires Reachable(l)
    ensures Inv(l)
  {
    var max, through, passes, floor, gate, run :| Reaches(Init(max, through, passes, floor, gate), run, l);
    InitInv(max, through, passes, floor, gate);
    RunKeeps(Init(max, through, passes, floor, gate), run, l);
  }

  // ---- the results ------------------------------------------------------------

  /** No truncated group looks complete: a stream that ended in FIN carries, in
      order, every object the filter admitted among those offered from its first
      object to the place it ended at, all of one group; and it ended there because
      the source asked for an end at that very place, or because the next object
      offered is of a later group. A stream for no object is END_OF_TRACK's own. */
  lemma FinMeansWhole(l: Lane, sid: nat)
    requires Reachable(l) && sid < |l.d.streams| && l.d.streams[sid].state.Fin?
    ensures var st := l.d.streams[sid];
            && st.from <= st.to <= |l.h.offered|
            && (forall i :: st.from <= i < st.to ==> i in l.h.judged && l.h.offered[i].group == st.group)
            && (st.from < st.to ==> st.objs != [] && st.objs[0] == l.h.offered[st.from])
            && st.objs == Admitted(l.h, st.from, st.to)
    ensures var st := l.d.streams[sid];
            && (st.from < st.to ==> EndAt(l.h, st.to) || (st.to < |l.h.offered| && l.h.offered[st.to].group > st.group))
            && (st.from == st.to ==> st.objs == [] && exists p :: p in l.h.trackEnds && p <= st.to)
  {
    ReachableInv(l);
    assert Whole(l.d.streams[sid], l.h);
    var st := l.d.streams[sid];
    if st.from < st.to { AdmittedHead(l.h, st.from, st.to); }
  }

  /** The source asked for an end just before the object offered at `to`. */
  predicate EndAt(h: History, to: nat) { to in h.ends || to in h.trackEnds }

  lemma {:induction false} AdmittedHead(h: History, from: nat, to: nat)
    requires from < to <= |h.offered| && from in h.judged && h.judged[from]
    ensures var a := Admitted(h, from, to); a != [] && a[0] == h.offered[from]
  {
    if from + 1 < to { AdmittedHead(h, from, to - 1); }
  }

  /** The lane stays within its bound, and its counts are those of its queue. */
  lemma LaneBounded(l: Lane)
    requires Reachable(l)
    ensures var objs := Objs(l.q.items);
            && l.q.bytes + l.txBytes <= l.max
            && l.q.bytes == LiveBytes(objs) && l.q.replay == ReplayBytes(objs) && l.q.objects == Charged(objs)
            && forall o :: o in objs ==> !Below(o.group, l.floor)
  {
    ReachableInv(l);
  }

  /** `cut` is the presence of the one CUT item, at the queue's head, for as long
      as the writer task is there to act on it. */
  lemma CutIsAtHead(l: Lane)
    requires Reachable(l) && !l.ended
    ensures l.q.cut <==> l.q.items != [] && l.q.items[0].Cut?
    ensures forall i :: 0 < i < |l.q.items| ==> !l.q.items[i].Cut?
  {
    ReachableInv(l);
  }

  /** Writing through never reorders: the writer is given a subsequence of what
      was offered, and the queue holds the end of it. */
  lemma HandedInOfferOrder(l: Lane)
    requires Reachable(l)
    ensures IsSub(l.h.handed + Objs(l.q.items), l.h.offered) && IsSub(l.h.handed, l.h.offered)
  {
    ReachableInv(l);
    hide Objs;
    assert l.h.handed + (Objs(l.q.items) + []) == l.h.handed + Objs(l.q.items);
    IsSubDrop(l.h.handed, Objs(l.q.items), [], l.h.offered);
    assert l.h.handed + [] == l.h.handed;
  }

  /** Every verdict so far is the filter `passes`'s. */
  ghost predicate JudgedBy(l: Lane, passes: Filter)
  {
    l.passes == passes &&
    forall i :: i in l.h.judged ==>
      0 <= i < |l.h.offered| && l.h.judged[i] == passes(l.h.offered[i].group, l.h.offered[i].id)
  }

  lemma HandJudges(l: Lane, r: Lane, o: Object, at: nat, passes: Filter)
    requires JudgedBy(l, passes) && r.passes == l.passes
    requires at < |r.h.offered| && r.h.offered[at] == o && |l.h.offered| <= |r.h.offered|
    requires forall i :: 0 <= i < |l.h.offered| ==> r.h.offered[i] == l.h.offered[i]
    requires r.h.judged == l.h.judged[at := passes(o.group, o.id)]
    ensures JudgedBy(r, passes)
  {
  }

  lemma HeadOfferedAt(l: Lane)
    requires Inv(l)
    ensures l.q.items != [] && l.q.items[0].Obj? ==>
              0 <= Turn(l.q, l.h) < |l.h.offered| && l.h.offered[Turn(l.q, l.h)] == l.q.items[0].o
  {
    hide Objs, Ascending, EndsAsked;
    if l.q.items != [] && l.q.items[0].Obj? { PopObject(l.q, l.h); }
  }

  lemma StepJudges(l: Lane, ev: Event, passes: Filter)
    requires Inv(l) && Enabled(l, ev) && !ev.Filters? && JudgedBy(l, passes)
    ensures Fits(l.d) && JudgedBy(Step(l, ev), passes)
  {
    hide Inv, Turn, Offer, Put, Resume, ResetOpen, Stop, PeerStops, Take, Wake;
    InvFits(l);
    HeadOfferedAt(l);
    var r := Step(l, ev);
    match ev
    case Takes(expired, _) =>
      var x := l.q.items[0];
      if x.Obj? && l.gate && !expired { HandJudges(l, r, x.o, Turn(l.q, l.h), passes); }
    case Offers(o, _) =>
      if r.h != l.h && r.h != Note(l, o).h { HandJudges(l, r, o, |l.h.offered|, passes); }
    case _ =>
  }

  lemma {:induction false} RunJudges(l: Lane, run: seq<Event>, l': Lane, passes: Filter)
    requires Inv(l) && Reaches(l, run, l') && JudgedBy(l, passes)
    requires forall ev :: ev in run ==> !ev.Filters?
    ensures JudgedBy(l', passes)
    decreases run
  {
    hide Inv, Step, JudgedBy;
    if run != [] {
      StepKeeps(l, run[0]);
      StepJudges(l, run[0], passes);
      RunJudges(Step(l, run[0]), run[1..], l', passes);
    }
  }

  /** The objects of offered[from, to) that `passes` admits. */
  ghost function Passing(offered: seq<Object>, passes: Filter, from: nat, to: nat): seq<Object>
    requires to <= |offered|
  {
    if to <= from then []
    else
      var o := offered[to - 1];
      Passing(offered, passes, from, to - 1) + if passes(o.group, o.id) then [o] else []
  }

  lemma {:induction false} AdmittedPassing(l: Lane, passes: Filter, from: nat, to: nat)
    requires JudgedBy(l, passes) && to <= |l.h.offered|
    requires forall i :: from <= i < to ==> i in l.h.judged
    ensures Admitted(l.h, from, to) == Passing(l.h.offered, passes, from, to)
  {
    if from < to { AdmittedPassing(l, passes, from, to - 1); }
  }

  /** Under one filter throughout, a FINed stream carries exactly the objects
      that filter passes. */
  lemma FinMeansFiltered(max: nat, through: bool, passes: Filter, floor: Option<nat>, gate: bool, run: seq<Event>,
                         l: Lane, sid: nat)
    requires Reaches(Init(max, through, passes, floor, gate), run, l)
    requires forall ev :: ev in run ==> !ev.Filters?
    requires sid < |l.d.streams| && l.d.streams[sid].state.Fin?
    ensures var st := l.d.streams[sid];
            && st.from <= st.to <= |l.h.offered| && st.objs == Passing(l.h.offered, passes, st.from, st.to)
            && (st.from < st.to ==> EndAt(l.h, st.to) || (st.to < |l.h.offered| && l.h.offered[st.to].group > st.group))
  {
    var l0, st := Init(max, through, passes, floor, gate), l.d.streams[sid];
    InitInv(max, through, passes, floor, gate);
    RunJudges(l0, run, l, passes);
    assert Reachable(l);
    FinMeansWhole(l, sid);
    AdmittedPassing(l, passes, st.from, st.to);
  }
}
