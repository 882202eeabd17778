/** One object sequence to several peers, each behind its own lane: whatever
    mix of inline and queued sends, sheds and resumes each goes through, no two
    peers disagree about what they both got. */
module Fanout {
  import opened Basics
  import opened LaneSpec
  import opened LaneQueue
  import opened LaneProofs
  import opened LaneRuns
  import opened LaneSent
  import opened LaneObjects

  // ---- agreement ---------------------------------------------------------

  ghost predicate SameLocation(a: Object, b: Object) { a.group == b.group && a.id == b.id }

  ghost predicate DistinctLocations(s: seq<Object>)
  {
    forall i, j :: 0 <= i < j < |s| ==> !SameLocation(s[i], s[j])
  }

  /** `at` gives each element of `a` its place in `b`, in order. */
  ghost predicate Embeds(a: seq<Object>, b: seq<Object>, at: seq<nat>)
  {
    && |at| == |a|
    && (forall i :: 0 <= i < |a| ==> at[i] < |b| && a[i] == b[at[i]])
    && (forall i, j :: 0 <= i < j < |a| ==> at[i] < at[j])
  }

  lemma {:induction false} SubEmbeds(a: seq<Object>, b: seq<Object>) returns (at: seq<nat>)
    requires IsSub(a, b)
    ensures Embeds(a, b, at)
  {
    if a == [] {
      at := [];
    } else {
      var b' := b[..|b| - 1];
      if a[|a| - 1] == b[|b| - 1] && IsSub(a[..|a| - 1], b') {
        at := SubEmbeds(a[..|a| - 1], b');
        at := at + [|b| - 1];
      } else {
        at := SubEmbeds(a, b');
      }
    }
  }

  /** The lane was offered the objects published from place `from` on. */
  ghost predicate Feeds(published: seq<Object>, from: nat, offered: seq<Object>)
  {
    from + |offered| <= |published| && offered == published[from..from + |offered|]
  }

  lemma HandedEmbeds(l: Lane, published: seq<Object>, from: nat) returns (at: seq<nat>)
    requires Inv(l) && Feeds(published, from, l.h.offered)
    ensures Embeds(l.h.handed, published, at)
  {
    hide Inv, IsSub;
    HandedIsSub(l);
    var rel := SubEmbeds(l.h.handed, l.h.offered);
    at := seq(|rel|, i requires 0 <= i < |rel| => from + rel[i]);
  }

  lemma HandedIsSub(l: Lane)
    requires Inv(l)
    ensures IsSub(l.h.handed, l.h.offered)
  {
    hide Objs;
    assert l.h.handed + (Objs(l.q.items) + []) == l.h.handed + Objs(l.q.items);
    IsSubDrop(l.h.handed, Objs(l.q.items), [], l.h.offered);
    assert l.h.handed + [] == l.h.handed;
  }

  /** An object both were handed is the same object, and any two such objects
      came in the same order. */
  ghost predicate Agree(a: seq<Object>, b: seq<Object>)
  {
    && (forall i, k :: 0 <= i < |a| && 0 <= k < |b| && SameLocation(a[i], b[k]) ==> a[i] == b[k])
    && (forall i, j, k, m ::
          (0 <= i < j < |a| && 0 <= k < |b| && 0 <= m < |b| && SameLocation(a[i], b[k]) && SameLocation(a[j], b[m]))
          ==> k < m)
  }

  lemma EmbeddedAgree(a: seq<Object>, b: seq<Object>, published: seq<Object>, atA: seq<nat>, atB: seq<nat>)
    requires Embeds(a, published, atA) && Embeds(b, published, atB) && DistinctLocations(published)
    ensures Agree(a, b)
  {
    forall i, k | 0 <= i < |a| && 0 <= k < |b| && SameLocation(a[i], b[k])
      ensures atA[i] == atB[k]
    {
      assert SameLocation(published[atA[i]], published[atB[k]]);
    }
  }

  // ---- the fan-out -----------------------------------------------------------

  /** What a lane still takes is offered to it. */
  ghost predicate Fed(published: seq<Object>, from: nat, l: Lane)
  {
    && Feeds(published, from, l.h.offered)
    && (!l.stopped && !l.final ==> from + |l.h.offered| == |published|)
  }

  lemma OfferFeeds(l: Lane, o: Object, e: Env, published: seq<Object>, from: nat)
    requires Fits(l.d) && Fed(published, from, l)
    ensures Fed(published + [o], from, Offer(l, o, e))
  {
    hide Offer;
    var r := Offer(l, o, e);
    assert l.h.offered + [o] == (published + [o])[from..from + |l.h.offered + [o]|] || l.stopped || l.final;
  }

  datatype Member = Member(from: nat, lane: Lane)

  /** The objects published so far, the group of the last, and the peers. */
  datatype Fan = Fan(published: seq<Object>, group: Option<nat>, members: seq<Member>)

  datatype FanEvent =
    | Writes(o: Object, es: seq<Env>)
    | Joins(max: nat, through: bool, passes: Filter, gate: bool, joining: bool)
    | Acts(i: nat, ev: Event)

  /** A lane attached now; `joining` holds it to the next group boundary. */
  function Joined(f: Fan, max: nat, through: bool, passes: Filter, gate: bool, joining: bool): Lane
  {
    Init(max, through, passes, if joining && f.group.Some? then Some(f.group.value + 1) else None, gate)
  }

  /** The source publishes groups in order under fresh Locations. */
  ghost predicate MayWrite(f: Fan, o: Object)
  {
    && Ascending(f.published + [o]) && DistinctLocations(f.published + [o])
    && (forall i :: 0 <= i < |f.members| ==>
          var l := f.members[i].lane; l.stopped || l.final || l.h.top <= o.group)
  }

  ghost predicate FanEnabled(f: Fan, ev: FanEvent)
  {
    match ev
    case Writes(o, es) => MayWrite(f, o) && |es| == |f.members|
    case Joins(_, _, _, _, _) => true
    case Acts(i, ev) => i < |f.members| && !ev.Offers? && Enabled(f.members[i].lane, ev)
  }

  ghost predicate FansFit(f: Fan) { forall i :: 0 <= i < |f.members| ==> Fits(f.members[i].lane.d) }

  ghost function FanStep(f: Fan, ev: FanEvent): Fan
    requires FansFit(f) && FanEnabled(f, ev)
  {
    match ev
    case Writes(o, es) =>
      Fan(f.published + [o], Some(o.group),
          seq(|f.members|, i requires 0 <= i < |f.members| =>
                Member(f.members[i].from, Offer(f.members[i].lane, o, es[i]))))
    case Joins(max, through, passes, gate, joining) =>
      f.(members := f.members + [Member(|f.published|, Joined(f, max, through, passes, gate, joining))])
    case Acts(i, ev) =>
      f.(members := f.members[i := Member(f.members[i].from, Step(f.members[i].lane, ev))])
  }

  ghost predicate FanInv(f: Fan)
  {
    && Ascending(f.published) && DistinctLocations(f.published)
    && forall i :: 0 <= i < |f.members| ==> MemberOk(f.published, f.members[i])
  }

  lemma SegmentMayOffer(published: seq<Object>, from: nat, l: Lane, o: Object)
    requires Ascending(published + [o]) && Feeds(published, from, l.h.offered)
    requires from + |l.h.offered| == |published| && l.h.top <= o.group
    ensures MayOffer(l, o)
  {
    var all, mine := published + [o], l.h.offered + [o];
    assert forall i :: 0 <= i < |mine| ==> mine[i] == all[from + i];
    forall i | 0 < i < |mine|
      ensures mine[i].start <==> mine[i - 1].group < mine[i].group
    {
      assert mine[i - 1] == all[from + i - 1];
    }
  }

  lemma ActFed(l: Lane, ev: Event, published: seq<Object>, from: nat)
    requires Fits(l.d) && Enabled(l, ev) && !ev.Offers? && Fed(published, from, l)
    ensures Fed(published, from, Step(l, ev))
  {
    hide ResetStream, Take, Wake, Resume, PeerStops, CanTake, Turn;
  }

  lemma FanFits(f: Fan)
    requires FanInv(f)
    ensures FansFit(f)
  {
    hide Inv;
    forall i | 0 <= i < |f.members|
      ensures Fits(f.members[i].lane.d)
    {
      InvFits(f.members[i].lane);
    }
  }

  ghost predicate MemberOk(published: seq<Object>, m: Member)
  {
    Inv(m.lane) && Fed(published, m.from, m.lane) && SentOk(m.lane)
  }

  lemma WritesKeeps(f: Fan, o: Object, es: seq<Env>)
    requires FanInv(f) && FansFit(f) && FanEnabled(f, Writes(o, es))
    ensures FanInv(FanStep(f, Writes(o, es)))
  {
    hide Inv, Fed, Offer, SentOk;
    forall i | 0 <= i < |f.members|
      ensures var m := f.members[i]; MemberOk(f.published + [o], Member(m.from, Offer(m.lane, o, es[i])))
    {
      OfferedOk(f.published, f.members[i], o, es[i]);
    }
  }

  lemma OfferedOk(published: seq<Object>, m: Member, o: Object, e: Env)
    requires MemberOk(published, m) && Fits(m.lane.d) && Ascending(published + [o])
    requires m.lane.stopped || m.lane.final || m.lane.h.top <= o.group
    ensures MemberOk(published + [o], Member(m.from, Offer(m.lane, o, e)))
  {
    hide Inv, Fed, Offer, SentOk;
    MemberMayOffer(published, m.from, m.lane, o);
    OfferKeeps(m.lane, o, e);
    OfferFeeds(m.lane, o, e, published, m.from);
    OfferSent(m.lane, o, e);
  }

  lemma ActsKeeps(f: Fan, i: nat, ev: Event)
    requires FanInv(f) && FansFit(f) && FanEnabled(f, Acts(i, ev))
    ensures FanInv(FanStep(f, Acts(i, ev)))
  {
    hide Inv, Fed, Step, Ascending, DistinctLocations, Enabled, SentOk;
    StepKeeps(f.members[i].lane, ev);
    StepSent(f.members[i].lane, ev);
    ActFed(f.members[i].lane, ev, f.published, f.members[i].from);
  }

  lemma FanStepKeeps(f: Fan, ev: FanEvent)
    requires FanInv(f) && FanEnabled(f, ev)
    ensures FansFit(f) && FanInv(FanStep(f, ev))
  {
    hide Inv, Fed, Step, Init, Ascending, DistinctLocations, Enabled, FansFit, SentOk;
    FanFits(f);
    match ev
    case Writes(o, es) => WritesKeeps(f, o, es);
    case Joins(max, through, passes, gate, joining) =>
      var l := Joined(f, max, through, passes, gate, joining);
      InitInv(max, through, passes, l.floor, gate);
      InitSent(max, through, passes, l.floor, gate);
      InitFed(f, max, through, passes, gate, joining);
    case Acts(i, ev) => ActsKeeps(f, i, ev);
  }

  lemma MemberMayOffer(published: seq<Object>, from: nat, l: Lane, o: Object)
    requires Ascending(published + [o]) && Fed(published, from, l) && (l.stopped || l.final || l.h.top <= o.group)
    ensures l.stopped || l.final || MayOffer(l, o)
  {
    hide Ascending;
    if !l.stopped && !l.final { SegmentMayOffer(published, from, l, o); }
  }

  lemma InitFed(f: Fan, max: nat, through: bool, passes: Filter, gate: bool, joining: bool)
    ensures Fed(f.published, |f.published|, Joined(f, max, through, passes, gate, joining))
    ensures Joined(f, max, through, passes, gate, joining)
            == Init(max, through, passes, Joined(f, max, through, passes, gate, joining).floor, gate)
  {
  }

  ghost predicate FanReaches(f: Fan, run: seq<FanEvent>, f': Fan)
    decreases run
  {
    if run == [] then f' == f
    else FansFit(f) && FanEnabled(f, run[0]) && FanReaches(FanStep(f, run[0]), run[1..], f')
  }

  lemma {:induction false} FanRunKeeps(f: Fan, run: seq<FanEvent>, f': Fan)
    requires FanInv(f) && FanReaches(f, run, f')
    ensures FanInv(f')
    decreases run
  {
    hide FanInv, FanStep;
    if run != [] {
      FanStepKeeps(f, run[0]);
      FanRunKeeps(FanStep(f, run[0]), run[1..], f');
    }
  }

  lemma StreamEmbeds(l: Lane, published: seq<Object>, from: nat, sid: nat) returns (at: seq<nat>)
    requires Inv(l) && SentOk(l) && Feeds(published, from, l.h.offered) && sid < |l.d.streams|
    ensures Embeds(l.d.streams[sid].objs, published, at)
  {
    hide Inv, SentOk, IsSub;
    CarriesHanded(l, sid);
    var inner := SubEmbeds(l.d.streams[sid].objs, l.h.handed);
    var outer := HandedEmbeds(l, published, from);
    at := seq(|inner|, i requires 0 <= i < |inner| => outer[inner[i]]);
  }

  /** However the peers of a fan-out join, stall, shed, gate and resume, any two
      agree on the objects both were handed: the same payload under the same
      Location, and in the same order. */
  lemma PeersAgree(run: seq<FanEvent>, f: Fan, i: nat, j: nat)
    requires FanReaches(Fan([], None, []), run, f) && i < |f.members| && j < |f.members|
    ensures Agree(f.members[i].lane.h.handed, f.members[j].lane.h.handed)
  {
    FanRunKeeps(Fan([], None, []), run, f);
    hide Inv, Agree, SentOk;
    var a, b := f.members[i], f.members[j];
    var atA := HandedEmbeds(a.lane, f.published, a.from);
    var atB := HandedEmbeds(b.lane, f.published, b.from);
    EmbeddedAgree(a.lane.h.handed, b.lane.h.handed, f.published, atA, atB);
  }

  /** And so do any two streams of theirs, whatever became of them: what both peers
      got of an object is the same object, and two that both streams carry came in
      the same order. */
  lemma StreamsAgree(run: seq<FanEvent>, f: Fan, i: nat, j: nat, s: nat, t: nat)
    requires FanReaches(Fan([], None, []), run, f) && i < |f.members| && j < |f.members|
    requires s < |f.members[i].lane.d.streams| && t < |f.members[j].lane.d.streams|
    ensures Agree(f.members[i].lane.d.streams[s].objs, f.members[j].lane.d.streams[t].objs)
  {
    FanRunKeeps(Fan([], None, []), run, f);
    hide Inv, Agree, SentOk;
    var a, b := f.members[i], f.members[j];
    var atA := StreamEmbeds(a.lane, f.published, a.from, s);
    var atB := StreamEmbeds(b.lane, f.published, b.from, t);
    EmbeddedAgree(a.lane.d.streams[s].objs, b.lane.d.streams[t].objs, f.published, atA, atB);
  }

  // ---- the fan-out as an object ---------------------------------------------------

  class FanoutDelivery {
    const maxBytes: nat
    var lanes: seq<SendLane>
    var group: Option<nat>            // of the last object written
    ghost var published: seq<Object>
    ghost var joined: seq<nat>        // how much was published when each lane came

    ghost function Writers(): set<object>
      reads this
    {
      set l | l in lanes :: l.writer
    }

    ghost predicate Apart()
      reads this`lanes
    {
      forall i, j :: 0 <= i < j < |lanes| ==> lanes[i] != lanes[j] && lanes[i].writer != lanes[j].writer
    }

    ghost function MemberAt(i: nat): Member
      requires |joined| == |lanes| && i < |lanes|
      reads this, lanes, Writers()
    {
      Member(joined[i], lanes[i].View())
    }

    ghost predicate Valid()
      reads this, lanes, Writers()
    {
      && |joined| == |lanes| && Apart() && Ascending(published) && DistinctLocations(published)
      && forall i :: 0 <= i < |lanes| ==> lanes[i].writer.Valid() && MemberOk(published, MemberAt(i))
    }

    constructor (maxBytes: nat)
      ensures Valid() && lanes == [] && published == [] && group == None && this.maxBytes == maxBytes
    {
      this.maxBytes, lanes, group, published, joined := maxBytes, [], None, [], [];
    }

    /** Attach another peer; `joining` holds it to the next group boundary. */
    method Add(writer: SubgroupDelivery, through: bool, gate: bool, joining: bool) returns (lane: SendLane)
      requires Valid() && writer.Valid() && writer.View() == Delivery(None, None, 0, [], [])
      requires writer !in Writers()
      modifies this
      ensures Valid() && fresh(lane) && lane.writer == writer && lanes == old(lanes) + [lane]
      ensures joined == old(joined) + [|published|] && published == old(published) && group == old(group)
      ensures lane.View() == Init(maxBytes, through, writer.passes,
                                  if joining && group.Some? then Some(group.value + 1) else None, gate)
    {
      hide MemberOk, Ascending, DistinctLocations, Init, SendLane.Valid, SendLane.View, Inv;
      var floor := if joining && group.Some? then Some(group.value + 1) else None;
      lane := new SendLane(writer, maxBytes, through, floor, gate);
      StartOk(published, maxBytes, through, writer.passes, floor, gate);
      lanes, joined := lanes + [lane], joined + [|published|];
    }

    static method OfferTo(l: SendLane, ghost from: nat, ghost published: seq<Object>, o: Object, e: Env)
      requires l.writer.Valid() && MemberOk(published, Member(from, l.View()))
      requires Ascending(published + [o]) && (l.View().stopped || l.View().final || l.View().h.top <= o.group)
      modifies l, l.writer
      ensures Fits(old(l.View()).d) && l.View() == Offer(old(l.View()), o, e)
      ensures l.writer.Valid() && MemberOk(published + [o], Member(from, l.View()))
    {
      hide Ascending, Inv, Fed, Offer, MayOffer;
      MemberMayOffer(published, from, l.View(), o);
      InvFits(l.View());
      OfferedOk(published, Member(from, l.View()), o, e);
      l.Offer(o, e);
    }

    lemma OthersApart(i: nat)
      requires Apart() && i < |lanes|
      ensures forall j :: 0 <= j < |lanes| && j != i ==> lanes[j] != lanes[i] && lanes[j].writer != lanes[i].writer
    {
    }

    /** The next object, to every lane. */
    method Write(o: Object, es: seq<Env>)
      requires Valid() && |es| == |lanes|
      requires Ascending(published + [o]) && DistinctLocations(published + [o])
      requires forall i :: 0 <= i < |lanes| ==>
                 var l := lanes[i].View(); l.stopped || l.final || l.h.top <= o.group
      modifies this, lanes, Writers()
      ensures Valid() && lanes == old(lanes) && joined == old(joined)
      ensures published == old(published) + [o] && group == Some(o.group)
      ensures forall i :: 0 <= i < |lanes| ==>
                Fits(old(lanes[i].View()).d) && lanes[i].View() == Offer(old(lanes[i].View()), o, es[i])
    {
      hide Apart, Ascending, DistinctLocations, MemberOk, Offer, SendLane.View, SubgroupDelivery.Valid;
      group := Some(o.group);
      published := published + [o];
      for i := 0 to |lanes|
        invariant lanes == old(lanes) && joined == old(joined) && |joined| == |lanes|
        invariant published == old(published) + [o] && group == Some(o.group)
        invariant forall j :: 0 <= j < i ==>
                    && Fits(old(lanes[j].View()).d) && lanes[j].View() == Offer(old(lanes[j].View()), o, es[j])
                    && lanes[j].writer.Valid() && MemberOk(published, MemberAt(j))
        invariant forall j :: i <= j < |lanes| ==>
                    lanes[j].View() == old(lanes[j].View()) && lanes[j].writer.Valid()
      {
        var l := lanes[i];
        assert MemberOk(old(published), old(MemberAt(i)));
        OthersApart(i);
        OfferTo(l, joined[i], old(published), o, es[i]);
      }
    }
  }

  lemma StartOk(published: seq<Object>, max: nat, through: bool, passes: Filter, floor: Option<nat>, gate: bool)
    ensures MemberOk(published, Member(|published|, Init(max, through, passes, floor, gate)))
  {
    hide Inv, SentOk;
    InitInv(max, through, passes, floor, gate);
    InitSent(max, through, passes, floor, gate);
  }
}
