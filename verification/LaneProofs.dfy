/** What every run of a send lane keeps: a stream that ends in FIN is whole. */
module LaneProofs {
  import opened Basics
  import opened LaneSpec
  import opened LaneQueue

  // ---- the claim -------------------------------------------------------

  /** The objects offered at [from, to) that the filter admitted at their turn. */
  ghost function Admitted(h: History, from: nat, to: nat): seq<Object>
    requires to <= |h.offered|
  {
    if to <= from then []
    else Admitted(h, from, to - 1) + if to - 1 in h.judged && h.judged[to - 1] then [h.offered[to - 1]] else []
  }

  /** `objs` is, in order, exactly the admitted objects offered at [from, to),
      every one of which belongs to `group` and has had its turn. */
  ghost predicate Carries(group: nat, from: nat, objs: seq<Object>, h: History, to: int)
  {
    && from <= to <= |h.offered|
    && (forall i :: from <= i < to ==> i in h.judged && h.offered[i].group == group)
    && (from < to ==> h.judged[from])
    && objs == Admitted(h, from, to)
  }

  /** Where a FIN may fall: just where the source asked for an end, or at an object
      of a later group; a stream for no object only marks the end of the track. */
  ghost predicate MayEnd(group: nat, from: nat, h: History, to: nat)
  {
    if from < to then
      to in h.ends || to in h.trackEnds || (to < |h.offered| && h.offered[to].group > group)
    else exists p :: p in h.trackEnds && p <= to
  }

  ghost predicate Whole(st: Stream, h: History)
  {
    st.state.Fin? ==> Carries(st.group, st.from, st.objs, h, st.to) && MayEnd(st.group, st.from, h, st.to)
  }

  ghost predicate FinsWhole(d: Delivery, h: History) { forall i :: 0 <= i < |d.streams| ==> Whole(d.streams[i], h) }

  // ---- the invariant --------------------------------------------------

  ghost predicate AboveFloor(q: Queue, floor: Option<nat>) { floor.Some? ==> NoneBelow(Objs(q.items), floor.value) }

  ghost predicate Named(d: Delivery, h: History)
  {
    && (forall o :: o in h.offered ==> o.group <= h.top)
    && (forall t :: t in d.tx ==> t.group <= h.top)
    && (d.open.Some? ==> d.open.value.group <= h.top)
  }

  ghost predicate StreamsFit(d: Delivery)
  {
    && Fits(d)
    && (d.open.Some? ==>
          && var st := d.streams[d.open.value.sid];
          && !st.state.Fin? && st.group == d.open.value.group && d.stopped != Some(st.group))
  }

  /** The stopped group had an object before this turn. */
  ghost predicate StopSeen(stopped: Option<nat>, q: Queue, h: History)
  {
    stopped.Some? ==> exists j :: 0 <= j < Turn(q, h) <= |h.offered| && h.offered[j].group == stopped.value
  }

  /** The open stream: either it carries everything admitted since its first
      object, or a CUT is about to reset it. */
  ghost predicate OpenOk(d: Delivery, q: Queue, h: History, floor: Option<nat>, phase: Phase)
    requires StreamsFit(d)
  {
    d.open.Some? ==>
      if Below(d.open.value.group, floor) then q.cut
      else
        var st := d.streams[d.open.value.sid];
        var at := if phase.Idle? then Turn(q, h) else Turn(q, h) - 1;
        Carries(st.group, st.from, st.objs, h, at) && (phase.Idle? ==> st.from < at)
  }

  ghost predicate PhaseOk(d: Delivery, q: Queue, h: History, floor: Option<nat>, phase: Phase)
  {
    !phase.Idle? ==>
      && phase.epoch <= d.epoch
      && d.stopped != Some(phase.o.group)
      && 1 <= Turn(q, h) <= |h.offered|
      && (exists j :: 0 <= j < Turn(q, h) && h.offered[j] == phase.o)
      && (phase.epoch < d.epoch ==> d.open.None?)
      && (phase.epoch == d.epoch ==>
            && (phase.Opening? <==> d.open.None?)
            && (d.open.Some? ==> d.open.value.group == phase.o.group)
            && (if Below(phase.o.group, floor) then q.cut
                else h.offered[Turn(q, h) - 1] == phase.o
                     && Turn(q, h) - 1 in h.judged && h.judged[Turn(q, h) - 1]))
  }

  /** The lane's streams, while its writer task lives. */
  ghost predicate WriterOk(d: Delivery, q: Queue, h: History, floor: Option<nat>, phase: Phase)
    requires StreamsFit(d)
  {
    StopSeen(d.stopped, q, h) && OpenOk(d, q, h, floor, phase) && PhaseOk(d, q, h, floor, phase)
    && CutAtHead(q)
  }

  ghost predicate Core(l: Lane)
  {
    && QueueOk(l.q, l.h) && AboveFloor(l.q, l.floor) && Named(l.d, l.h) && FinsWhole(l.d, l.h)
    && StreamsFit(l.d)
    && (if l.ended then l.phase.Idle? else !l.stopped && WriterOk(l.d, l.q, l.h, l.floor, l.phase))
  }

  /** No more is queued, and no backlog was read. */
  ghost predicate NoHeavier(l: Lane, l': Lane)
  {
    l'.q.bytes <= l.q.bytes && l'.txBytes == l.txBytes && l'.max == l.max
  }

  ghost predicate Inv(l: Lane) { Core(l) && l.q.bytes + l.txBytes <= l.max }

  lemma InitInv(max: nat, through: bool, passes: Filter, floor: Option<nat>, gate: bool)
    ensures Inv(Init(max, through, passes, floor, gate))
  {
    NoObjs();
  }

  // ---- resets -----------------------------------------------------------

  ghost predicate Wiped(was: seq<Stream>, now: seq<Stream>)
  {
    |was| == |now| &&
    forall i :: 0 <= i < |was| ==> now[i] == was[i] || now[i] == was[i].(state := Reset)
  }

  lemma {:induction false} WipeBelowWipes(streams: seq<Stream>, tx: seq<OpenStream>, floor: nat, used: Backlog)
    requires forall t :: t in tx ==> t.sid < |streams|
    ensures Wiped(streams, WipeBelow(streams, tx, floor, used))
    decreases tx
  {
    if tx != [] {
      var gone := tx[0].group < floor && used(tx[0].sid) > 0;
      WipeBelowWipes(if gone then Wipe(streams, tx[0].sid) else streams, tx[1..], floor, used);
    }
  }

  /** The delivery after resets only: nothing new, some streams wiped. */
  ghost predicate OnlyReset(d: Delivery, d': Delivery)
  {
    && Wiped(d.streams, d'.streams)
    && (forall t :: t in d'.tx ==> t in d.tx)
    && d'.stopped == d.stopped
    && ((d'.open.None? && d'.epoch > d.epoch) || (d'.open == d.open && d'.epoch == d.epoch))
  }

  lemma ResetBelowResets(d: Delivery, floor: nat, used: Backlog)
    requires Fits(d)
    ensures var d' := ResetBelow(d, floor, used);
            OnlyReset(d, d') && (d'.open.Some? ==> d'.open.value.group >= floor)
  {
    var d1 := if d.open.Some? && d.open.value.group < floor then ResetStream(d) else d;
    WipeBelowWipes(d1.streams, d1.tx, floor, used);
  }

  /** Resetting streams breaks nothing. */
  lemma ResetKeeps(l: Lane, d: Delivery)
    requires Core(l) && OnlyReset(l.d, d)
    ensures Core(l.(d := d))
  {
    hide Objs, Kept, IsSub, LiveBytes, ReplayBytes, Charged, Carries, Admitted, EndsAsked, MayEnd;
  }

  /** With nothing open and no write that could open, the floor may rise. */
  ghost predicate Quiet(l: Lane)
  {
    l.d.open.None? && (l.phase.Idle? || l.phase.epoch < l.d.epoch)
  }

  lemma ResetOpenKeeps(l: Lane)
    requires Core(l)
    ensures Core(ResetOpen(l)) && Quiet(ResetOpen(l))
  {
    hide Objs, Kept, IsSub, LiveBytes, ReplayBytes, Charged, Carries, Admitted, EndsAsked, MayEnd;
    ResetKeeps(l, ResetStream(l.d));
  }

  lemma TrimQuiet(l: Lane, floor: nat, resets: bool)
    requires Core(l) && Quiet(l)
    ensures var l' := l.(q := Trim(l.q, floor, resets));
            Core(l') && Quiet(l') && NoneBelow(Objs(l'.q.items), floor) && l'.q.bytes <= l.q.bytes
  {
    hide Objs, Kept, IsSub, LiveBytes, ReplayBytes, Charged, Carries, Admitted, EndsAsked, MayEnd;
    TrimKeeps(l.q, l.h, floor, resets);
    if !l.ended { TrimCut(l.q, floor, resets); }
  }

  lemma FloorQuiet(l: Lane, floor: nat)
    requires Core(l) && Quiet(l) && NoneBelow(Objs(l.q.items), floor)
    ensures Core(l.(floor := Some(floor)))
  {
    hide Objs, Kept, IsSub, LiveBytes, ReplayBytes, Charged, Carries, Admitted, EndsAsked, MayEnd;
  }

  lemma SkipKeeps(l: Lane, group: nat)
    requires Core(l) && Quiet(l)
    ensures Core(Skip(l, group)) && Quiet(Skip(l, group)) && NoHeavier(l, Skip(l, group))
  {
    hide Objs, Kept, IsSub, LiveBytes, ReplayBytes, Charged, Carries, Admitted, EndsAsked, MayEnd, QueueOk;
    TrimQuiet(l, group + 1, false);
    FloorQuiet(l.(q := Trim(l.q, group + 1, false)), group + 1);
  }

  /** A failed write resets the open stream and leaves nothing of its group, or of
      one before it, queued or to be queued. */
  lemma FailedKeeps(l: Lane, group: nat)
    requires Core(l)
    ensures var r := Failed(l, group);
            && Core(r) && NoHeavier(l, r) && r.d.open.None? && r.lost == Some(group)
            && NoneBelow(Objs(r.q.items), group + 1) && r.floor.Some? && r.floor.value >= group + 1
    ensures l.d.open.Some? ==>
              && l.d.open.value.sid < |Failed(l, group).d.streams|
              && Failed(l, group).d.streams[l.d.open.value.sid].state.Reset?
  {
    hide Core, Objs, ResetStream, Trim;
    CoreFits(l);
    OpenReset(l.d);
    ResetOpenKeeps(l);
    SkipKeeps(ResetOpen(l), group);
    LostKeeps(Skip(ResetOpen(l), group), Some(group));
    SkippedNone(Skip(ResetOpen(l), group));
  }

  lemma OpenReset(d: Delivery)
    requires Fits(d)
    ensures d.open.Some? ==>
              d.open.value.sid < |ResetStream(d).streams| && ResetStream(d).streams[d.open.value.sid].state.Reset?
  {
  }

  lemma SkippedNone(l: Lane)
    requires Core(l)
    ensures l.floor.Some? ==> NoneBelow(Objs(l.q.items), l.floor.value)
  {
    hide Objs;
  }

  // ---- the source's calls --------------------------------------------------

  lemma ResumeKeeps(l: Lane, group: nat, rejoin: bool)
    requires Inv(l)
    ensures Inv(Resume(l, group, rejoin))
  {
    hide Objs, Kept, IsSub, LiveBytes, ReplayBytes, Charged, Carries, Admitted, EndsAsked, MayEnd;
    if !l.stopped && !l.final {
      ResetOpenKeeps(l);
      TrimQuiet(ResetOpen(l), group + 1, true);
      var l1 := ResetOpen(l).(q := Trim(l.q, group + 1, true));
      if !rejoin || l1.lost == Some(group) {
        SkipKeeps(l1, group);
      } else if l1.floor == Some(group + 1) {
        FloorQuiet(l1, group);
      }
    }
  }

  lemma PutKeepsInv(l: Lane, x: Item)
    requires Inv(l) && !x.Obj? && !x.Cut?
    ensures Inv(Put(l, x))
  {
    hide Objs, Kept, IsSub, LiveBytes, ReplayBytes, Charged, Carries, Admitted, EndsAsked, MayEnd, Ascending;
    if !l.stopped && !l.final && !(x.Close? && l.closing) {
      PutKeeps(l.q, l.h, x);
      FinsStable(l.d, l.h, Ending(l.h, x));
      if !l.ended { PutWriterOk(l, x); }
    }
  }

  lemma PutWriterOk(l: Lane, x: Item)
    requires Core(l) && !l.ended && !x.Obj? && !x.Cut?
    requires QueueOk(l.q.(items := l.q.items + [x]), Ending(l.h, x))
    requires Objs(l.q.items + [x]) == Objs(l.q.items)
    ensures WriterOk(l.d, l.q.(items := l.q.items + [x]), Ending(l.h, x), l.floor, l.phase)
  {
    hide Objs, Kept, IsSub, LiveBytes, ReplayBytes, Charged, Carries, Admitted, EndsAsked, MayEnd, Ascending;
    if l.d.open.Some? && !Below(l.d.open.value.group, l.floor) {
      var st := l.d.streams[l.d.open.value.sid];
      var at := if l.phase.Idle? then Turn(l.q, l.h) else Turn(l.q, l.h) - 1;
      CarriesStable(st.group, st.from, st.objs, l.h, Ending(l.h, x), at);
    }
  }

  lemma StopKeeps(l: Lane)
    requires Inv(l)
    ensures Inv(Stop(l))
  {
    assert Objs([]) == [];
    hide Objs, Kept, IsSub, LiveBytes, ReplayBytes, Charged, Carries, Admitted, EndsAsked, MayEnd;
    ClearKeeps(l.q, l.h);
  }

  // ---- what streams carry ----------------------------------------------------

  ghost predicate Extends(h: History, h': History)
  {
    && |h.offered| <= |h'.offered|
    && (forall i :: 0 <= i < |h.offered| ==> h'.offered[i] == h.offered[i])
    && (forall i :: i in h.judged ==> i in h'.judged && h'.judged[i] == h.judged[i])
    && h.ends <= h'.ends && h.trackEnds <= h'.trackEnds
  }

  lemma {:induction false} AdmittedStable(h: History, h': History, from: nat, to: nat)
    requires to <= |h.offered| && Extends(h, h')
    requires forall i :: from <= i < to ==> i in h.judged
    ensures Admitted(h, from, to) == Admitted(h', from, to)
  {
    if from < to {
      AdmittedStable(h, h', from, to - 1);
    }
  }

  lemma CarriesStable(group: nat, from: nat, objs: seq<Object>, h: History, h': History, to: int)
    requires Carries(group, from, objs, h, to) && Extends(h, h')
    ensures Carries(group, from, objs, h', to)
  {
    AdmittedStable(h, h', from, to);
    hide Admitted;
  }

  lemma EndStable(group: nat, from: nat, h: History, h': History, to: nat)
    requires MayEnd(group, from, h, to) && Extends(h, h')
    ensures MayEnd(group, from, h', to)
  {
  }

  lemma FinsStable(d: Delivery, h: History, h': History)
    requires FinsWhole(d, h) && Extends(h, h')
    ensures FinsWhole(d, h')
  {
    hide Carries, Admitted, MayEnd;
    forall i | 0 <= i < |d.streams|
      ensures Whole(d.streams[i], h')
    {
      var st := d.streams[i];
      if st.state.Fin? {
        CarriesStable(st.group, st.from, st.objs, h, h', st.to);
        assert MayEnd(st.group, st.from, h, st.to);
        EndStable(st.group, st.from, h, h', st.to);
      }
    }
  }

  /** The next object's turn, on the stream it belongs to. */
  lemma CarriesNext(group: nat, from: nat, objs: seq<Object>, h: History, at: nat)
    requires Carries(group, from, objs, h, at) && at < |h.offered| && at in h.judged
    requires h.offered[at].group == group && (from == at ==> h.judged[at])
    ensures Carries(group, from, if h.judged[at] then objs + [h.offered[at]] else objs, h, at + 1)
  {
    assert Admitted(h, from, at + 1) == Admitted(h, from, at) + if h.judged[at] then [h.offered[at]] else [];
    hide Admitted;
  }

  /** An object without group_start is of the group before it. */
  lemma SameGroup(h: History, from: nat, at: nat, group: nat)
    requires Ascending(h.offered) && from < at < |h.offered| && !h.offered[at].start
    requires forall i :: from <= i < at ==> h.offered[i].group == group
    ensures h.offered[at].group == group
  {
    assert h.offered[at - 1].group <= h.offered[at].group;
  }

  /** FIN of a stream that carries everything before the turn. */
  lemma EndStreamKeeps(d: Delivery, h: History, to: nat)
    requires StreamsFit(d) && FinsWhole(d, h) && Named(d, h)
    requires d.open.Some? ==>
               var st := d.streams[d.open.value.sid];
               Carries(st.group, st.from, st.objs, h, to) && MayEnd(st.group, st.from, h, to)
    ensures var d' := EndStream(d, to);
            && StreamsFit(d') && FinsWhole(d', h) && Named(d', h)
            && d'.open.None? && d'.epoch == d.epoch && d'.stopped == d.stopped
  {
    hide Carries, Admitted, MayEnd;
  }

  // ---- the writer task ----------------------------------------------------------

  /** The lane as the writer task finds it when it takes the head `x`. */
  ghost predicate AtTurn(l: Lane)
  {
    Core(l) && CanTake(l) && !l.q.items[0].Cut?
  }

  lemma AtTurnOpen(l: Lane)
    requires AtTurn(l) && l.d.open.Some?
    ensures var st := l.d.streams[l.d.open.value.sid];
            Carries(st.group, st.from, st.objs, l.h, Turn(l.q, l.h)) && st.from < Turn(l.q, l.h)
  {
    hide Objs, Kept, IsSub, LiveBytes, ReplayBytes, Charged, Carries, Admitted, EndsAsked, MayEnd;
  }

  /** The open stream may end at this turn. */
  ghost predicate EndDue(l: Lane)
    requires StreamsFit(l.d)
  {
    l.d.open.Some? ==>
      var st := l.d.streams[l.d.open.value.sid];
      0 <= Turn(l.q, l.h) && MayEnd(st.group, st.from, l.h, Turn(l.q, l.h))
  }

  lemma AtTurnFits(l: Lane)
    requires AtTurn(l)
    ensures StreamsFit(l.d)
  {
  }

  /** An end asked for stands at this very turn: what the stream carries before it
      all had its turn. */
  lemma AskedDue(l: Lane)
    requires AtTurn(l) && (l.q.items[0].EndGroup? || l.q.items[0].Close? || l.q.items[0].EndTrack?)
    ensures StreamsFit(l.d) && EndDue(l)
  {
    hide Objs, Kept, IsSub, LiveBytes, ReplayBytes, Charged, Carries, Admitted, EndsAsked, Ascending;
    AtTurnFits(l);
    if l.d.open.Some? {
      var st, at := l.d.streams[l.d.open.value.sid], Turn(l.q, l.h);
      AtTurnOpen(l);
      JudgedBefore(st.group, st.from, st.objs, l.h, at);
      HeadAsked(l.q, l.h);
    }
  }

  lemma JudgedBefore(group: nat, from: nat, objs: seq<Object>, h: History, to: int)
    requires Carries(group, from, objs, h, to) && from < to
    ensures to - 1 in h.judged
  {
    hide Admitted;
  }

  lemma HeadAsked(q: Queue, h: History)
    requires QueueOk(q, h) && q.items != [] && !q.items[0].Obj?
    ensures Asked(h, q.items[0], Turn(q, h), Turn(q, h))
  {
    hide Objs, IsSub, LiveBytes, ReplayBytes, Charged, EndsAsked, Ascending;
    EndsTail(q.items, h, Turn(q, h));
    PopControl(q, h);
  }

  /** The object whose turn it is, is of a later group. */
  lemma LaterDue(l: Lane)
    requires AtTurn(l) && l.q.items[0].Obj?
    requires l.d.open.Some? ==> l.q.items[0].o.start || l.q.items[0].o.group != l.d.open.value.group
    ensures StreamsFit(l.d) && EndDue(l)
  {
    hide Objs, Kept, IsSub, LiveBytes, ReplayBytes, Charged, Carries, Admitted, EndsAsked;
    AtTurnFits(l);
    if l.d.open.Some? {
      var st, at := l.d.streams[l.d.open.value.sid], Turn(l.q, l.h);
      AtTurnOpen(l);
      CarriesGroup(st.group, st.from, st.objs, l.h, at);
      PopObject(l.q, l.h);
      assert l.h.offered[at - 1].group <= l.h.offered[at].group;
    }
  }

  lemma EndOpenKeeps(l: Lane)
    requires AtTurn(l) && StreamsFit(l.d) && EndDue(l)
    ensures Core(EndOpen(l, Turn(l.q, l.h))) && Quiet(EndOpen(l, Turn(l.q, l.h)))
  {
    hide Objs, Kept, IsSub, LiveBytes, ReplayBytes, Charged, Carries, Admitted, EndsAsked, MayEnd;
    if l.d.open.Some? { AtTurnOpen(l); }
    EndStreamKeeps(l.d, l.h, Turn(l.q, l.h));
  }

  lemma PopControlKeeps(l: Lane)
    requires Core(l) && CanTake(l) && !l.q.items[0].Obj?
    requires l.q.items[0].Cut? && l.d.open.Some? ==> !Below(l.d.open.value.group, l.floor)
    ensures Core(l.(q := Pop(l.q).(cut := false)))
    ensures Pop(l.q).bytes == l.q.bytes
    ensures !l.q.items[0].Cut? ==> Pop(l.q).(cut := false) == Pop(l.q)
  {
    hide Objs, Kept, IsSub, LiveBytes, ReplayBytes, Charged, Carries, Admitted, EndsAsked, MayEnd;
    PopControl(l.q, l.h);
  }

  lemma PopDroppedKeeps(l: Lane)
    requires Core(l) && CanTake(l) && l.q.items[0].Obj? && l.d.open.None?
    ensures Core(l.(q := Pop(l.q))) && Pop(l.q).bytes <= l.q.bytes
  {
    hide Objs, Kept, IsSub, LiveBytes, ReplayBytes, Charged, Carries, Admitted, EndsAsked, MayEnd;
    PopDropped(l.q, l.h);
  }

  /** Everything about a write that has just taken `o` but its streams. */
  lemma TakenKeeps(l: Lane, pass: bool)
    requires AtTurn(l) && l.q.items[0].Obj?
    ensures var o, at := l.q.items[0].o, Turn(l.q, l.h);
            var q, h := Pop(l.q), Hand(l.h, o, at, pass);
            && QueueOk(q, h) && Turn(q, h) == at + 1 && q.bytes <= l.q.bytes && CutAtHead(q) && !q.cut
            && AboveFloor(q, l.floor) && Extends(l.h, h) && Named(l.d, h) && FinsWhole(l.d, h)
            && h.offered[at] == o && h.judged[at] == pass && !Below(o.group, l.floor)
            && StopSeen(l.d.stopped, q, h)
  {
    hide Objs, Kept, IsSub, LiveBytes, ReplayBytes, Charged, Carries, Admitted, EndsAsked, MayEnd;
    PopHanded(l.q, l.h, pass);
    FinsStable(l.d, l.h, Hand(l.h, l.q.items[0].o, Turn(l.q, l.h), pass));
    assert l.q.items[0].o in Objs(l.q.items) by { PopObject(l.q, l.h); }
  }

  /** The object goes nowhere: excluded, or its group was stopped. */
  lemma PassedOverKeeps(l: Lane, pass: bool)
    requires AtTurn(l) && l.q.items[0].Obj? && !l.q.items[0].o.start
    requires pass ==> l.d.stopped == Some(l.q.items[0].o.group)
    ensures Core(l.(q := Pop(l.q), h := Hand(l.h, l.q.items[0].o, Turn(l.q, l.h), pass)))
  {
    hide Objs, Kept, IsSub, LiveBytes, ReplayBytes, Charged, Carries, Admitted, EndsAsked, MayEnd;
    TakenKeeps(l, pass);
    if l.d.open.Some? {
      var st, at := l.d.streams[l.d.open.value.sid], Turn(l.q, l.h);
      var h := Hand(l.h, l.q.items[0].o, at, pass);
      AtTurnOpen(l);
      CarriesStable(st.group, st.from, st.objs, l.h, h, at);
      CarriesGroup(st.group, st.from, st.objs, h, at);
      SameGroup(h, st.from, at, st.group);
      CarriesNext(st.group, st.from, st.objs, h, at);
    }
  }

  lemma CarriesGroup(group: nat, from: nat, objs: seq<Object>, h: History, to: int)
    requires Carries(group, from, objs, h, to)
    ensures from <= to <= |h.offered| && forall i :: from <= i < to ==> h.offered[i].group == group
  {
    hide Admitted;
  }

  /** group_start comes before any other object of its group. */
  lemma StartIsFirst(h: History, at: nat, j: nat)
    requires Ascending(h.offered) && j < at < |h.offered| && h.offered[at].start
    ensures h.offered[j].group < h.offered[at].group
  {
    assert h.offered[at - 1].group < h.offered[at].group;
    assert h.offered[j].group <= h.offered[at - 1].group;
  }

  /** The open stream ends, and the object waits for one of its own. */
  lemma RotatesKeeps(l: Lane, pass: bool)
    requires AtTurn(l) && l.q.items[0].Obj?
    requires l.q.items[0].o.start || (pass && l.d.stopped != Some(l.q.items[0].o.group) && l.d.open.None?)
    ensures var o, at := l.q.items[0].o, Turn(l.q, l.h);
            var l' := l.(q := Pop(l.q), h := Hand(l.h, o, at, pass), d := EndStream(l.d, at));
            && Core(l') && (pass ==> Core(l'.(phase := Opening(o, l.d.epoch))))
  {
    hide Objs, Kept, IsSub, LiveBytes, ReplayBytes, Charged, Carries, Admitted, EndsAsked, MayEnd, FinsWhole,
         Ascending;
    var o, at := l.q.items[0].o, Turn(l.q, l.h);
    var h := Hand(l.h, o, at, pass);
    TakenKeeps(l, pass);
    if l.d.open.Some? {
      var st := l.d.streams[l.d.open.value.sid];
      AtTurnOpen(l);
      CarriesStable(st.group, st.from, st.objs, l.h, h, at);
      LaterDue(l);
      EndStable(st.group, st.from, l.h, h, at);
    }
    EndStreamKeeps(l.d, h, at);
    if l.d.stopped == Some(o.group) {
      var j :| 0 <= j < at && l.h.offered[j].group == o.group;
      StartIsFirst(l.h, at, j);
    }
  }

  /** The object follows on the open stream. */
  lemma FollowsKeeps(l: Lane)
    requires AtTurn(l) && l.q.items[0].Obj? && l.d.open.Some? && !l.q.items[0].o.start
    requires l.d.stopped != Some(l.q.items[0].o.group)
    ensures var o, at := l.q.items[0].o, Turn(l.q, l.h);
            Core(l.(q := Pop(l.q), h := Hand(l.h, o, at, true), phase := Body(o, l.d.epoch)))
  {
    hide Objs, Kept, IsSub, LiveBytes, ReplayBytes, Charged, Carries, Admitted, EndsAsked, MayEnd, Ascending;
    var o, at := l.q.items[0].o, Turn(l.q, l.h);
    var h := Hand(l.h, o, at, true);
    TakenKeeps(l, true);
    var st := l.d.streams[l.d.open.value.sid];
    AtTurnOpen(l);
    CarriesStable(st.group, st.from, st.objs, l.h, h, at);
    CarriesGroup(st.group, st.from, st.objs, h, at);
    SameGroup(h, st.from, at, st.group);
    var q, phase := Pop(l.q), Body(o, l.d.epoch);
    assert h.offered[Turn(q, h) - 1] == o;
    assert PhaseOk(l.d, q, h, l.floor, phase);
    assert OpenOk(l.d, q, h, l.floor, phase);
  }

  lemma BeginWriteKeeps(l: Lane, o: Object)
    requires AtTurn(l) && l.q.items[0] == Obj(o)
    ensures var r := BeginWrite(l.(q := Pop(l.q)), o, Turn(l.q, l.h)); Core(r) && NoHeavier(l, r)
  {
    hide Objs, Kept, IsSub, LiveBytes, ReplayBytes, Charged, Carries, Admitted, EndsAsked, MayEnd, QueueOk, StopSeen;
    var pass := l.passes(o.group, o.id);
    var halted := l.d.stopped == Some(o.group) && !o.start;
    TakenKeeps(l, pass);
    if o.start || (pass && !halted && l.d.open.None?) {
      RotatesKeeps(l, pass);
    } else if !pass || halted {
      PassedOverKeeps(l, pass);
    } else {
      FollowsKeeps(l);
    }
  }

  lemma ExpireKeeps(l: Lane, o: Object)
    requires AtTurn(l) && l.q.items[0] == Obj(o)
    ensures var l' := Expire(l.(q := Pop(l.q)), o, Turn(l.q, l.h)); Core(l') && NoHeavier(l, l')
  {
    hide Objs, Kept, IsSub, LiveBytes, ReplayBytes, Charged, Carries, Admitted, EndsAsked, MayEnd, Ascending, Named;
    var reset := l.d.open.Some? && l.d.open.value.group == o.group;
    if reset {
      ResetOpenKeeps(l);
    } else {
      LaterDue(l);
      EndOpenKeeps(l);
    }
    var l1 := if reset then ResetOpen(l) else EndOpen(l, Turn(l.q, l.h));
    PopDroppedKeeps(l1);
    SkipKeeps(l1.(q := Pop(l.q)), o.group);
  }

  lemma EmptyCarries(group: nat, at: nat, h: History)
    requires at <= |h.offered|
    ensures Carries(group, at, [], h, at)
  {
  }

  /** A stream of its own for END_OF_TRACK carries no object. */
  lemma TrackEndedKeeps(d: Delivery, h: History, group: nat, at: nat)
    requires StreamsFit(d) && FinsWhole(d, h) && Named(d, h) && d.open.None? && at <= |h.offered| && group <= h.top
    requires MayEnd(group, at, h, at)
    ensures var d' := TrackEnded(d, group, at); StreamsFit(d') && FinsWhole(d', h) && Named(d', h)
  {
    EmptyCarries(group, at, h);
    hide Carries, Admitted, MayEnd;
  }

  lemma TopKeeps(l: Lane, top: nat)
    requires Core(l) && l.h.top <= top && l.phase.Idle? && l.d.open.None?
    ensures Core(l.(h := l.h.(top := top)))
  {
    hide Objs, Kept, IsSub, LiveBytes, ReplayBytes, Charged, Carries, Admitted, EndsAsked, MayEnd;
    TopAsked(l.q.items, l.h, top, Turn(l.q, l.h));
    FinsStable(l.d, l.h, l.h.(top := top));
  }

  lemma TrackEndAsked(l: Lane, group: nat, top: nat)
    requires AtTurn(l) && l.q.items[0].EndTrack?
    ensures 0 <= Turn(l.q, l.h) && MayEnd(group, Turn(l.q, l.h), l.h.(top := top), Turn(l.q, l.h))
  {
    hide Objs, Kept, IsSub, LiveBytes, ReplayBytes, Charged, Carries, Admitted, EndsAsked;
    HeadAsked(l.q, l.h);
  }

  lemma EndTrackKeeps(l: Lane, largest: Option<nat>)
    requires AtTurn(l) && l.q.items[0].EndTrack?
    ensures var l' := EndTrackStep(l, largest, Turn(l.q, l.h));
            Core(l') && CanTake(l') && l'.q == l.q && l'.txBytes == l.txBytes && l'.max == l.max
  {
    hide Objs, Kept, IsSub, LiveBytes, ReplayBytes, Charged, Carries, Admitted, EndsAsked, MayEnd, Named, QueueOk;
    AskedDue(l);
    EndOpenKeeps(l);
    if l.gate && l.d.open.None? {
      var group := if largest.None? then 0 else largest.value + 1;
      TrackEndAsked(l, group, Max(l.h.top, group));
      var l1 := l.(h := l.h.(top := Max(l.h.top, group)));
      TopKeeps(l, Max(l.h.top, group));
      TrackEndedKeeps(l1.d, l1.h, group, Turn(l.q, l.h));
    }
  }

  lemma TakeCutKeeps(l: Lane, expired: bool, used: Backlog)
    requires Core(l) && CanTake(l) && l.q.items[0].Cut?
    ensures Core(Take(l, expired, used)) && NoHeavier(l, Take(l, expired, used))
  {
    hide Objs, Kept, IsSub, LiveBytes, ReplayBytes, Charged, Carries, Admitted, EndsAsked, MayEnd;
    var l1 := if l.floor.None? then l else l.(d := ResetBelow(l.d, l.floor.value, used));
    if l.floor.Some? {
      ResetBelowResets(l.d, l.floor.value, used);
      ResetKeeps(l, l1.d);
    }
    PopControlKeeps(l1);
  }

  /** FIN of the open group, and the item that asked for it gone. */
  lemma EndTakenKeeps(l: Lane)
    requires AtTurn(l) && (l.q.items[0].EndGroup? || l.q.items[0].Close?)
    ensures var r := EndOpen(l, Turn(l.q, l.h)).(q := Pop(l.q)); Core(r) && Core(r.(closing := false))
    ensures Pop(l.q).bytes == l.q.bytes
  {
    hide Objs, Kept, IsSub, LiveBytes, ReplayBytes, Charged, Carries, Admitted, EndsAsked, MayEnd;
    AskedDue(l);
    EndOpenKeeps(l);
    PopControlKeeps(EndOpen(l, Turn(l.q, l.h)));
  }

  lemma ResetTakenKeeps(l: Lane, group: nat)
    requires AtTurn(l) && !l.q.items[0].Obj?
    ensures var l' := ResetOpen(l).(q := Pop(l.q));
            Core(l') && NoHeavier(l, l') && Core(Skip(l', group)) && NoHeavier(l, Skip(l', group))
  {
    hide Objs, Kept, IsSub, LiveBytes, ReplayBytes, Charged, Carries, Admitted, EndsAsked, MayEnd;
    ResetOpenKeeps(l);
    PopControlKeeps(ResetOpen(l));
    SkipKeeps(ResetOpen(l).(q := Pop(l.q)), group);
  }

  lemma EndTrackTakenKeeps(l: Lane, largest: Option<nat>)
    requires AtTurn(l) && l.q.items[0].EndTrack?
    ensures var l' := EndTrackStep(l.(q := Pop(l.q)), largest, Turn(l.q, l.h)); Core(l') && NoHeavier(l, l')
  {
    hide Objs, Kept, IsSub, LiveBytes, ReplayBytes, Charged, Carries, Admitted, EndsAsked, MayEnd, Ascending,
         AboveFloor, CutAtHead;
    EndTrackKeeps(l, largest);
    PopControlKeeps(EndTrackStep(l, largest, Turn(l.q, l.h)));
  }

  lemma FinalTakenKeeps(l: Lane)
    requires AtTurn(l) && !l.q.items[0].Obj?
    ensures var l' := l.(q := Pop(l.q), ended := true); Core(l') && NoHeavier(l, l')
  {
    hide Objs, Kept, IsSub, LiveBytes, ReplayBytes, Charged, Carries, Admitted, EndsAsked, MayEnd;
    PopControlKeeps(l);
  }

  lemma TakeControlKeeps(l: Lane, expired: bool, used: Backlog)
    requires AtTurn(l) && !l.q.items[0].Obj?
    ensures Core(Take(l, expired, used)) && NoHeavier(l, Take(l, expired, used))
  {
    hide Core, Pop, Turn, EndTrackStep, ResetStream, EndStream;
    match l.q.items[0]
    case EndGroup => EndTakenKeeps(l);
    case Close => EndTakenKeeps(l);
    case EndTrack(largest) => EndTrackTakenKeeps(l, largest);
    case Final => FinalTakenKeeps(l);
    case ResetGroup(upTo) =>
      ResetTakenKeeps(l, if upTo.Some? then upTo.value else 0);
  }

  lemma TakeObjectKeeps(l: Lane, o: Object, expired: bool, used: Backlog)
    requires AtTurn(l) && l.q.items[0] == Obj(o)
    ensures Core(Take(l, expired, used)) && NoHeavier(l, Take(l, expired, used))
  {
    hide Objs, Kept, IsSub, LiveBytes, ReplayBytes, Charged, Carries, Admitted, EndsAsked, MayEnd, Ascending,
         QueueOk;
    if !l.gate {
      ResetOpenKeeps(l);
      PopDroppedKeeps(ResetOpen(l));
      SkipKeeps(ResetOpen(l).(q := Pop(l.q)), o.group);
    } else if expired {
      ExpireKeeps(l, o);
    } else {
      BeginWriteKeeps(l, o);
    }
  }

  lemma TakeKeeps(l: Lane, expired: bool, used: Backlog)
    requires Inv(l) && CanTake(l)
    ensures Inv(Take(l, expired, used))
  {
    hide Core, Take, Turn, Pop;
    if l.q.items[0].Cut? {
      TakeCutKeeps(l, expired, used);
    } else if l.q.items[0].Obj? {
      TakeObjectKeeps(l, l.q.items[0].o, expired, used);
    } else {
      TakeControlKeeps(l, expired, used);
    }
  }

  // ---- transport calls coming back -------------------------------------------------

  lemma OpenedKeeps(l: Lane)
    requires Core(l) && l.phase.Opening? && l.phase.epoch == l.d.epoch
    ensures var o := l.phase.o;
            Core(l.(phase := Header(o, l.d.epoch), d := StreamOpened(l.d, o.group, Turn(l.q, l.h) - 1)))
  {
    hide Objs, Kept, IsSub, LiveBytes, ReplayBytes, Charged, Carries, Admitted, EndsAsked, MayEnd;
    EmptyCarries(l.phase.o.group, Turn(l.q, l.h) - 1, l.h);
  }

  lemma OpenedLateKeeps(l: Lane, from: nat)
    requires Core(l) && l.phase.Opening? && l.phase.epoch < l.d.epoch
    ensures Core(l.(phase := Idle, d := OpenedLate(l.d, l.phase.o.group, from)))
  {
    hide Objs, Kept, IsSub, LiveBytes, ReplayBytes, Charged, Carries, Admitted, EndsAsked, MayEnd;
  }

  /** The in-flight object reached the open stream. */
  lemma WrittenKeeps(l: Lane)
    requires Core(l) && l.phase.Body? && l.phase.epoch == l.d.epoch
    ensures l.d.open.Some? && Core(l.(phase := Idle, d := Written(l.d, l.phase.o)))
  {
    hide Objs, Kept, IsSub, LiveBytes, ReplayBytes, Charged, Carries, Admitted, EndsAsked, MayEnd;
    var st, at := l.d.streams[l.d.open.value.sid], Turn(l.q, l.h) - 1;
    if !Below(st.group, l.floor) {
      CarriesNext(st.group, st.from, st.objs, l.h, at);
      CarriesGroup(st.group, st.from, st.objs, l.h, at);
    }
  }

  lemma StoppedKeeps(l: Lane)
    requires Core(l) && !l.phase.Idle? && l.phase.epoch == l.d.epoch
    ensures Core(l.(phase := Idle, d := StreamStopped(l.d, l.phase.o.group)))
  {
    hide Objs, Kept, IsSub, LiveBytes, ReplayBytes, Charged, Carries, Admitted, EndsAsked, MayEnd;
  }

  lemma IdleKeeps(l: Lane)
    requires Core(l) && (l.d.open.None? || (!l.phase.Idle? && l.phase.epoch < l.d.epoch))
    ensures Core(l.(phase := Idle))
  {
    hide Objs, Kept, IsSub, LiveBytes, ReplayBytes, Charged, Carries, Admitted, EndsAsked, MayEnd;
  }

  lemma ErrorKeeps(l: Lane, o: Object)
    requires Core(l) && !l.phase.Idle?
    ensures Core(Failed(l.(phase := Idle), o.group)) && NoHeavier(l, Failed(l.(phase := Idle), o.group))
  {
    hide Core, Objs, ResetStream, Trim;
    FailedKeeps(l, o.group);
    CoreFits(l);
    IdleKeeps(Failed(l, o.group));
    assert Failed(l.(phase := Idle), o.group) == Failed(l, o.group).(phase := Idle);
  }

  lemma CancelledKeeps(l: Lane)
    requires Core(l)
    ensures Core(l.(phase := Idle, ended := true))
  {
    hide Objs, Kept, IsSub, LiveBytes, ReplayBytes, Charged, Carries, Admitted, EndsAsked, MayEnd;
  }

  lemma HeaderKeeps(l: Lane)
    requires Core(l) && l.phase.Header? && l.phase.epoch == l.d.epoch
    ensures Core(l.(phase := Body(l.phase.o, l.d.epoch)))
  {
    hide Objs, Kept, IsSub, LiveBytes, ReplayBytes, Charged, Carries, Admitted, EndsAsked, MayEnd;
  }

  lemma InFlight(l: Lane)
    requires Core(l) && !l.phase.Idle?
    ensures 0 <= Turn(l.q, l.h) - 1 && Fits(l.d) && l.phase.epoch <= l.d.epoch
    ensures l.d.open.Some? ==> l.phase.epoch == l.d.epoch && !l.phase.Opening?
  {
    hide Objs, Kept, IsSub, LiveBytes, ReplayBytes, Charged, Carries, Admitted, EndsAsked, MayEnd;
  }

  lemma GoOnKeeps(l: Lane)
    requires Core(l) && !l.phase.Idle?
    ensures 0 <= Turn(l.q, l.h) - 1 && Fits(l.d) && Core(GoOn(l)) && NoHeavier(l, GoOn(l))
  {
    hide Core, Turn, StreamOpened, OpenedLate, Written;
    InFlight(l);
    if l.phase.Opening? {
      if l.phase.epoch == l.d.epoch { OpenedKeeps(l); } else { OpenedLateKeeps(l, Turn(l.q, l.h) - 1); }
    } else if l.d.open.None? {
      IdleKeeps(l);
    } else if l.phase.Header? {
      HeaderKeeps(l);
    } else {
      WrittenKeeps(l);
    }
  }

  lemma WakeKeeps(l: Lane, out: Outcome)
    requires Inv(l) && !l.phase.Idle?
    ensures 0 <= Turn(l.q, l.h) - 1 && Fits(l.d) && Inv(Wake(l, out))
  {
    hide Core, Turn, Failed, StreamStopped, GoOn;
    InFlight(l);
    match out
    case Stopped =>
      if l.phase.epoch == l.d.epoch { StoppedKeeps(l); } else { IdleKeeps(l); }
    case Error => ErrorKeeps(l, l.phase.o);
    case Cancelled => CancelledKeeps(l);
    case Done => GoOnKeeps(l);
  }

  lemma PeerStopsKeeps(l: Lane, sid: nat)
    requires Inv(l)
    ensures Inv(PeerStops(l, sid))
  {
    hide Objs, Kept, IsSub, LiveBytes, ReplayBytes, Charged, Carries, Admitted, EndsAsked, MayEnd;
    if sid < |l.d.streams| { ResetKeeps(l, PeerStops(l, sid).d); }
  }

  // ---- offering -----------------------------------------------------------------------

  /** What the source owes: it names no group below one it named before, and
      group_start marks each group's first object. */
  ghost predicate MayOffer(l: Lane, o: Object)
  {
    Ascending(l.h.offered + [o]) && l.h.top <= o.group
  }

  lemma NamedNote(l: Lane, o: Object)
    requires Named(l.d, l.h)
    ensures Named(l.d, Note(l, o).h)
  {
  }

  lemma EmptyBelow(l: Lane, o: Object)
    requires Core(l) && l.h.top <= o.group && Below(o.group, l.floor)
    ensures Objs(l.q.items) == []
  {
    hide Objs, Kept, IsSub, LiveBytes, ReplayBytes, Charged, Carries, Admitted, EndsAsked, MayEnd;
    if Objs(l.q.items) != [] {
      HeadOffered(l.q, l.h);
      assert false;
    }
  }

  /** Below the floor: counted as shed, and not queued. */
  lemma NoteBelowKeeps(l: Lane, o: Object)
    requires Core(l) && MayOffer(l, o) && Below(o.group, l.floor)
    ensures Core(Note(l, o))
  {
    hide Objs, Kept, IsSub, LiveBytes, ReplayBytes, Charged, Carries, Admitted, EndsAsked, MayEnd;
    EmptyBelow(l, o);
    NoteKeeps(l.q, l.h, o);
    NamedNote(l, o);
    FinsStable(l.d, l.h, Note(l, o).h);
  }

  /** Queued at the end. */
  lemma PushedKeeps(l: Lane, o: Object)
    requires Core(l) && MayOffer(l, o) && !Below(o.group, l.floor)
    ensures Core(Note(l, o).(q := Push(l.q, Obj(o)))) && Turn(Push(l.q, Obj(o)), Note(l, o).h) == Turn(l.q, l.h)
  {
    hide Objs, Kept, IsSub, LiveBytes, ReplayBytes, Charged, Carries, Admitted, EndsAsked, MayEnd, Ascending, Named;
    var h := Note(l, o).h;
    PushKeeps(l.q, l.h, o);
    NamedNote(l, o);
    FinsStable(l.d, l.h, h);
    if !l.ended && l.d.open.Some? && !Below(l.d.open.value.group, l.floor) {
      var st := l.d.streams[l.d.open.value.sid];
      CarriesStable(st.group, st.from, st.objs, l.h, h, if l.phase.Idle? then Turn(l.q, l.h) else Turn(l.q, l.h) - 1);
    }
  }

  ghost function Through(l: Lane, o: Object, pass: bool): History { Hand(Note(l, o).h, o, |l.h.offered|, pass) }

  /** What holds of any inline write, whatever became of the stream. */
  lemma ThroughTaken(l: Lane, o: Object, pass: bool)
    requires Core(l) && MayOffer(l, o) && l.q.items == []
    ensures var h := Through(l, o, pass);
            && QueueOk(l.q, h) && Turn(l.q, h) == |l.h.offered| + 1 == Turn(l.q, l.h) + 1
            && Extends(l.h, h) && Named(l.d, h) && FinsWhole(l.d, h)
            && (!l.ended ==> StopSeen(l.d.stopped, l.q, h))
  {
    hide Objs, Kept, IsSub, LiveBytes, ReplayBytes, Charged, Carries, Admitted, EndsAsked, MayEnd;
    ThroughKeeps(l.q, l.h, o, pass);
    NamedNote(l, o);
    FinsStable(l.d, l.h, Through(l, o, pass));
  }

  lemma ThroughCarries(l: Lane, o: Object, pass: bool)
    requires Core(l) && MayOffer(l, o) && Inlines(l, o) && !l.ended
    ensures var st, h, at := l.d.streams[l.d.open.value.sid], Through(l, o, pass), |l.h.offered|;
            && Carries(st.group, st.from, if pass then st.objs + [o] else st.objs, h, at + 1)
            && st.from < at && !Below(l.d.open.value.group, l.floor)
  {
    hide Objs, Kept, IsSub, LiveBytes, ReplayBytes, Charged, Carries, Admitted, EndsAsked, MayEnd;
    ThroughTaken(l, o, pass);
    var st, at, h := l.d.streams[l.d.open.value.sid], |l.h.offered|, Through(l, o, pass);
    CarriesStable(st.group, st.from, st.objs, l.h, h, at);
    CarriesGroup(st.group, st.from, st.objs, h, at);
    SameGroup(h, st.from, at, st.group);
    CarriesNext(st.group, st.from, st.objs, h, at);
  }

  /** The open stream's next object, excluded inline. */
  lemma ThroughExcludedKeeps(l: Lane, o: Object)
    requires Core(l) && MayOffer(l, o) && Inlines(l, o)
    ensures Core(l.(h := Through(l, o, false)))
  {
    hide Objs, Kept, IsSub, LiveBytes, ReplayBytes, Charged, Carries, Admitted, EndsAsked, MayEnd;
    ThroughTaken(l, o, false);
    if !l.ended { ThroughCarries(l, o, false); }
  }

  /** The open stream's next object, written inline. */
  lemma ThroughWrittenKeeps(l: Lane, o: Object)
    requires Core(l) && MayOffer(l, o) && Inlines(l, o)
    ensures Core(l.(h := Through(l, o, true), d := Written(l.d, o)))
  {
    hide Objs, Kept, IsSub, LiveBytes, ReplayBytes, Charged, Carries, Admitted, EndsAsked, MayEnd, Ascending;
    ThroughTaken(l, o, true);
    if !l.ended { ThroughCarries(l, o, true); }
  }

  /** The stream is lost in an inline write. */
  lemma ThroughLostKeeps(l: Lane, o: Object, d: Delivery)
    requires Core(l) && MayOffer(l, o) && Inlines(l, o)
    requires d == ResetStream(l.d) || d == StreamStopped(l.d, o.group)
    ensures var l' := l.(h := Through(l, o, true), d := d); Core(l') && Quiet(l')
  {
    hide Objs, Kept, IsSub, LiveBytes, ReplayBytes, Charged, Carries, Admitted, EndsAsked, MayEnd, Ascending;
    ThroughTaken(l, o, true);
    assert Through(l, o, true).offered[|l.h.offered|] == o;
  }

  lemma WriteThroughKeeps(l: Lane, o: Object, inline: Inline)
    requires Fits(l.d) && Core(l) && MayOffer(l, o) && Inlines(l, o)
    ensures Core(WriteThrough(l, o, inline)) && NoHeavier(l, WriteThrough(l, o, inline))
  {
    hide Core, Turn, Skip;
    var pass := l.passes(o.group, o.id);
    ThroughExcludedKeeps(l, o);
    ThroughWrittenKeeps(l, o);
    ThroughLostKeeps(l, o, ResetStream(l.d));
    ThroughLostKeeps(l, o, StreamStopped(l.d, o.group));
    SkipKeeps(l.(h := Through(l, o, true), d := ResetStream(l.d)), o.group);
    LostKeeps(Skip(l.(h := Through(l, o, true), d := ResetStream(l.d)), o.group), Some(o.group));
  }

  lemma LostKeeps(l: Lane, lost: Option<nat>)
    requires Core(l)
    ensures Core(l.(lost := lost))
  {
    hide Objs, Kept, IsSub, LiveBytes, ReplayBytes, Charged, Carries, Admitted, EndsAsked, MayEnd;
  }

  // ---- shedding -----------------------------------------------------------------------

  /** Whatever is open or in flight at `floor` or above comes before every
      queued object, so trimming below `floor` drops none of them. */
  lemma QueuedAfter(l: Lane, group: nat, at: int)
    requires QueueOk(l.q, l.h) && 0 <= at < Turn(l.q, l.h) && l.h.offered[at].group == group
    ensures NoneBelow(Objs(l.q.items), group)
  {
    hide Objs, Kept, IsSub, LiveBytes, ReplayBytes, Charged, Carries, Admitted, EndsAsked, MayEnd;
    var objs, turn := Objs(l.q.items), Turn(l.q, l.h);
    forall o | o in objs
      ensures o.group >= group
    {
      var i :| 0 <= i < |objs| && objs[i] == o;
      assert l.h.offered[turn..][i] == l.h.offered[turn + i];
    }
  }


  /** A position at or past which nothing may be dropped by a shed to `floor`:
      the open stream's last object, or the one in flight. */
  lemma ShedSpares(l: Lane, floor: nat)
    requires Core(l) && !l.ended
    requires (l.d.open.Some? && l.d.open.value.group >= floor && !Below(l.d.open.value.group, l.floor))
          || (!l.phase.Idle? && l.phase.epoch == l.d.epoch && l.phase.o.group >= floor
              && !Below(l.phase.o.group, l.floor))
    ensures NoneBelow(Objs(l.q.items), floor)
  {
    hide Objs, Kept, IsSub, LiveBytes, ReplayBytes, Charged, Carries, Admitted, EndsAsked, MayEnd;
    if !l.phase.Idle? && l.phase.epoch == l.d.epoch && l.phase.o.group >= floor && !Below(l.phase.o.group, l.floor) {
      QueuedAfter(l, l.phase.o.group, Turn(l.q, l.h) - 1);
    } else {
      var st := l.d.streams[l.d.open.value.sid];
      var at := if l.phase.Idle? then Turn(l.q, l.h) else Turn(l.q, l.h) - 1;
      CarriesGroup(st.group, st.from, st.objs, l.h, at);
      QueuedAfter(l, st.group, at - 1);
    }
  }

  /** The queue trimmed below `floor`. */
  ghost predicate Trimmed(q: Queue, q': Queue, h: History, floor: nat)
  {
    && QueueOk(q', h) && NoneBelow(Objs(q'.items), floor) && Turn(q, h) <= Turn(q', h)
    && (forall o :: o in Objs(q'.items) ==> o in Objs(q.items))
    && (NoneBelow(Objs(q.items), floor) ==> Objs(q'.items) == Objs(q.items))
    && (CutAtHead(q) ==> CutAtHead(q'))
  }

  lemma TrimTrims(q: Queue, h: History, floor: nat)
    requires QueueOk(q, h)
    ensures Trimmed(q, Trim(q, floor, false), h, floor)
    ensures Trimmed(q, Trim(Trim(q, floor, false), floor + 1, false), h, floor + 1)
  {
    hide Objs, Kept, IsSub, Counted, IsSuffix, HandedInOrder, CutAtHead, Recount, Trim;
    TrimKeeps(q, h, floor, false);
    TrimKeeps(Trim(q, floor, false), h, floor + 1, false);
    if CutAtHead(q) {
      TrimCut(q, floor, false);
      TrimCut(Trim(q, floor, false), floor + 1, false);
    }
  }

  lemma TrimmedThenCut(q: Queue, q': Queue, h: History, floor: nat)
    requires Trimmed(q, q', h, floor)
    ensures Trimmed(q, PushCut(q'), h, floor) && PushCut(q').cut && PushCut(q').bytes == q'.bytes
  {
    hide Objs, Kept, IsSub, Counted, IsSuffix, HandedInOrder, Recount;
    PushCutKeeps(q', h);
  }

  /** Fewer FINed streams to watch: drained ones are forgotten. */
  ghost predicate Forgets(d: Delivery, d': Delivery)
  {
    d'.open == d.open && d'.stopped == d.stopped && d'.epoch == d.epoch && d'.streams == d.streams
    && forall t :: t in d'.tx ==> t in d.tx
  }

  lemma ForgetKeeps(l: Lane, d: Delivery)
    requires Core(l) && Forgets(l.d, d)
    ensures Core(l.(d := d))
  {
    hide Objs, Kept, IsSub, LiveBytes, ReplayBytes, Charged, Carries, Admitted, EndsAsked, MayEnd;
    assert OnlyReset(l.d, d);
    ResetKeeps(l, d);
  }

  /** The floor rises over a trimmed queue with the CUT at its head. */
  lemma RaisedKeeps(l: Lane, q: Queue, floor: nat)
    requires Core(l) && Trimmed(l.q, q, l.h, floor) && q.cut
    ensures var f := if l.floor.None? then floor else Max(l.floor.value, floor);
            Core(l.(q := q, floor := Some(f)))
  {
    hide Objs, Kept, IsSub, LiveBytes, ReplayBytes, Charged, Carries, Admitted, EndsAsked, MayEnd;
    if !l.ended { RaisedWriterOk(l, q, floor); }
  }

  lemma RaisedWriterOk(l: Lane, q: Queue, floor: nat)
    requires Core(l) && Trimmed(l.q, q, l.h, floor) && q.cut && !l.ended
    ensures var f := if l.floor.None? then floor else Max(l.floor.value, floor);
            WriterOk(l.d, q, l.h, Some(f), l.phase)
  {
    hide Objs, Kept, IsSub, LiveBytes, ReplayBytes, Charged, Carries, Admitted, EndsAsked, MayEnd, Ascending;
    var f := if l.floor.None? then floor else Max(l.floor.value, floor);
    if l.d.open.Some? && !Below(l.d.open.value.group, Some(f)) {
      ShedSpares(l, floor);
    }
    assert OpenOk(l.d, q, l.h, Some(f), l.phase);
    if !l.phase.Idle? && l.phase.epoch == l.d.epoch && !Below(l.phase.o.group, Some(f)) {
      ShedSpares(l, floor);
    }
    assert PhaseOk(l.d, q, l.h, Some(f), l.phase);
  }

  /** Reading the backlog again touches nothing else, and forgets drained streams. */
  lemma ReadForgets(l: Lane, floor: Option<nat>, used: Backlog)
    ensures var r := ReadBacklog(l, floor, used); r == l.(txBytes := r.txBytes, d := r.d) && Forgets(l.d, r.d)
  {
    hide TxQueued;
  }

  lemma ProbeForgets(l: Lane, group: nat, used: Backlog)
    ensures var r := Probe(l, group, used);
            && r == l.(txBytes := r.txBytes, d := r.d, probeGroup := r.probeGroup, probeN := r.probeN)
            && Forgets(l.d, r.d)
  {
    hide ReadBacklog;
    ReadForgets(l, l.floor, used);
  }

  lemma ReadKeeps(l: Lane, floor: Option<nat>, used: Backlog)
    requires Core(l)
    ensures Core(ReadBacklog(l, floor, used))
  {
    hide Objs, Kept, IsSub, LiveBytes, ReplayBytes, Charged, Carries, Admitted, EndsAsked, MayEnd;
    ForgetKeeps(l, l.d.(tx := Undrained(l.d.tx, used)));
  }

  /** The floor rises over a queue trimmed to it, the backlog just reread. */
  lemma RaiseKeeps(l: Lane, q: Queue, d: Delivery, txBytes: nat, floor: nat)
    requires Core(l) && Trimmed(l.q, q, l.h, floor) && Forgets(l.d, d)
    ensures var l' := Raise(l.(q := q, txBytes := txBytes, d := d), floor);
            Core(l') && l'.q.bytes == q.bytes && l'.txBytes == txBytes && l'.max == l.max
  {
    hide Core, Trimmed, Forgets, PushCut, Max;
    ForgetKeeps(l, d);
    TrimmedThenCut(l.q, q, l.h, floor);
    RaisedKeeps(l.(d := d), PushCut(q), floor);
    var l' := Raise(l.(q := q, txBytes := txBytes, d := d), floor);
    FieldsKeep(l.(d := d).(q := PushCut(q), floor := l'.floor), l');
  }

  lemma UnparkKeeps(l: Lane, used: Backlog)
    requires Core(l)
    ensures Fits(l.d) && Core(Unpark(l, used)) && NoHeavier(l, Unpark(l, used)) && Unpark(l, used).q == l.q
  {
    hide Core, ResetBelow, OnlyReset;
    CoreFits(l);
    if l.floor.Some? {
      ResetBelowResets(l.d, l.floor.value, used);
      ResetKeeps(l, ResetBelow(l.d, l.floor.value, used));
    }
  }

  lemma CoreFits(l: Lane)
    requires Core(l)
    ensures Fits(l.d)
  {
    hide Objs, Kept, IsSub, LiveBytes, ReplayBytes, Charged, Carries, Admitted, EndsAsked, MayEnd;
  }

  /** Fields the invariant does not look at. */
  lemma FieldsKeep(l: Lane, l': Lane)
    requires Core(l)
    requires l'.q == l.q && l'.floor == l.floor && l'.d == l.d && l'.h == l.h && l'.phase == l.phase
    requires l'.ended == l.ended && l'.stopped == l.stopped
    ensures Core(l')
  {
    hide QueueOk, AboveFloor, Named, FinsWhole, StreamsFit, WriterOk;
  }

  lemma {:induction false} TxAboveTop(tx: seq<OpenStream>, floor: nat, used: Backlog)
    requires forall t :: t in tx ==> t.group < floor
    ensures TxHeld(tx, Some(floor), used) == 0
  {
    if tx != [] {
      TxAboveTop(tx[1..], floor, used);
    }
  }

  /** Nothing is left of the queue or of the backlog above every group named. */
  lemma ShedAllIsEmpty(l: Lane, q: Queue, d: Delivery, group: nat, used: Backlog)
    requires Core(l) && l.h.top == group && Trimmed(l.q, q, l.h, group + 1) && Forgets(l.d, d)
    ensures q.bytes == 0 && TxQueued(d, Some(group + 1), used) == 0
  {
    hide Objs, Kept, IsSub, LiveBytes, ReplayBytes, Charged, Carries, Admitted, TxHeld;
    TxAboveTop(d.tx, group + 1, used);
    NoObjs();
    if Objs(q.items) != [] {
      HeadOffered(q, l.h);
      assert false;
    }
  }

  lemma ShedSomeKeeps(l: Lane, group: nat, used: Backlog, reset: Backlog)
    requires Core(l) && Fits(l.d)
    ensures var l1 := CutTo(l, group, used);
            l1.q.bytes + l1.txBytes <= l1.max ==> Inv(Unpark(Raise(l1, group), reset))
  {
    TrimTrims(l.q, l.h, group);
    hide Core, Trimmed, Trim, TxQueued, Raise, Unpark;
    var l1 := CutTo(l, group, used);
    assert Forgets(l.d, l1.d);
    RaiseKeeps(l, l1.q, l1.d, l1.txBytes, group);
    UnparkKeeps(Raise(l1, group), reset);
  }

  lemma ShedAllKeeps(l: Lane, group: nat, e: Env)
    requires Core(l) && Fits(l.d) && l.h.top == group
    ensures var l2 := CutTo(CutTo(l, group, e.shed), group + 1, e.shedAll);
            Inv(Unpark(Raise(l2, group + 1), e.reset))
  {
    TrimTrims(l.q, l.h, group);
    hide Core, Trimmed, Trim, TxQueued, Raise, Unpark;
    var l1 := CutTo(l, group, e.shed);
    var l2 := CutTo(l1, group + 1, e.shedAll);
    assert Forgets(l.d, l1.d) && Forgets(l.d, l2.d);
    ShedAllIsEmpty(l, l2.q, l1.d, group, e.shedAll);
    RaiseKeeps(l, l2.q, l2.d, l2.txBytes, group + 1);
    UnparkKeeps(Raise(l2, group + 1), e.reset);
  }

  lemma ShedKeeps(l: Lane, group: nat, e: Env)
    requires Core(l) && Fits(l.d) && l.h.top == group
    ensures Inv(Shed(l, group, e))
  {
    hide Core, CutTo, Raise, Unpark, Inv;
    ShedSomeKeeps(l, group, e.shed, e.reset);
    ShedAllKeeps(l, group, e);
  }

  lemma PushBytes(q: Queue, o: Object)
    requires !o.live
    ensures Push(q, Obj(o)).bytes == q.bytes
  {
    ObjsSnoc(q.items, Obj(o));
    BytesConcat(Objs(q.items), [o]);
  }

  lemma EnqueueKeeps(l: Lane, o: Object, e: Env)
    requires Core(l) && MayOffer(l, o) && !Below(o.group, l.floor)
    requires o.live || l.q.bytes + l.txBytes <= l.max
    ensures Fits(l.d) && Inv(Enqueue(Note(l, o), o, e))
  {
    hide Core, Push, Shed, Ascending;
    CoreFits(l);
    PushedKeeps(l, o);
    if !o.live { PushBytes(l.q, o); }
    var l1 := Note(l, o).(q := Push(l.q, Obj(o)));
    ShedKeeps(l1, o.group, e);
  }

  lemma ProbeKeeps(l: Lane, group: nat, used: Backlog)
    requires Core(l)
    ensures Core(Probe(l, group, used))
    ensures Probe(l, group, used).h == l.h && Probe(l, group, used).q == l.q && Probe(l, group, used).floor == l.floor
  {
    hide Core;
    ReadKeeps(l, l.floor, used);
    FieldsKeep(l, l.(probeN := l.probeN + 1));
    var r := ReadBacklog(l, l.floor, used);
    FieldsKeep(r, r.(probeGroup := Some(group), probeN := 1));
  }

  lemma EmptyBytes(l: Lane)
    requires Core(l) && l.q.items == []
    ensures l.q.bytes == 0
  {
    NoObjs();
  }

  lemma OfferKeeps(l: Lane, o: Object, e: Env)
    requires Inv(l) && (l.stopped || l.final || MayOffer(l, o))
    ensures Fits(l.d) && Inv(Offer(l, o, e))
  {
    hide QueueOk, AboveFloor, Named, FinsWhole, StreamsFit, WriterOk, Probe, Enqueue, WriteThrough, Ascending;
    CoreFits(l);
    if !l.stopped && !l.final {
      if Below(o.group, l.floor) {
        NoteBelowKeeps(l, o);
      } else {
        ProbeKeeps(l, o.group, e.probe);
        var l1 := if o.live then Probe(l, o.group, e.probe) else l;
        CoreFits(l1);
        if Inlines(l1, o) && !Defers(l1, o, e.inline) {
          EmptyBytes(l1);
          WriteThroughKeeps(l1, o, e.inline);
        } else {
          EnqueueKeeps(l1, o, e);
        }
      }
    }
  }
}
