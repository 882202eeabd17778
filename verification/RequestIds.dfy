/** The ids of a peer's requests: what is kept of those seen, and when one is
    refused as a duplicate. */
module RequestIds {
  const SEEN_CAP := 4096

  /** Every id below `low` counts as seen, and those of `seen`. */
  datatype Tracker = Tracker(low: nat, seen: set<nat>, max: int)

  const START := Tracker(0, {}, -1)

  predicate Refused(t: Tracker, id: nat) { id < t.low || id in t.seen }

  // ---- order in a set ---------------------------------------------------

  ghost predicate IsLeast(s: set<nat>, x: nat) { x in s && forall y :: y in s ==> x <= y }

  lemma {:induction false} LeastExists(s: set<nat>) returns (x: nat)
    requires s != {}
    ensures IsLeast(s, x)
    decreases |s|
  {
    x :| x in s;
    var rest := s - {x};
    if rest == {} {
      assert forall y :: y in s && y != x ==> y in rest;
    } else {
      var y := LeastExists(rest);
      assert forall z :: z in s && z != x ==> z in rest;
      if y < x { x := y; }
    }
  }

  ghost function Least(s: set<nat>): (x: nat)
    requires s != {}
    ensures IsLeast(s, x)
  {
    assert exists x :: IsLeast(s, x) by { var x := LeastExists(s); }
    var x :| IsLeast(s, x);
    x
  }

  /** The element of `s` with `k` smaller ones: sorted(s)[k]. */
  ghost function Nth(s: set<nat>, k: nat): nat
    requires k < |s|
    decreases k
  {
    if k == 0 then Least(s) else Nth(s - {Least(s)}, k - 1)
  }

  function UpTo(s: set<nat>, n: nat): set<nat> { set x | x in s && x <= n }

  lemma {:induction false} NthIn(s: set<nat>, k: nat)
    requires k < |s|
    ensures Nth(s, k) in s && |UpTo(s, Nth(s, k))| == k + 1
    decreases k
  {
    var least, n := Least(s), Nth(s, k);
    if k == 0 {
      assert UpTo(s, least) == {least};
    } else {
      NthIn(s - {least}, k - 1);
      assert UpTo(s, n) == UpTo(s - {least}, n) + {least};
    }
  }

  // ---- noting an id -----------------------------------------------------------

  /** The low mark moved over the ids seen contiguously. */
  function Settled(low: nat, seen: set<nat>, max: int): Tracker
    decreases |seen|
  {
    if low in seen then Settled(low + 2, seen - {low}, max) else Tracker(low, seen, max)
  }

  function AtLeast(s: set<nat>, low: nat): set<nat> { set i | i in s && i >= low }

  /** The set has no room for another id: it is cut back, and the mark with it. */
  predicate Overflows(t: Tracker) { |t.seen| >= SEEN_CAP }

  ghost function Note(t: Tracker, id: nat, parity: nat): Tracker
  {
    var max := if id > t.max then id else t.max;
    var seen := t.seen + {id};
    var low := Lifted(t.low, parity);
    if |seen| > SEEN_CAP then
      var past := Nth(seen, SEEN_CAP / 4) + 2;
      var low' := if past > low then past else low;
      Settled(low', AtLeast(seen, low'), max)
    else Settled(low, seen, max)
  }

  ghost predicate Parity(s: set<nat>, parity: nat) { parity < 2 && forall i :: i in s ==> i % 2 == parity }

  /** A mark and a set that account for every id of `accepted`. */
  ghost predicate Remembers(low: nat, seen: set<nat>, accepted: set<nat>)
  {
    && seen <= accepted && (forall i :: i in seen ==> i >= low)
    && (forall i :: i in accepted ==> i < low || i in seen)
  }

  /** `accepted` is every id noted so far: none would be accepted again, and what
      is kept is within its bound and at or above the mark. */
  ghost predicate TrackerOk(t: Tracker, accepted: set<nat>, parity: nat)
  {
    && Parity(accepted, parity) && |t.seen| <= SEEN_CAP && t.low !in t.seen && Remembers(t.low, t.seen, accepted)
    && (forall i :: i in accepted ==> i <= t.max)
    && (accepted == {} ==> t == START) && (accepted != {} ==> t.low % 2 == parity && t.max in accepted)
  }

  /** Nothing but what was accepted is refused. */
  ghost predicate Exact(t: Tracker, accepted: set<nat>, parity: nat)
  {
    forall i: nat :: i % 2 == parity && Refused(t, i) ==> i in accepted
  }

  lemma {:induction false} SettledIs(low: nat, seen: set<nat>, max: int)
    requires Parity(seen, low % 2) && forall i :: i in seen ==> i >= low
    ensures var t := Settled(low, seen, max);
            && t.max == max && t.low % 2 == low % 2 && t.low >= low && t.seen <= seen && t.low !in t.seen
            && (forall i :: i in t.seen ==> i >= t.low)
            && (forall i :: i in seen ==> Refused(t, i))
            && (forall i: nat :: i % 2 == low % 2 && Refused(t, i) ==> i < low || i in seen)
            && |t.seen| <= |seen|
    decreases |seen|
  {
    if low in seen {
      SettledIs(low + 2, seen - {low}, max);
    }
  }

  lemma SubsetSmaller(a: set<nat>, b: set<nat>)
    requires a <= b
    ensures |a| <= |b|
    decreases |a|
  {
    if a != {} {
      var x :| x in a;
      SubsetSmaller(a - {x}, b - {x});
    }
  }

  /** What an overflow leaves fits the bound, and forgets nothing. */
  lemma OverflowKeeps(seen: set<nat>, low: nat, low': nat, accepted: set<nat>)
    requires SEEN_CAP / 4 < |seen| <= SEEN_CAP + 1
    requires low' >= low && low' > Nth(seen, SEEN_CAP / 4) && Remembers(low, seen, accepted)
    ensures |AtLeast(seen, low')| <= SEEN_CAP && Remembers(low', AtLeast(seen, low'), accepted)
  {
    var n := Nth(seen, SEEN_CAP / 4);
    NthIn(seen, SEEN_CAP / 4);
    SubsetSmaller(AtLeast(seen, low'), seen - {n});
  }

  lemma SettledKeeps(low: nat, seen: set<nat>, max: int, accepted: set<nat>, parity: nat)
    requires Parity(accepted, parity) && low % 2 == parity && Remembers(low, seen, accepted) && |seen| <= SEEN_CAP
    requires max in accepted && forall i :: i in accepted ==> i <= max
    ensures TrackerOk(Settled(low, seen, max), accepted, parity)
    ensures (forall i: nat :: i % 2 == parity && i < low ==> i in accepted)
            ==> Exact(Settled(low, seen, max), accepted, parity)
  {
    SettledIs(low, seen, max);
  }

  function Lifted(low: nat, parity: nat): nat { if low % 2 != parity then low + 1 else low }

  /** The id added, before the mark moves. */
  lemma AddKeeps(t: Tracker, id: nat, accepted: set<nat>, parity: nat)
    requires TrackerOk(t, accepted, parity) && id % 2 == parity && !Refused(t, id)
    ensures var low, seen := Lifted(t.low, parity), t.seen + {id};
            && |seen| == |t.seen| + 1 && low % 2 == parity
            && Parity(accepted + {id}, parity) && Remembers(low, seen, accepted + {id})
            && (Exact(t, accepted, parity) ==> forall i: nat :: i % 2 == parity && i < low ==> i in accepted + {id})
    ensures var max := if id > t.max then id else t.max;
            max in accepted + {id} && forall i :: i in accepted + {id} ==> i <= max
  {
  }

  lemma CutParity(seen: set<nat>, low: nat, accepted: set<nat>, parity: nat)
    requires Parity(accepted, parity) && seen <= accepted && low % 2 == parity && SEEN_CAP / 4 < |seen|
    ensures var past := Nth(seen, SEEN_CAP / 4) + 2;
            (if past > low then past else low) % 2 == parity
  {
    NthIn(seen, SEEN_CAP / 4);
    hide Nth;
    var n := Nth(seen, SEEN_CAP / 4);
    assert n in accepted;
    assert (n + 2) % 2 == n % 2;
  }

  /** An accepted id is remembered for the whole session; while the set has room,
      the ids refused are exactly those accepted. */
  lemma NoteKeeps(t: Tracker, id: nat, accepted: set<nat>, parity: nat)
    requires TrackerOk(t, accepted, parity) && id % 2 == parity && !Refused(t, id)
    ensures TrackerOk(Note(t, id, parity), accepted + {id}, parity)
    ensures Exact(t, accepted, parity) && !Overflows(t) ==> Exact(Note(t, id, parity), accepted + {id}, parity)
  {
    hide Settled, Nth, TrackerOk, Remembers, Parity, Exact, Lifted, AtLeast;
    AddKeeps(t, id, accepted, parity);
    TrackerFits(t, accepted, parity);
    var accepted' := accepted + {id};
    var max := if id > t.max then id else t.max;
    var low, seen := Lifted(t.low, parity), t.seen + {id};
    if |seen| > SEEN_CAP {
      SeenAccepted(low, seen, accepted');
      var past := Nth(seen, SEEN_CAP / 4) + 2;
      var low' := if past > low then past else low;
      CutParity(seen, low, accepted', parity);
      OverflowKeeps(seen, low, low', accepted');
      SettledKeeps(low', AtLeast(seen, low'), max, accepted', parity);
    } else {
      SettledKeeps(low, seen, max, accepted', parity);
    }
  }

  lemma TrackerFits(t: Tracker, accepted: set<nat>, parity: nat)
    requires TrackerOk(t, accepted, parity)
    ensures |t.seen| <= SEEN_CAP
  {
  }

  lemma SeenAccepted(low: nat, seen: set<nat>, accepted: set<nat>)
    requires Remembers(low, seen, accepted)
    ensures seen <= accepted
  {
  }

  // ---- runs -------------------------------------------------------------------

  /** Every id of `ids` is accepted, in turn. */
  ghost predicate Accepts(t: Tracker, ids: seq<nat>, parity: nat)
    decreases ids
  {
    ids == [] || (ids[0] % 2 == parity && !Refused(t, ids[0]) && Accepts(Note(t, ids[0], parity), ids[1..], parity))
  }

  /** The tracker after `ids`. */
  ghost function After(t: Tracker, ids: seq<nat>, parity: nat): Tracker
    decreases ids
  {
    if ids == [] then t else After(Note(t, ids[0], parity), ids[1..], parity)
  }

  function Ids(ids: seq<nat>): set<nat> { set i | i in ids }

  lemma {:induction false} RunKeeps(t: Tracker, accepted: set<nat>, ids: seq<nat>, parity: nat)
    requires TrackerOk(t, accepted, parity) && Accepts(t, ids, parity)
    ensures TrackerOk(After(t, ids, parity), accepted + Ids(ids), parity)
    ensures forall i, j :: 0 <= i < j < |ids| ==> ids[i] != ids[j]
    ensures forall i :: i in ids ==> i !in accepted
    decreases ids
  {
    hide TrackerOk, Note, Parity;
    if ids == [] {
      assert accepted + Ids(ids) == accepted;
    } else {
      var id, rest := ids[0], ids[1..];
      NoteKeeps(t, id, accepted, parity);
      AcceptedRefused(t, accepted, parity);
      RunKeeps(Note(t, id, parity), accepted + {id}, rest, parity);
      assert ids == [id] + rest;
      assert accepted + Ids(ids) == (accepted + {id}) + Ids(rest);
      assert forall j :: 0 < j < |ids| ==> ids[j] in rest;
    }
  }

  lemma AcceptedRefused(t: Tracker, accepted: set<nat>, parity: nat)
    requires TrackerOk(t, accepted, parity)
    ensures forall i :: i in accepted ==> Refused(t, i)
  {
  }

  /** In whatever order the ids of a session arrive: no id is accepted twice, the
      ids kept are at most SEEN_CAP and none is below the mark. */
  lemma NeverTwice(ids: seq<nat>, parity: nat)
    requires parity < 2 && Accepts(START, ids, parity)
    ensures forall i, j :: 0 <= i < j < |ids| ==> ids[i] != ids[j]
    ensures var t := After(START, ids, parity);
            && |t.seen| <= SEEN_CAP && (forall i :: i in t.seen ==> i in ids && i >= t.low)
            && (forall i :: i in ids ==> Refused(t, i))
  {
    RunKeeps(START, {}, ids, parity);
    forall i | i in ids
      ensures Refused(After(START, ids, parity), i)
    {
      assert i in {} + Ids(ids);
    }
  }

  /** The set never overflows on the way. */
  ghost predicate Roomy(t: Tracker, ids: seq<nat>, parity: nat)
    decreases ids
  {
    ids == [] || (!Overflows(t) && Roomy(Note(t, ids[0], parity), ids[1..], parity))
  }

  lemma {:induction false} RoomyAccepts(t: Tracker, accepted: set<nat>, ids: seq<nat>, parity: nat)
    requires TrackerOk(t, accepted, parity) && Exact(t, accepted, parity) && Roomy(t, ids, parity)
    requires forall i :: 0 <= i < |ids| ==> ids[i] % 2 == parity && ids[i] !in accepted
    requires forall i, j :: 0 <= i < j < |ids| ==> ids[i] != ids[j]
    ensures Accepts(t, ids, parity)
    decreases ids
  {
    hide TrackerOk, Note;
    if ids != [] {
      assert !Refused(t, ids[0]);
      NoteKeeps(t, ids[0], accepted, parity);
      hide Exact;
      RoomyAccepts(Note(t, ids[0], parity), accepted + {ids[0]}, ids[1..], parity);
    }
  }

  /** Until the set of ids seen first overflows, ids are refused exactly for having
      been seen. */
  lemma RefusedIffSeen(ids: seq<nat>, parity: nat)
    requires parity < 2 && Roomy(START, ids, parity) && forall i :: 0 <= i < |ids| ==> ids[i] % 2 == parity
    ensures Accepts(START, ids, parity) <==> forall i, j :: 0 <= i < j < |ids| ==> ids[i] != ids[j]
  {
    if Accepts(START, ids, parity) {
      RunKeeps(START, {}, ids, parity);
    }
    if forall i, j :: 0 <= i < j < |ids| ==> ids[i] != ids[j] {
      RoomyAccepts(START, {}, ids, parity);
    }
  }

  function Above(s: set<nat>, u: nat): set<nat> { set i | i in s && i > u }

  /** The set holds the ids accepted above the lowest id still missing: so it
      overflows when the next arrives with SEEN_CAP of them above that one. */
  lemma SeenIsAbove(t: Tracker, accepted: set<nat>, parity: nat)
    requires TrackerOk(t, accepted, parity) && Exact(t, accepted, parity) && accepted != {}
    ensures t.low % 2 == parity && t.low !in accepted && t.seen == Above(accepted, t.low)
    ensures forall i: nat :: i % 2 == parity && i < t.low ==> i in accepted
    ensures Overflows(t) <==> |Above(accepted, t.low)| == SEEN_CAP
  {
    assert Refused(t, t.low) ==> t.low in t.seen;
    assert t.seen == Above(accepted, t.low);
  }

  /** Noting `id` gives up no id still to come: there is room, or all the ids the
      mark is moved over have come. */
  ghost predicate Lossless(t: Tracker, id: nat, parity: nat)
  {
    |t.seen + {id}| > SEEN_CAP ==>
      forall i: nat :: i % 2 == parity && Lifted(t.low, parity) <= i <= Nth(t.seen + {id}, SEEN_CAP / 4)
        ==> i in t.seen + {id}
  }

  /** When an overflow loses ids: noting one more leaves exactly the ids accepted
      refused if and only if every id up to a quarter of the way into the set has
      come. */
  lemma LosslessIff(t: Tracker, id: nat, accepted: set<nat>, parity: nat)
    requires TrackerOk(t, accepted, parity) && Exact(t, accepted, parity) && id % 2 == parity && !Refused(t, id)
    ensures Exact(Note(t, id, parity), accepted + {id}, parity) <==> Lossless(t, id, parity)
  {
    hide Settled, Nth, TrackerOk, Parity, AtLeast, Lifted, Remembers, Exact;
    TrackerFits(t, accepted, parity);
    NoteKeeps(t, id, accepted, parity);
    AddKeeps(t, id, accepted, parity);
    if |t.seen + {id}| > SEEN_CAP {
      OverflowExact(t, id, accepted, parity);
    }
  }

  lemma OverflowExact(t: Tracker, id: nat, accepted: set<nat>, parity: nat)
    requires TrackerOk(t, accepted, parity) && Exact(t, accepted, parity) && id % 2 == parity && !Refused(t, id)
    requires SEEN_CAP < |t.seen + {id}| <= SEEN_CAP + 1
    ensures var low, seen := Lifted(t.low, parity), t.seen + {id};
            Exact(Note(t, id, parity), accepted + {id}, parity)
            <==> forall i: nat :: i % 2 == parity && low <= i <= Nth(seen, SEEN_CAP / 4) ==> i in seen
  {
    hide Settled, Nth, TrackerOk, Parity, AtLeast, Lifted, Remembers, Exact;
    var low, seen, accepted' := Lifted(t.low, parity), t.seen + {id}, accepted + {id};
    var n, max := Nth(seen, SEEN_CAP / 4), if id > t.max then id else t.max;
    AddKeeps(t, id, accepted, parity);
    NthIn(seen, SEEN_CAP / 4);
    SeenAccepted(low, seen, accepted');
    CutParity(seen, low, accepted', parity);
    var low' := if n + 2 > low then n + 2 else low;
    OverflowKeeps(seen, low, low', accepted');
    SettledLow(low', AtLeast(seen, low'), max);
    SettledKeeps(low', AtLeast(seen, low'), max, accepted', parity);
    assert Note(t, id, parity) == Settled(low', AtLeast(seen, low'), max);
    CutAt(low, seen, accepted', n, parity);
    ExactBelow(Note(t, id, parity), accepted', low', parity);
  }

  /** The ids of the parity below the new mark: those before the old one have all
      come, and of the others just those in the set. */
  lemma CutAt(low: nat, seen: set<nat>, accepted: set<nat>, n: nat, parity: nat)
    requires Remembers(low, seen, accepted) && n in seen && Parity(accepted, parity) && low % 2 == parity
    requires forall i: nat :: i % 2 == parity && i < low ==> i in accepted
    ensures n >= low
    ensures (forall i: nat :: i % 2 == parity && i < n + 2 ==> i in accepted)
            <==> forall i: nat :: i % 2 == parity && low <= i <= n ==> i in seen
  {
    if forall i: nat :: i % 2 == parity && low <= i <= n ==> i in seen {
      forall i: nat | i % 2 == parity && i < n + 2
        ensures i in accepted
      {
        SameParity(i, n);
      }
    }
  }

  lemma SameParity(i: nat, n: nat)
    requires i % 2 == n % 2 && i < n + 2
    ensures i <= n
  {
  }

  lemma ExactBelow(t: Tracker, accepted: set<nat>, low: nat, parity: nat)
    requires t.low >= low
    ensures Exact(t, accepted, parity) ==> forall i: nat :: i % 2 == parity && i < low ==> i in accepted
  {
  }

  /** An overflow gives up ids that have not come: whatever has at most a quarter
      of the set at or below it is refused from then on. */
  lemma OverflowGivesUp(t: Tracker, id: nat, accepted: set<nat>, parity: nat, late: nat)
    requires TrackerOk(t, accepted, parity) && id % 2 == parity && !Refused(t, id)
    requires Overflows(t) && |UpTo(t.seen + {id}, late)| <= SEEN_CAP / 4
    ensures Refused(Note(t, id, parity), late)
  {
    hide TrackerOk, Nth, Settled;
    var seen := t.seen + {id};
    AddKeeps(t, id, accepted, parity);
    NthIn(seen, SEEN_CAP / 4);
    var n, low := Nth(seen, SEEN_CAP / 4), Lifted(t.low, parity);
    if late >= n {
      SubsetSmaller(UpTo(seen, n), UpTo(seen, late));
      assert false;
    }
    var low' := if n + 2 > low then n + 2 else low;
    SettledLow(low', AtLeast(seen, low'), if id > t.max then id else t.max);
  }

  lemma {:induction false} SettledLow(low: nat, seen: set<nat>, max: int)
    ensures Settled(low, seen, max).low >= low
    decreases |seen|
  {
    if low in seen { SettledLow(low + 2, seen - {low}, max); }
  }

  /** No id noted on the way gives up one still to come. */
  ghost predicate AllLossless(t: Tracker, ids: seq<nat>, parity: nat)
    decreases ids
  {
    ids == [] || (Lossless(t, ids[0], parity) && AllLossless(Note(t, ids[0], parity), ids[1..], parity))
  }

  /** What is refused without having come stays so. */
  lemma {:induction false} LostForGood(t: Tracker, accepted: set<nat>, ids: seq<nat>, parity: nat)
    requires TrackerOk(t, accepted, parity) && Accepts(t, ids, parity) && !Exact(t, accepted, parity)
    ensures !Exact(After(t, ids, parity), accepted + Ids(ids), parity)
    decreases ids
  {
    hide TrackerOk, Note, Nth, Exact;
    if ids == [] {
      assert accepted + Ids(ids) == accepted;
    } else {
      NoteKeeps(t, ids[0], accepted, parity);
      NoteLoses(t, ids[0], accepted, parity);
      LostForGood(Note(t, ids[0], parity), accepted + {ids[0]}, ids[1..], parity);
      assert ids == [ids[0]] + ids[1..];
      assert accepted + Ids(ids) == (accepted + {ids[0]}) + Ids(ids[1..]);
    }
  }

  lemma NoteLoses(t: Tracker, id: nat, accepted: set<nat>, parity: nat)
    requires TrackerOk(t, accepted, parity) && id % 2 == parity && !Refused(t, id) && !Exact(t, accepted, parity)
    ensures !Exact(Note(t, id, parity), accepted + {id}, parity)
  {
    hide Settled, Nth;
    var i: nat :| i % 2 == parity && Refused(t, i) && i !in accepted;
    assert i < t.low;
    NoteLow(t, id, parity);
  }

  lemma NoteLow(t: Tracker, id: nat, parity: nat)
    ensures Note(t, id, parity).low >= t.low
  {
    hide Nth, Settled;
    var max := if id > t.max then id else t.max;
    forall low: nat, seen
      ensures Settled(low, seen, max).low >= low
    {
      SettledLow(low, seen, max);
    }
  }

  lemma {:induction false} RunLossless(t: Tracker, accepted: set<nat>, ids: seq<nat>, parity: nat)
    requires TrackerOk(t, accepted, parity) && Exact(t, accepted, parity) && Accepts(t, ids, parity)
    ensures Exact(After(t, ids, parity), accepted + Ids(ids), parity) <==> AllLossless(t, ids, parity)
    decreases ids
  {
    hide TrackerOk, Note, Nth, Exact, Lossless;
    if ids == [] {
      assert accepted + Ids(ids) == accepted;
    } else {
      var id, rest := ids[0], ids[1..];
      LosslessIff(t, id, accepted, parity);
      NoteKeeps(t, id, accepted, parity);
      assert ids == [id] + rest;
      assert accepted + Ids(ids) == (accepted + {id}) + Ids(rest);
      if Lossless(t, id, parity) {
        RunLossless(Note(t, id, parity), accepted + {id}, rest, parity);
      } else {
        LostForGood(Note(t, id, parity), accepted + {id}, rest, parity);
      }
    }
  }

  /** Over a whole session, an id that never came is refused if and only if, at some
      point, the set was cut back over one. */
  lemma NothingLostIff(ids: seq<nat>, parity: nat)
    requires parity < 2 && Accepts(START, ids, parity)
    ensures (forall i: nat :: i % 2 == parity && Refused(After(START, ids, parity), i) ==> i in ids)
            <==> AllLossless(START, ids, parity)
  {
    hide Accepts, AllLossless, After, Refused;
    StartOk();
    StartExact(parity);
    RunLossless(START, {}, ids, parity);
    assert {} + Ids(ids) == Ids(ids);
  }

  lemma StartExact(parity: nat)
    ensures Exact(START, {}, parity)
  {
  }

  // ---- a tight case -----------------------------------------------------------

  /** 2, then 6, 8, and so on: 0 and 4 are missing. */
  function Gapped(n: nat): seq<nat>
  {
    if n == 0 then [] else Gapped(n - 1) + [GappedId(n)]
  }

  lemma {:induction false} GappedIs(n: nat)
    ensures |Gapped(n)| == n && |Ids(Gapped(n))| == n
    ensures forall i :: i in Ids(Gapped(n)) ==> i % 2 == 0 && 2 <= i <= 2 * n + 2 && i != 4
    ensures n > 0 ==> 2 in Ids(Gapped(n))
  {
    if n > 0 {
      GappedIs(n - 1);
      GappedMore(n);
    }
  }

  lemma GappedMore(n: nat)
    requires n > 0
    ensures Gapped(n) == Gapped(n - 1) + [GappedId(n)] && Ids(Gapped(n)) == Ids(Gapped(n - 1)) + {GappedId(n)}
  {
  }

  lemma {:induction false} AcceptsMore(t: Tracker, ids: seq<nat>, id: nat, parity: nat)
    requires Accepts(t, ids, parity) && id % 2 == parity && !Refused(After(t, ids, parity), id)
    ensures Accepts(t, ids + [id], parity)
    ensures After(t, ids + [id], parity) == Note(After(t, ids, parity), id, parity)
    decreases ids
  {
    hide Note;
    if ids == [] {
      assert [] + [id] == [id] && [id][1..] == [];
    } else {
      assert (ids + [id])[1..] == ids[1..] + [id];
      AcceptsMore(Note(t, ids[0], parity), ids[1..], id, parity);
    }
  }

  lemma {:induction false} GappedAccepts(n: nat)
    requires n <= SEEN_CAP
    ensures Accepts(START, Gapped(n), 0)
    ensures var t := After(START, Gapped(n), 0); t.low == 0 && t.seen == Ids(Gapped(n))
  {
    if n > 0 {
      hide Gapped, Note, Accepts, After;
      GappedAccepts(n - 1);
      GappedStep(n, After(START, Gapped(n - 1), 0));
      AcceptsMore(START, Gapped(n - 1), GappedId(n), 0);
    }
  }

  function GappedId(n: nat): nat { if n == 1 then 2 else 2 * n + 2 }

  lemma GappedStep(n: nat, t: Tracker)
    requires 0 < n <= SEEN_CAP && t.low == 0 && t.seen == Ids(Gapped(n - 1))
    ensures Gapped(n) == Gapped(n - 1) + [GappedId(n)] && GappedId(n) % 2 == 0 && !Refused(t, GappedId(n))
    ensures var r := Note(t, GappedId(n), 0); r.low == 0 && r.seen == Ids(Gapped(n))
  {
    GappedMore(n);
    GappedIs(n - 1);
    GappedIs(n);
    hide Gapped, Note;
    NotePlain(t, GappedId(n));
  }

  lemma NotePlain(t: Tracker, id: nat)
    requires t.low == 0 && 0 !in t.seen + {id} && |t.seen + {id}| <= SEEN_CAP
    ensures Note(t, id, 0) == Tracker(0, t.seen + {id}, if id > t.max then id else t.max)
  {
  }

  /** SEEN_CAP accepted above a missing id is one too many: here no missing id ever
      has more above it, and yet when 0 comes last, 4 is taken for a duplicate
      though it never came. */
  lemma OneTooMany()
    ensures var ids := Gapped(SEEN_CAP) + [0];
            && Accepts(START, ids, 0) && 4 !in ids && Refused(After(START, ids, 0), 4)
            && forall k: nat, u: nat :: k <= |ids| && u !in ids[..k] ==> |Above(Ids(ids[..k]), u)| <= SEEN_CAP
  {
    hide Gapped, Note, TrackerOk, Accepts, After;
    var g := Gapped(SEEN_CAP);
    var ids := g + [0];
    GappedIs(SEEN_CAP);
    GappedAccepts(SEEN_CAP);
    StartOk();
    RunKeeps(START, {}, g, 0);
    var t := After(START, g, 0);
    AcceptsMore(START, g, 0, 0);
    assert {} + Ids(g) == Ids(g);
    assert UpTo(t.seen + {0}, 4) == {0, 2};
    OverflowGivesUp(t, 0, Ids(g), 0, 4);
    assert 4 !in Ids(g);
    forall k: nat, u: nat | k <= |ids| && u !in ids[..k]
      ensures |Above(Ids(ids[..k]), u)| <= SEEN_CAP
    {
      SubsetSmaller(Above(Ids(ids[..k]), u), Ids(g));
    }
  }

  lemma StartOk()
    ensures TrackerOk(START, {}, 0) && TrackerOk(START, {}, 1)
  {
  }
}
