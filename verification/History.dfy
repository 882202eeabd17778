/** The byte-bounded object cache that answers FETCH: eviction as a prefix of
    one publication order, and its agreement with all that was published to each
    group since it was last discarded. */
module History {
  import opened Basics
  import opened Locations

  type Bytes = seq<int>
  type Props = seq<(nat, Bytes)>

  const OBJECT_RECORD_BYTES := 224
  const MAX_OBJECT_ID := 0x3fff_ffff_ffff_ffff

  function LaterOf(a: Option<Loc>, b: Loc): Option<Loc> { Some(if a.None? then b else Later(a.value, b)) }

  predicate Reached(a: Loc, mark: Option<Loc>) { mark.Some? && AtMost(a, mark.value) }

  /** `subgroup` is None for an object sent as a datagram. */
  datatype Record = Record(id: nat, subgroup: Option<nat>, payload: Bytes, props: Props, priority: nat, cost: nat)

  /** A group's records still held, in publication order, and the largest
      Object ID among those evicted of it, -1 for none. */
  datatype Group = Group(id: nat, records: seq<Record>, evicted: int)

  /** Groups oldest first; `through` is the largest Location of those dropped whole. */
  datatype Held = Held(groups: seq<Group>, through: Option<Loc>)

  /** One add, or one record held, with its group. */
  datatype Logged = Logged(group: nat, r: Record)

  function At(e: Logged): Loc { Loc(e.group, e.r.id) }

  function Weight(s: seq<Logged>): nat { if s == [] then 0 else s[0].r.cost + Weight(s[1..]) }

  function Tagged(group: nat, records: seq<Record>): (s: seq<Logged>)
    ensures |s| == |records| && forall i :: 0 <= i < |s| ==> s[i] == Logged(group, records[i])
  {
    seq(|records|, i requires 0 <= i < |records| => Logged(group, records[i]))
  }

  /** What is held, in the order it goes. */
  function Flat(groups: seq<Group>): seq<Logged>
  {
    if groups == [] then [] else Tagged(groups[0].id, groups[0].records) + Flat(groups[1..])
  }

  function Size(h: Held): nat { Weight(Flat(h.groups)) }

  function GroupBytes(g: Group): nat { Weight(Tagged(g.id, g.records)) }

  function LargestId(records: seq<Record>): (m: int)
    ensures m >= -1 && (records != [] ==> m >= 0)
  {
    if records == [] then -1
    else
      var rest := LargestId(records[..|records| - 1]);
      var r := records[|records| - 1];
      if r.id > rest then r.id else rest
  }

  lemma {:induction false} LargestIs(records: seq<Record>)
    ensures forall r :: r in records ==> r.id <= LargestId(records)
    ensures records != [] ==> exists r :: r in records && r.id == LargestId(records)
  {
    if records != [] {
      LargestIs(records[..|records| - 1]);
      var r := records[|records| - 1];
      assert records == records[..|records| - 1] + [r] && r in records;
    }
  }

  /** Largest Location dropped: at or below it, status is unknown. */
  function EvictedThrough(h: Held): Option<Loc>
  {
    if h.groups != [] && h.groups[0].evicted >= 0
    then LaterOf(h.through, Loc(h.groups[0].id, h.groups[0].evicted))
    else h.through
  }

  // ---- eviction ----------------------------------------------------------

  function DropOldest(h: Held): Held
    requires h.groups != [] && h.groups[0].records != []
  {
    var g := h.groups[0];
    var m := LargestId(g.records);
    Held(h.groups[1..], LaterOf(h.through, Loc(g.id, if g.evicted > m then g.evicted else m)))
  }

  function DropRecord(h: Held): Held
    requires h.groups != [] && h.groups[0].records != []
  {
    var g := h.groups[0];
    var id := g.records[0].id;
    h.(groups := [g.(records := g.records[1..], evicted := if id > g.evicted then id else g.evicted)] + h.groups[1..])
  }

  predicate NoneEmpty(groups: seq<Group>) { forall g :: g in groups ==> g.records != [] }

  /** The oldest group goes whole: it is down to one record, or the excess
      covers all of it. */
  predicate GoesWhole(h: Held, cap: int)
    requires h.groups != []
  {
    |h.groups[0].records| == 1 || GroupBytes(h.groups[0]) <= Size(h) - cap
  }

  function Evict(h: Held, cap: int): Held
    requires NoneEmpty(h.groups)
    decreases |Flat(h.groups)|
  {
    if h.groups == [] || Size(h) <= cap then h
    else
      assert h.groups[0] in h.groups;
      FlatHead(h);
      if GoesWhole(h, cap) then Evict(DropOldest(h), cap) else Evict(DropRecord(h), cap)
  }

  /** The next step's order: the oldest record, or the oldest group's records. */
  lemma FlatHead(h: Held)
    requires h.groups != [] && h.groups[0].records != []
    ensures var g := h.groups[0];
            && Flat(h.groups) == Tagged(g.id, g.records) + Flat(DropOldest(h).groups)
            && Flat(h.groups) == [Logged(g.id, g.records[0])] + Flat(DropRecord(h).groups)
            && |Flat(h.groups)| > |Flat(DropOldest(h).groups)|
            && |Flat(h.groups)| > |Flat(DropRecord(h).groups)|
  {
    hide LargestId, LaterOf;
    var g := h.groups[0];
    FlatCons(g, h.groups[1..]);
    FlatCons(DropRecord(h).groups[0], h.groups[1..]);
    hide Flat;
    assert h.groups == [g] + h.groups[1..];
    TaggedCons(g.id, g.records);
  }

  lemma FlatCons(g: Group, rest: seq<Group>)
    ensures Flat([g] + rest) == Tagged(g.id, g.records) + Flat(rest)
  {
    assert ([g] + rest)[1..] == rest;
  }

  lemma TaggedCons(id: nat, records: seq<Record>)
    requires records != []
    ensures Tagged(id, records) == [Logged(id, records[0])] + Tagged(id, records[1..])
  {
  }

  /** `mark` once everything of `s` is dropped too. */
  function LaterAll(mark: Option<Loc>, s: seq<Logged>): Option<Loc>
  {
    if s == [] then mark else LaterOf(LaterAll(mark, s[..|s| - 1]), At(s[|s| - 1]))
  }

  lemma {:induction false} LaterAllConcat(mark: Option<Loc>, a: seq<Logged>, b: seq<Logged>)
    ensures LaterAll(mark, a + b) == LaterAll(LaterAll(mark, a), b)
  {
    if b == [] {
      assert a + b == a;
    } else {
      assert (a + b)[..|a + b| - 1] == a + b[..|b| - 1];
      LaterAllConcat(mark, a, b[..|b| - 1]);
    }
  }

  lemma {:induction false} LaterAllGroup(mark: Option<Loc>, group: nat, records: seq<Record>)
    requires records != []
    ensures LaterAll(mark, Tagged(group, records)) == LaterOf(mark, Loc(group, LargestId(records)))
  {
    var init, r := records[..|records| - 1], records[|records| - 1];
    var s := Tagged(group, records);
    assert s[..|s| - 1] == Tagged(group, init);
    assert s[|s| - 1] == Logged(group, r);
    if init != [] { LaterAllGroup(mark, group, init); }
  }

  lemma {:induction false} ReachedStays(a: Loc, mark: Option<Loc>, s: seq<Logged>)
    requires Reached(a, mark)
    ensures Reached(a, LaterAll(mark, s))
  {
    if s != [] { ReachedStays(a, mark, s[..|s| - 1]); }
  }

  lemma {:induction false} DroppedReached(mark: Option<Loc>, s: seq<Logged>, i: nat)
    requires i < |s|
    ensures Reached(At(s[i]), LaterAll(mark, s))
  {
    if i < |s| - 1 { DroppedReached(mark, s[..|s| - 1], i); }
  }

  lemma {:induction false} WeightConcat(a: seq<Logged>, b: seq<Logged>)
    ensures Weight(a + b) == Weight(a) + Weight(b)
  {
    if a == [] {
      assert a + b == b;
    } else {
      assert (a + b)[1..] == a[1..] + b;
      WeightConcat(a[1..], b);
    }
  }

  // ---- shape ------------------------------------------------------------------

  /** Every listed group holds a record, under an id of its own, and only the
      oldest has been evicted from. */
  ghost predicate Shape(h: Held)
  {
    && NoneEmpty(h.groups)
    && (forall i, j :: 0 <= i < j < |h.groups| ==> h.groups[i].id != h.groups[j].id)
    && (forall i :: 0 < i < |h.groups| ==> h.groups[i].evicted == -1)
    && (h.groups != [] ==> h.groups[0].evicted >= -1)
    && (forall g, r :: g in h.groups && r in g.records ==> r.cost > 0)
  }

  lemma DropOldestShape(h: Held)
    requires Shape(h) && h.groups != [] && h.groups[0].records != []
    ensures Shape(DropOldest(h)) && EvictedThrough(DropOldest(h)) == DropOldest(h).through
  {
    hide LargestId, LaterOf;
    var groups := h.groups[1..];
    assert forall g :: g in groups ==> g in h.groups;
    assert forall i :: 0 <= i < |groups| ==> groups[i] == h.groups[i + 1];
  }

  lemma WholeMark(h: Held)
    requires h.groups != [] && h.groups[0].records != [] && h.groups[0].evicted >= -1
    ensures var g := h.groups[0];
            DropOldest(h).through == LaterOf(EvictedThrough(h), Loc(g.id, LargestId(g.records)))
  {
  }

  lemma DropOldestStep(h: Held)
    requires Shape(h) && h.groups != []
    ensures var g, h' := h.groups[0], DropOldest(h);
            && Shape(h') && Flat(h.groups) == Tagged(g.id, g.records) + Flat(h'.groups)
            && EvictedThrough(h') == LaterAll(EvictedThrough(h), Tagged(g.id, g.records))
  {
    assert h.groups[0] in h.groups;
    FlatHead(h);
    DropOldestShape(h);
    WholeMark(h);
    LaterAllGroup(EvictedThrough(h), h.groups[0].id, h.groups[0].records);
    hide Weight, Flat, LaterAll, LaterOf, LargestId, Shape, Tagged, EvictedThrough, DropOldest;
  }

  lemma DropRecordStep(h: Held)
    requires Shape(h) && h.groups != [] && |h.groups[0].records| > 1
    ensures var g, h' := h.groups[0], DropRecord(h);
            && Shape(h') && Flat(h.groups) == [Logged(g.id, g.records[0])] + Flat(h'.groups)
            && EvictedThrough(h') == LaterAll(EvictedThrough(h), [Logged(g.id, g.records[0])])
  {
    var g, h' := h.groups[0], DropRecord(h);
    FlatHead(h);
    assert LaterAll(EvictedThrough(h), [Logged(g.id, g.records[0])])
           == LaterOf(EvictedThrough(h), Loc(g.id, g.records[0].id)) by {
      assert [Logged(g.id, g.records[0])][..0] == [];
    }
    forall x, r | x in h'.groups && r in x.records
      ensures r.cost > 0
    {
      if x == h'.groups[0] { assert g in h.groups && r in g.records; } else { assert x in h.groups; }
    }
    forall x | x in h'.groups
      ensures x.records != []
    {
      if x != h'.groups[0] { assert x in h.groups; }
    }
  }

  /** The order once `k` records of it are dropped down to `cap`: no fewer would do. */
  ghost predicate Shortest(s: seq<Logged>, k: nat, cap: int)
    requires k <= |s|
  {
    (k == |s| || Weight(s[k..]) <= cap) && (k > 0 ==> Weight(s[k - 1..]) > cap)
  }

  lemma ShortestMore(a: seq<Logged>, b: seq<Logged>, k: nat, cap: int)
    requires k <= |b| && Shortest(b, k, cap) && a != []
    requires Weight((a + b)[|a| - 1..]) > cap
    ensures |a| + k <= |a + b| && Shortest(a + b, |a| + k, cap) && (a + b)[|a| + k..] == b[k..]
  {
    assert (a + b)[|a| + k..] == b[k..];
    if k > 0 { assert (a + b)[|a| + k - 1..] == b[k - 1..]; }
  }

  lemma LastOfGroup(h: Held, cap: int)
    requires Shape(h) && h.groups != [] && Size(h) > cap && GoesWhole(h, cap)
    ensures var g := h.groups[0];
            var a, b := Tagged(g.id, g.records), Flat(DropOldest(h).groups);
            Weight((a + b)[|a| - 1..]) > cap
  {
    var g := h.groups[0];
    assert g in h.groups && g.records[|g.records| - 1] in g.records;
    FlatHead(h);
    hide Flat, LargestId, Shape;
    LastWeight(Tagged(g.id, g.records), Flat(DropOldest(h).groups), cap);
  }

  lemma LastWeight(a: seq<Logged>, b: seq<Logged>, cap: int)
    requires a != [] && a[|a| - 1].r.cost > 0 && Weight(a + b) > cap
    requires |a| == 1 || Weight(a) <= Weight(a + b) - cap
    ensures Weight((a + b)[|a| - 1..]) > cap
  {
    var last := a[|a| - 1..];
    assert (a + b)[|a| - 1..] == last + b;
    WeightConcat(a, b);
    WeightConcat(last, b);
    assert last == [a[|a| - 1]];
    OneWeight(a[|a| - 1]);
    if |a| == 1 { assert last == a; }
  }

  /** Evicting in batches drops, of the publication order, exactly what
      record-by-record eviction would, and the mark covers just that. */
  lemma {:induction false} EvictDropsPrefix(h: Held, cap: int) returns (k: nat)
    requires Shape(h)
    ensures Shape(Evict(h, cap))
    ensures k <= |Flat(h.groups)| && Flat(Evict(h, cap).groups) == Flat(h.groups)[k..]
    ensures Shortest(Flat(h.groups), k, cap)
    ensures EvictedThrough(Evict(h, cap)) == LaterAll(EvictedThrough(h), Flat(h.groups)[..k])
    decreases |Flat(h.groups)|
  {
    hide Shape, Weight, LaterAll, EvictedThrough, Shortest, LargestId, LaterOf;
    var flat := Flat(h.groups);
    if h.groups == [] || Size(h) <= cap {
      k := 0;
      KeepAll(h, cap);
    } else {
      EvictStep(h, cap);
      var a := if GoesWhole(h, cap) then Tagged(h.groups[0].id, h.groups[0].records)
               else [Logged(h.groups[0].id, h.groups[0].records[0])];
      var h' := if GoesWhole(h, cap) then DropOldest(h) else DropRecord(h);
      var b := Flat(h'.groups);
      var k' := EvictDropsPrefix(h', cap);
      k := |a| + k';
      ShortestMore(a, b, k', cap);
      LaterAllConcat(EvictedThrough(h), a, b[..k']);
      assert flat[..k] == a + b[..k'];
    }
  }

  lemma KeepAll(h: Held, cap: int)
    requires h.groups == [] || Size(h) <= cap
    ensures var flat := Flat(h.groups);
            flat[0..] == flat && Shortest(flat, 0, cap) && LaterAll(EvictedThrough(h), flat[..0]) == EvictedThrough(h)
  {
    var flat := Flat(h.groups);
    assert flat[0..] == flat;
  }

  lemma EvictStep(h: Held, cap: int)
    requires Shape(h) && h.groups != [] && Size(h) > cap
    ensures NoneEmpty(h.groups) && h.groups[0].records != []
    ensures var g := h.groups[0];
            var whole := GoesWhole(h, cap);
            var a := if whole then Tagged(g.id, g.records) else [Logged(g.id, g.records[0])];
            var h' := if whole then DropOldest(h) else DropRecord(h);
            && Shape(h') && Flat(h.groups) == a + Flat(h'.groups) && Evict(h, cap) == Evict(h', cap)
            && a != [] && Weight((a + Flat(h'.groups))[|a| - 1..]) > cap
            && EvictedThrough(h') == LaterAll(EvictedThrough(h), a)
  {
    assert h.groups[0] in h.groups;
    if GoesWhole(h, cap) {
      DropOldestStep(h);
      LastOfGroup(h, cap);
    } else {
      DropRecordStep(h);
      var flat := Flat(h.groups);
      assert flat[0..] == flat;
    }
  }

  // ---- adding and discarding -----------------------------------------------------

  function HeldOf(groups: seq<Group>, id: nat): seq<Record>
  {
    if groups == [] then [] else if groups[0].id == id then groups[0].records else HeldOf(groups[1..], id)
  }

  /** `r` at the end of its group, a new group coming last. */
  function Put(groups: seq<Group>, id: nat, r: Record): seq<Group>
  {
    if groups == [] then [Group(id, [r], -1)]
    else if groups[0].id == id then [groups[0].(records := groups[0].records + [r])] + groups[1..]
    else [groups[0]] + Put(groups[1..], id, r)
  }

  function Remove(groups: seq<Group>, id: nat): seq<Group>
  {
    if groups == [] then [] else if groups[0].id == id then groups[1..] else [groups[0]] + Remove(groups[1..], id)
  }

  /** max_bytes and the overshoot it allows; `fixed` when the caller chose it. */
  datatype Bounds = Bounds(max: nat, slack: nat, fixed: bool)

  /** What an add that leaves `held` bytes evicts down to, if it evicts. */
  function Cap(b: Bounds, held: int, cost: nat): Option<int>
  {
    if held <= b.max + b.slack then None
    else if b.fixed then Some(b.max - b.slack)
    else if held - cost > b.max then Some(b.max - Max(b.slack, cost))
    else None
  }

  function Add(h: Held, b: Bounds, id: nat, r: Record): Held
    requires NoneEmpty(Put(h.groups, id, r))
  {
    var h1 := h.(groups := Put(h.groups, id, r));
    var cap := Cap(b, Size(h1), r.cost);
    if cap.None? then h1 else Evict(h1, cap.value)
  }

  function Discard(h: Held, id: nat): Held { h.(groups := Remove(h.groups, id)) }

  /** The records published to a group, in order. */
  function OfGroup(log: seq<Logged>, id: nat): seq<Record>
  {
    if log == [] then []
    else
      var last := log[|log| - 1];
      OfGroup(log[..|log| - 1], id) + if last.group == id then [last.r] else []
  }

  function Without(log: seq<Logged>, id: nat): seq<Logged>
  {
    if log == [] then []
    else
      var last := log[|log| - 1];
      Without(log[..|log| - 1], id) + if last.group == id then [] else [last]
  }

  // ---- agreement with everything published --------------------------------------------

  /** The mark that covers what a group has lost: a discard can take back only
      that of the oldest group's own records. */
  function MarkOf(h: Held, id: nat): Option<Loc>
  {
    if h.groups != [] && h.groups[0].id == id then EvictedThrough(h) else h.through
  }

  /** Of everything published to the group, the last part is held and the rest
      is at or below the mark. */
  ghost predicate GroupAgrees(held: seq<Record>, all: seq<Record>, id: nat, mark: Option<Loc>)
  {
    && |held| <= |all| && all[|all| - |held|..] == held
    && forall i :: 0 <= i < |all| - |held| ==> Reached(Loc(id, all[i].id), mark)
  }

  ghost predicate Agrees(h: Held, log: seq<Logged>)
  {
    forall id: nat :: GroupAgrees(HeldOf(h.groups, id), OfGroup(log, id), id, MarkOf(h, id))
  }

  /** Object IDs stay on the scale the protocol has. */
  ghost predicate InScale(h: Held, log: seq<Logged>)
  {
    && (forall e :: e in log ==> e.r.id <= MAX_OBJECT_ID)
    && (forall g, r :: g in h.groups && r in g.records ==> r.id <= MAX_OBJECT_ID)
    && (h.groups != [] ==> h.groups[0].evicted <= MAX_OBJECT_ID)
    && (h.through.Some? ==> h.through.value.id <= MAX_OBJECT_ID)
  }

  ghost predicate HistoryOk(h: Held, log: seq<Logged>) { Shape(h) && Agrees(h, log) && InScale(h, log) }

  lemma {:induction false} HeldOfNone(groups: seq<Group>, id: nat)
    requires forall g :: g in groups ==> g.id != id
    ensures HeldOf(groups, id) == []
  {
    if groups != [] { HeldOfNone(groups[1..], id); }
  }

  /** Everything of the group dropped whole is at or below the new mark, and so
      is whatever was below the old one. */
  lemma DropOldestMark(h: Held)
    requires h.groups != [] && h.groups[0].records != []
    ensures var g, t := h.groups[0], DropOldest(h).through;
            && (forall r :: r in g.records ==> Reached(Loc(g.id, r.id), t))
            && (forall at :: Reached(at, EvictedThrough(h)) || Reached(at, h.through) ==> Reached(at, t))
  {
    var g := h.groups[0];
    LargestIs(g.records);
    hide LargestId;
  }

  lemma OldestGoneAgrees(held: seq<Record>, all: seq<Record>, id: nat, mark: Option<Loc>, mark': Option<Loc>)
    requires GroupAgrees(held, all, id, mark)
    requires forall r :: r in held ==> Reached(Loc(id, r.id), mark')
    requires forall at :: Reached(at, mark) ==> Reached(at, mark')
    ensures GroupAgrees([], all, id, mark')
  {
    forall i | 0 <= i < |all|
      ensures Reached(Loc(id, all[i].id), mark')
    {
      var n := |all| - |held|;
      if i >= n {
        assert all[i] == all[n..][i - n];
        assert all[i] in held;
      }
    }
  }

  lemma DropOldestAgrees(h: Held, log: seq<Logged>)
    requires HistoryOk(h, log) && h.groups != []
    ensures h.groups[0].records != [] && Agrees(DropOldest(h), log)
  {
    assert h.groups[0] in h.groups;
    var g, h' := h.groups[0], DropOldest(h);
    DropOldestMark(h);
    assert h'.groups == h.groups[1..] && EvictedThrough(h') == h'.through;
    HeldOfNone(h'.groups, g.id);
    hide DropOldest, Reached, LargestId;
    forall id: nat
      ensures GroupAgrees(HeldOf(h'.groups, id), OfGroup(log, id), id, MarkOf(h', id))
    {
      assert GroupAgrees(HeldOf(h.groups, id), OfGroup(log, id), id, MarkOf(h, id));
      if id == g.id {
        OldestGoneAgrees(g.records, OfGroup(log, id), id, MarkOf(h, id), h'.through);
      }
    }
  }

  lemma DropRecordAgrees(h: Held, log: seq<Logged>)
    requires HistoryOk(h, log) && h.groups != []
    ensures h.groups[0].records != [] && Agrees(DropRecord(h), log)
  {
    assert h.groups[0] in h.groups;
    var g, h' := h.groups[0], DropRecord(h);
    forall id: nat
      ensures GroupAgrees(HeldOf(h'.groups, id), OfGroup(log, id), id, MarkOf(h', id))
    {
      var held, all := HeldOf(h.groups, id), OfGroup(log, id);
      assert GroupAgrees(held, all, id, MarkOf(h, id));
      if id == g.id {
        assert all[|all| - |held|] == held[0];
        assert all[|all| - |held| + 1..] == held[1..];
      }
    }
  }

  lemma DropScale(h: Held, log: seq<Logged>)
    requires Shape(h) && InScale(h, log) && h.groups != []
    ensures h.groups[0].records != [] && InScale(DropOldest(h), log)
    ensures |h.groups[0].records| > 1 ==> InScale(DropRecord(h), log)
  {
    var g := h.groups[0];
    assert g in h.groups;
    LargestIs(g.records);
    if |g.records| > 1 {
      var h' := DropRecord(h);
      forall x, r | x in h'.groups && r in x.records
        ensures r.id <= MAX_OBJECT_ID
      {
        if x == h'.groups[0] { assert r in g.records; } else { assert x in h.groups; }
      }
    }
  }

  lemma {:induction false} EvictKeeps(h: Held, log: seq<Logged>, cap: int)
    requires HistoryOk(h, log)
    ensures HistoryOk(Evict(h, cap), log)
    decreases |Flat(h.groups)|
  {
    OldestHolds(h);
    hide Shape, Agrees, InScale;
    if h.groups != [] && Size(h) > cap {
      FlatHead(h);
      DropScale(h, log);
      if GoesWhole(h, cap) {
        DropOldestStep(h);
        DropOldestAgrees(h, log);
        EvictKeeps(DropOldest(h), log, cap);
      } else {
        DropRecordStep(h);
        DropRecordAgrees(h, log);
        EvictKeeps(DropRecord(h), log, cap);
      }
    } else {
      assert Evict(h, cap) == h;
    }
  }

  lemma OldestHolds(h: Held)
    requires Shape(h)
    ensures NoneEmpty(h.groups) && (h.groups != [] ==> h.groups[0].records != [])
  {
    if h.groups != [] { assert h.groups[0] in h.groups; }
  }

  lemma {:induction false} PutShape(groups: seq<Group>, id: nat, r: Record)
    ensures var groups' := Put(groups, id, r);
            && groups' != [] && |groups'| >= |groups|
            && (forall i :: 0 <= i < |groups| ==>
                  groups'[i] == if groups[i].id == id && HeldAt(groups, id) == i
                                then groups[i].(records := groups[i].records + [r]) else groups[i])
            && (|groups'| > |groups| ==> |groups'| == |groups| + 1 && groups'[|groups|] == Group(id, [r], -1)
                                          && forall g :: g in groups ==> g.id != id)
  {
    if groups != [] && groups[0].id != id { PutShape(groups[1..], id, r); }
  }

  function HeldAt(groups: seq<Group>, id: nat): nat
  {
    if groups == [] || groups[0].id == id then 0 else 1 + HeldAt(groups[1..], id)
  }

  lemma {:induction false} PutHeld(groups: seq<Group>, id: nat, r: Record, x: nat)
    ensures HeldOf(Put(groups, id, r), x) == HeldOf(groups, x) + if x == id then [r] else []
  {
    if groups != [] && groups[0].id != id { PutHeld(groups[1..], id, r, x); }
  }

  lemma PutKeeps(h: Held, log: seq<Logged>, id: nat, r: Record)
    requires HistoryOk(h, log) && 0 < r.cost && r.id <= MAX_OBJECT_ID
    ensures var h' := h.(groups := Put(h.groups, id, r));
            HistoryOk(h', log + [Logged(id, r)]) && EvictedThrough(h') == EvictedThrough(h)
  {
    hide Flat, Weight, Shape, InScale, Put, HeldOf;
    PutKeepsShape(h, id, r);
    var h', log' := h.(groups := Put(h.groups, id, r)), log + [Logged(id, r)];
    PutShape(h.groups, id, r);
    assert EvictedThrough(h') == EvictedThrough(h);
    assert log'[..|log|] == log;
    forall x: nat
      ensures GroupAgrees(HeldOf(h'.groups, x), OfGroup(log', x), x, MarkOf(h', x))
    {
      assert GroupAgrees(HeldOf(h.groups, x), OfGroup(log, x), x, MarkOf(h, x));
      PutHeld(h.groups, id, r, x);
    }
    PutScale(h, log, id, r);
  }

  lemma PutKeepsShape(h: Held, id: nat, r: Record)
    requires Shape(h) && 0 < r.cost
    ensures Shape(h.(groups := Put(h.groups, id, r)))
  {
    hide Put, HeldAt, NoneEmpty;
    PutRecords(h.groups, id, r);
    PutShape(h.groups, id, r);
    var groups := Put(h.groups, id, r);
    assert forall i :: 0 <= i < |h.groups| ==>
             groups[i].id == h.groups[i].id && groups[i].evicted == h.groups[i].evicted;
    assert forall i :: 0 <= i < |h.groups| ==> h.groups[i] in h.groups;
  }

  lemma PutRecords(groups: seq<Group>, id: nat, r: Record)
    requires NoneEmpty(groups) && 0 < r.cost && forall g, x :: g in groups && x in g.records ==> x.cost > 0
    ensures var groups' := Put(groups, id, r);
            NoneEmpty(groups') && forall g, x :: g in groups' && x in g.records ==> x.cost > 0
  {
    if groups != [] && groups[0].id != id { PutRecords(groups[1..], id, r); }
  }

  lemma PutScale(h: Held, log: seq<Logged>, id: nat, r: Record)
    requires InScale(h, log) && r.id <= MAX_OBJECT_ID
    ensures InScale(h.(groups := Put(h.groups, id, r)), log + [Logged(id, r)])
  {
    PutShape(h.groups, id, r);
    var groups := Put(h.groups, id, r);
    hide Put, HeldAt;
    forall g, x | g in groups && x in g.records
      ensures x.id <= MAX_OBJECT_ID
    {
      var i :| 0 <= i < |groups| && groups[i] == g;
      if i < |h.groups| { assert h.groups[i] in h.groups; }
    }
  }

  lemma {:induction false} RemoveAt(groups: seq<Group>, id: nat)
    ensures var k := HeldAt(groups, id);
            k <= |groups| && Remove(groups, id) == if k == |groups| then groups else groups[..k] + groups[k + 1..]
  {
    if groups != [] && groups[0].id != id {
      var t := groups[1..];
      RemoveAt(t, id);
      if HeldAt(t, id) < |t| { ConsCut(groups[0], t, HeldAt(t, id)); }
      assert groups == [groups[0]] + t;
    }
  }

  lemma ConsCut<T>(x: T, t: seq<T>, k: nat)
    requires k < |t|
    ensures [x] + (t[..k] + t[k + 1..]) == ([x] + t)[..k + 1] + ([x] + t)[k + 2..]
  {
  }

  lemma {:induction false} RemoveHeld(groups: seq<Group>, id: nat, x: nat)
    requires forall i, j :: 0 <= i < j < |groups| ==> groups[i].id != groups[j].id
    ensures HeldOf(Remove(groups, id), x) == if x == id then [] else HeldOf(groups, x)
  {
    if groups != [] {
      if groups[0].id == id { HeldOfNone(groups[1..], id); } else { RemoveHeld(groups[1..], id, x); }
    }
  }

  lemma {:induction false} WithoutGroup(log: seq<Logged>, id: nat, x: nat)
    ensures OfGroup(Without(log, id), x) == if x == id then [] else OfGroup(log, x)
  {
    if log != [] {
      var init, last := log[..|log| - 1], log[|log| - 1];
      WithoutGroup(init, id, x);
      if last.group == id {
        assert Without(init, id) + [] == Without(init, id);
      } else {
        var kept := Without(init, id) + [last];
        assert kept[..|kept| - 1] == Without(init, id);
      }
    }
  }

  lemma {:induction false} WithoutIn(log: seq<Logged>, id: nat)
    ensures forall e :: e in Without(log, id) ==> e in log && e.group != id
  {
    if log != [] { WithoutIn(log[..|log| - 1], id); }
  }

  /** A discarded group reads as never published; no other loses its mark. */
  lemma DiscardKeeps(h: Held, log: seq<Logged>, id: nat)
    requires HistoryOk(h, log)
    ensures HistoryOk(Discard(h, id), Without(log, id))
  {
    DiscardShape(h, id);
    ShapeIds(h);
    DiscardScale(h, log, id);
    hide Remove, Without, HeldOf, OfGroup, Shape, InScale, GroupAgrees, MarkOf;
    var h', log' := Discard(h, id), Without(log, id);
    forall x: nat
      ensures GroupAgrees(HeldOf(h'.groups, x), OfGroup(log', x), x, MarkOf(h', x))
    {
      assert GroupAgrees(HeldOf(h.groups, x), OfGroup(log, x), x, MarkOf(h, x));
      RemoveHeld(h.groups, id, x);
      WithoutGroup(log, id, x);
      if x == id {
        NothingAgrees(id, MarkOf(h', id));
      } else {
        DiscardMark(h, id, x);
        MarkWidens(HeldOf(h.groups, x), OfGroup(log, x), x, MarkOf(h, x), MarkOf(h', x));
      }
    }
  }

  lemma ShapeIds(h: Held)
    requires Shape(h)
    ensures forall i, j :: 0 <= i < j < |h.groups| ==> h.groups[i].id != h.groups[j].id
  {
  }

  lemma NothingAgrees(id: nat, mark: Option<Loc>)
    ensures GroupAgrees([], [], id, mark)
  {
  }

  lemma MarkWidens(held: seq<Record>, all: seq<Record>, id: nat, mark: Option<Loc>, mark': Option<Loc>)
    requires GroupAgrees(held, all, id, mark) && forall at :: Reached(at, mark) ==> Reached(at, mark')
    ensures GroupAgrees(held, all, id, mark')
  {
  }

  lemma DiscardShape(h: Held, id: nat)
    requires Shape(h)
    ensures Shape(Discard(h, id))
  {
    RemoveAt(h.groups, id);
    hide Remove, HeldAt;
    var groups := Remove(h.groups, id);
    assert forall g :: g in groups ==> g in h.groups;
  }

  lemma DiscardScale(h: Held, log: seq<Logged>, id: nat)
    requires Shape(h) && InScale(h, log)
    ensures InScale(Discard(h, id), Without(log, id))
  {
    RemoveAt(h.groups, id);
    WithoutIn(log, id);
    hide Remove, HeldAt, Without;
    var groups := Remove(h.groups, id);
    assert forall g :: g in groups ==> g in h.groups;
  }

  lemma DiscardMark(h: Held, id: nat, x: nat)
    requires Shape(h) && x != id
    ensures forall at :: Reached(at, MarkOf(h, x)) ==> Reached(at, MarkOf(Discard(h, id), x))
  {
  }

  // ---- whole runs ---------------------------------------------------------------

  lemma AddKeeps(h: Held, log: seq<Logged>, b: Bounds, id: nat, r: Record)
    requires HistoryOk(h, log) && 0 < r.cost && r.id <= MAX_OBJECT_ID
    ensures NoneEmpty(Put(h.groups, id, r))
    ensures HistoryOk(Add(h, b, id, r), log + [Logged(id, r)])
  {
    PutKeeps(h, log, id, r);
    var h1 := h.(groups := Put(h.groups, id, r));
    OldestHolds(h1);
    hide HistoryOk, Put, Size;
    var cap := Cap(b, Size(h1), r.cost);
    if cap.Some? { EvictKeeps(h1, log + [Logged(id, r)], cap.value); }
  }

  datatype Event = Adds(id: nat, r: Record) | Discards(id: nat)

  predicate Enabled(ev: Event) { ev.Adds? ==> ev.r.id <= MAX_OBJECT_ID && ev.r.cost >= OBJECT_RECORD_BYTES }

  /** The history after `run`, and what is published and not discarded. */
  ghost predicate Reaches(h: Held, log: seq<Logged>, b: Bounds, run: seq<Event>, h': Held, log': seq<Logged>)
    decreases run
  {
    if run == [] then h' == h && log' == log
    else
      match run[0]
      case Adds(id, r) =>
        && Enabled(run[0]) && NoneEmpty(Put(h.groups, id, r))
        && Reaches(Add(h, b, id, r), log + [Logged(id, r)], b, run[1..], h', log')
      case Discards(id) => Reaches(Discard(h, id), Without(log, id), b, run[1..], h', log')
  }

  const EMPTY := Held([], None)

  lemma {:induction false} RunKeeps(h: Held, log: seq<Logged>, b: Bounds, run: seq<Event>, h': Held, log': seq<Logged>)
    requires HistoryOk(h, log) && Reaches(h, log, b, run, h', log')
    ensures HistoryOk(h', log')
    decreases run
  {
    hide HistoryOk, Add, Discard, Put;
    if run != [] {
      match run[0]
      case Adds(id, r) =>
        AddKeeps(h, log, b, id, r);
        RunKeeps(Add(h, b, id, r), log + [Logged(id, r)], b, run[1..], h', log');
      case Discards(id) =>
        DiscardKeeps(h, log, id);
        RunKeeps(Discard(h, id), Without(log, id), b, run[1..], h', log');
    }
  }

  /** `log` is what some run published and did not discard, `h` what it left held. */
  ghost predicate Reachable(h: Held, log: seq<Logged>)
  {
    exists b, run :: Reaches(EMPTY, [], b, run, h, log)
  }

  lemma ReachableOk(h: Held, log: seq<Logged>)
    requires Reachable(h, log)
    ensures HistoryOk(h, log)
  {
    var b, run :| Reaches(EMPTY, [], b, run, h, log);
    RunKeeps(EMPTY, [], b, run, h, log);
  }

  lemma {:induction false} PutWeight(groups: seq<Group>, id: nat, r: Record)
    ensures Weight(Flat(Put(groups, id, r))) == Weight(Flat(groups)) + r.cost
  {
    hide Weight;
    if groups == [] {
      var g := Group(id, [r], -1);
      assert Flat([g]) == Tagged(id, [r]) + Flat([]);
      assert Tagged(id, [r]) + [] == [Logged(id, r)];
      OneWeight(Logged(id, r));
    } else {
      var g, rest := groups[0], groups[1..];
      FlatCons(g, rest);
      assert groups == [g] + rest;
      WeightConcat(Tagged(g.id, g.records), Flat(rest));
      if g.id == id {
        var g' := g.(records := g.records + [r]);
        FlatCons(g', rest);
        assert Tagged(id, g'.records) == Tagged(id, g.records) + [Logged(id, r)];
        WeightConcat(Tagged(id, g.records), [Logged(id, r)]);
        WeightConcat(Tagged(id, g'.records), Flat(rest));
        OneWeight(Logged(id, r));
      } else {
        PutWeight(rest, id, r);
        FlatCons(g, Put(rest, id, r));
        WeightConcat(Tagged(g.id, g.records), Flat(Put(rest, id, r)));
      }
    }
  }

  lemma OneWeight(e: Logged)
    ensures Weight([e]) == e.r.cost && Weight([]) == 0
  {
    assert [e][1..] == [];
  }

  /** After an add the bytes held exceed the bound by at most the slack, or by
      what was added; and the marks never go back. */
  lemma AddBounded(h: Held, log: seq<Logged>, b: Bounds, id: nat, r: Record)
    requires HistoryOk(h, log) && 0 < r.cost && r.id <= MAX_OBJECT_ID
    ensures NoneEmpty(Put(h.groups, id, r))
    ensures Size(Add(h, b, id, r)) <= b.max + Max(b.slack, r.cost)
    ensures forall at :: Reached(at, EvictedThrough(h)) ==> Reached(at, EvictedThrough(Add(h, b, id, r)))
  {
    PutKeeps(h, log, id, r);
    PutWeight(h.groups, id, r);
    var h1 := h.(groups := Put(h.groups, id, r));
    OldestHolds(h1);
    hide HistoryOk, Put, Flat, Weight, Evict;
    var cap := Cap(b, Size(h1), r.cost);
    if cap.Some? {
      var k := EvictDropsPrefix(h1, cap.value);
      NoneWeight();
      forall at | Reached(at, EvictedThrough(h))
        ensures Reached(at, EvictedThrough(Add(h, b, id, r)))
      {
        ReachedStays(at, EvictedThrough(h1), Flat(h1.groups)[..k]);
      }
    }
  }

  lemma NoneWeight()
    ensures Weight([]) == 0 && Flat([]) == []
  {
  }

  // ---- what an add gives up ---------------------------------------------------------------

  /** Where the group ends in the order things go: past its last entry, or past
      everything when it has none. */
  ghost predicate EndOf(s: seq<Logged>, id: nat, at: nat)
  {
    && at <= |s| && (forall i :: at <= i < |s| ==> s[i].group != id)
    && ((0 < at && s[at - 1].group == id) || (at == |s| && forall i :: 0 <= i < |s| ==> s[i].group != id))
  }

  lemma {:induction false} FlatOthers(groups: seq<Group>, id: nat)
    requires forall i :: 0 <= i < |groups| ==> groups[i].id != id
    ensures forall i :: 0 <= i < |Flat(groups)| ==> Flat(groups)[i].group != id
  {
    if groups != [] { FlatOthers(groups[1..], id); }
  }

  /** A record goes in at the end of its group. */
  lemma {:induction false} PutAt(groups: seq<Group>, id: nat, r: Record) returns (at: nat)
    requires NoneEmpty(groups) && forall i, j :: 0 <= i < j < |groups| ==> groups[i].id != groups[j].id
    ensures EndOf(Flat(groups), id, at) && Flat(Put(groups, id, r)) == Inserted(Flat(groups), at, Logged(id, r))
  {
    hide EndOf, Inserted, Flat, Tagged;
    if groups == [] {
      at := 0;
      FirstIn(id, r);
    } else {
      var g, rest := groups[0], groups[1..];
      var own := Tagged(g.id, g.records);
      assert groups == [g] + rest && g in groups;
      FlatCons(g, rest);
      if g.id == id {
        at := |own|;
        FlatCons(g.(records := g.records + [r]), rest);
        FlatOthers(rest, id);
        OwnEnd(g, Flat(rest), r);
      } else {
        var at' := PutAt(rest, id, r);
        at := |own| + at';
        FlatCons(g, Put(rest, id, r));
        LaterEnd(own, Flat(rest), id, at', r);
      }
    }
  }

  ghost function Inserted(s: seq<Logged>, at: nat, x: Logged): seq<Logged>
    requires at <= |s|
  {
    s[..at] + [x] + s[at..]
  }

  lemma FirstIn(id: nat, r: Record)
    ensures EndOf(Flat([]), id, 0) && Flat([Group(id, [r], -1)]) == Inserted([], 0, Logged(id, r))
  {
    assert Flat([Group(id, [r], -1)]) == Tagged(id, [r]) + Flat([]);
  }

  lemma OwnEnd(g: Group, more: seq<Logged>, r: Record)
    requires g.records != [] && forall i :: 0 <= i < |more| ==> more[i].group != g.id
    ensures var own := Tagged(g.id, g.records);
            && EndOf(own + more, g.id, |own|)
            && Tagged(g.id, g.records + [r]) + more == Inserted(own + more, |own|, Logged(g.id, r))
  {
    assert Tagged(g.id, g.records + [r]) == Tagged(g.id, g.records) + [Logged(g.id, r)];
  }

  lemma LaterEnd(own: seq<Logged>, more: seq<Logged>, id: nat, at: nat, r: Record)
    requires EndOf(more, id, at) && forall i :: 0 <= i < |own| ==> own[i].group != id
    ensures EndOf(own + more, id, |own| + at)
    ensures own + Inserted(more, at, Logged(id, r)) == Inserted(own + more, |own| + at, Logged(id, r))
  {
    assert (own + more)[|own| + at..] == more[at..];
  }

  /** What an add evicts: nothing while what is held stays within the bound and the
      slack, nor, with the default slack, when it was within the bound before; else
      the shortest prefix, of the order things go, that leaves at most the bound less
      the slack, or by default less the charge added if that is more. */
  lemma AddEvictsLeast(h: Held, b: Bounds, id: nat, r: Record) returns (at: nat, k: nat)
    requires Shape(h) && 0 < r.cost
    ensures NoneEmpty(Put(h.groups, id, r)) && EndOf(Flat(h.groups), id, at)
    ensures var s, size := Inserted(Flat(h.groups), at, Logged(id, r)), Weight(Flat(h.groups));
            var target := b.max - if b.fixed then b.slack else Max(b.slack, r.cost);
            && k <= |s| && Flat(Add(h, b, id, r).groups) == s[k..]
            && if size + r.cost > b.max + b.slack && (b.fixed || size > b.max)
               then && (Weight(s[k..]) <= target || (target < 0 && k == |s|))
                    && 0 < k && Weight(s[k - 1..]) > target
               else k == 0
  {
    hide Shape, Weight, Put, EndOf, Flat, Evict, EvictedThrough, LaterAll;
    ShapeGroups(h);
    at := PutAt(h.groups, id, r);
    PutWeight(h.groups, id, r);
    PutKeepsShape(h, id, r);
    var h1 := h.(groups := Put(h.groups, id, r));
    ShapeGroups(h1);
    var s, cap := Flat(h1.groups), Cap(b, Size(h1), r.cost);
    assert s[0..] == s;
    NoneWeight();
    k := 0;
    if cap.Some? { k := EvictDropsPrefix(h1, cap.value); }
  }

  lemma ShapeGroups(h: Held)
    requires Shape(h)
    ensures NoneEmpty(h.groups) && forall i, j :: 0 <= i < j < |h.groups| ==> h.groups[i].id != h.groups[j].id
  {
  }
}
