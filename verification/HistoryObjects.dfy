/** The history as the objects it is: slots dropped from the front of each
    group's list, and the oldest and the last group kept at hand. */
module HistoryObjects {
  import opened Basics
  import opened Locations
  import opened History
  import opened HistoryFetch

  const COMPACT_AT := 1024

  datatype Slot = Slot(id: nat, subgroup: Option<nat>, payload: Bytes, props: Props, cost: nat)

  function Recorded(x: Option<Slot>, priority: nat): Record
  {
    if x.None? then Record(0, None, [], [], 0, 0)
    else Record(x.value.id, x.value.subgroup, x.value.payload, x.value.props, priority, x.value.cost)
  }

  function PriorityAt(priorities: map<nat, nat>, priority: nat, index: nat): nat
  {
    if index in priorities then priorities[index] else priority
  }

  /** Slot `i` holds `r`. */
  ghost predicate SlotHolds(records: seq<Option<Slot>>, priorities: map<nat, nat>, priority: nat, i: int, r: Record)
  {
    0 <= i < |records| && records[i].Some? && r == Recorded(records[i], PriorityAt(priorities, priority, i))
  }

  /** The slots from `head` on hold `held`. */
  ghost predicate Slots(records: seq<Option<Slot>>, head: nat, priorities: map<nat, nat>, priority: nat,
                        held: seq<Record>)
  {
    && |records| == head + |held|
    && (forall k :: 0 <= k < |held| ==> SlotHolds(records, priorities, priority, head + k, held[k]))
    && (forall i :: i in priorities ==> i < |records|)
  }

  lemma SlotsAppend(records: seq<Option<Slot>>, head: nat, priorities: map<nat, nat>, priority: nat, held: seq<Record>,
                    x: Slot, p: nat)
    requires Slots(records, head, priorities, priority, held)
    ensures var priorities' := if p != priority then priorities[|records| := p] else priorities;
            Slots(records + [Some(x)], head, priorities', priority, held + [Recorded(Some(x), p)])
  {
    var priorities' := if p != priority then priorities[|records| := p] else priorities;
    var records', held' := records + [Some(x)], held + [Recorded(Some(x), p)];
    forall k | 0 <= k < |held'|
      ensures SlotHolds(records', priorities', priority, head + k, held'[k])
    {
      if k < |held| { assert SlotHolds(records, priorities, priority, head + k, held[k]); }
    }
  }

  lemma SlotsDrop(records: seq<Option<Slot>>, head: nat, priorities: map<nat, nat>, priority: nat, held: seq<Record>)
    requires Slots(records, head, priorities, priority, held) && held != []
    ensures SlotHolds(records, priorities, priority, head, held[0])
    ensures Slots(records[head := None], head + 1, priorities, priority, held[1..])
  {
    assert SlotHolds(records, priorities, priority, head + 0, held[0]);
    var records', held' := records[head := None], held[1..];
    forall k | 0 <= k < |held'|
      ensures SlotHolds(records', priorities, priority, head + 1 + k, held'[k])
    {
      assert SlotHolds(records, priorities, priority, head + (k + 1), held[k + 1]);
    }
  }

  predicate StaysAt(priorities: map<nat, nat>, head: nat, i: nat) { head + i in priorities }

  /** The priorities once the first `head` of `head + n` slots are gone. */
  function Shifted(priorities: map<nat, nat>, head: nat, n: nat): map<nat, nat>
  {
    map i | 0 <= i < n && StaysAt(priorities, head, i) :: priorities[head + i]
  }

  lemma SlotsCompact(records: seq<Option<Slot>>, head: nat, priorities: map<nat, nat>, priority: nat, held: seq<Record>)
    requires Slots(records, head, priorities, priority, held)
    ensures Slots(records[head..], 0, Shifted(priorities, head, |records| - head), priority, held)
  {
    var records', priorities' := records[head..], Shifted(priorities, head, |records| - head);
    forall k | 0 <= k < |held|
      ensures SlotHolds(records', priorities', priority, k, held[k])
    {
      assert SlotHolds(records, priorities, priority, head + k, held[k]);
      assert StaysAt(priorities, head, k) <==> head + k in priorities;
    }
  }

  lemma SlotCount(records: seq<Option<Slot>>, head: nat, priorities: map<nat, nat>, priority: nat, held: seq<Record>)
    requires Slots(records, head, priorities, priority, held)
    ensures |records| == head + |held|
  {
  }

  lemma SlotAt(records: seq<Option<Slot>>, head: nat, priorities: map<nat, nat>, priority: nat, held: seq<Record>,
               k: nat)
    requires Slots(records, head, priorities, priority, held) && k < |held|
    ensures SlotHolds(records, priorities, priority, head + k, held[k])
  {
  }

  lemma LargestNext(s: seq<Record>, k: nat)
    requires k < |s|
    ensures LargestId(s[..k + 1]) == if s[k].id > LargestId(s[..k]) then s[k].id else LargestId(s[..k])
  {
    assert s[..k + 1][..k] == s[..k];
  }

  lemma LargestNone()
    ensures LargestId([]) == -1
  {
  }

  /** Slots before `head` are evicted; `priorities` are those not at `priority`. */
  class HeldGroup {
    const id: nat                     // its key in the dict
    var records: seq<Option<Slot>>
    var head: nat
    var bytes: int
    var evicted: int
    const priority: nat
    var priorities: map<nat, nat>
    ghost var held: seq<Record>

    /** The object holds the group's records. */
    ghost predicate Is(g: Group)
      reads this
    {
      && g == Group(id, held, evicted)
      && Slots(records, head, priorities, priority, held) && bytes == GroupBytes(g)
    }

    constructor (id: nat, priority: nat)
      ensures Is(Group(id, [], -1)) && this.id == id
    {
      this.id, this.priority := id, priority;
      records, head, bytes, evicted, priorities := [], 0, 0, -1, map[];
      held := [];
    }

    method Append(x: Slot, p: nat, ghost g: Group)
      requires Is(g)
      modifies this
      ensures Is(Longer(g, Recorded(Some(x), p)))
    {
      ghost var r := Recorded(Some(x), p);
      TaggedSnoc(id, held, r);
      SlotsAppend(records, head, priorities, priority, held, x, p);
      hide Slots, Tagged, Weight;
      if p != priority { priorities := priorities[|records| := p]; }
      records := records + [Some(x)];
      bytes := bytes + x.cost;
      held := held + [r];
    }

    /** The first record goes; its slot is dropped with many others, later. */
    method EvictHead(ghost g: Group) returns (cost: nat)
      requires Is(g) && g.records != []
      modifies this
      ensures Is(HeadGone(g)) && cost == g.records[0].cost
    {
      hide Slots, Tagged, Weight;
      ghost var gone := held[0];
      TaggedHead(id, held);
      SlotsDrop(records, head, priorities, priority, held);
      var r, slot := records[head].value, head;
      assert gone.id == r.id && gone.cost == r.cost;
      records := records[head := None];
      head := head + 1;
      bytes := bytes - r.cost;
      held := held[1..];
      if r.id > evicted { evicted := r.id; }
      if slot >= COMPACT_AT && 2 * slot >= |records| { Compact(HeadGone(g)); }
      return r.cost;
    }

    /** `m` and, in the range, what is held first of each of the group's Locations. */
    method Collect(m: map<Loc, FetchObject>, start: Loc, end: Loc, ghost g: Group, ghost groups: seq<Group>)
      returns (all: map<Loc, FetchObject>)
      requires Is(g) && g.id == id && forall x :: x in groups ==> x.id != g.id
      requires Holds(m, groups, start, end)
      ensures Holds(all, groups + [g], start, end)
    {
      hide Holds, Slots, GroupBytes;
      SlotCount(records, head, priorities, priority, held);
      all := m;
      HoldsSkip(m, groups, g.(records := g.records[..0]), start, end);
      for i := head to |records|
        invariant Holds(all, groups + [g.(records := g.records[..i - head])], start, end)
      {
        SlotAt(records, head, priorities, priority, held, i - head);
        HoldsMore(all, groups, g, i - head, start, end);
        var at := Loc(id, records[i].value.id);
        if InRange(at, start, end) && at !in all {
          all := all[at := Shown(at, Recorded(records[i], PriorityAt(priorities, priority, i)))];
        }
      }
      assert g.(records := g.records[..|held|]) == g;
    }

    /** The largest Object ID held. */
    method Largest(ghost g: Group) returns (m: int)
      requires Is(g)
      ensures m == LargestId(g.records)
    {
      LargestNone();
      assert head + |held| == |records|;
      hide LargestId, Slots;
      m := -1;
      for i := head to |records|
        invariant head + |held| == |records| && m == LargestId(held[..i - head])
      {
        SlotAt(records, head, priorities, priority, held, i - head);
        LargestNext(held, i - head);
        if records[i].value.id > m { m := records[i].value.id; }
      }
      assert held[..|held|] == held;
    }

    /** Drop the evicted slots: what is held, and its priorities, stay. */
    method Compact(ghost g: Group)
      requires Is(g)
      modifies this
      ensures Is(g) && head == 0 && |records| == |held|
    {
      SlotsCompact(records, head, priorities, priority, held);
      assert head <= |records|;
      priorities := Shifted(priorities, head, |records| - head);
      records := records[head..];
      head := 0;
    }
  }

  function Longer(g: Group, r: Record): Group { g.(records := g.records + [r]) }

  /** The group once its first record is evicted. */
  function HeadGone(g: Group): Group
    requires g.records != []
  {
    var id := g.records[0].id;
    g.(records := g.records[1..], evicted := if id > g.evicted then id else g.evicted)
  }

  /** What an object that holds a group says of it. */
  lemma IsGroup(o: HeldGroup, g: Group)
    requires o.Is(g)
    ensures o.id == g.id && o.evicted == g.evicted && o.bytes == GroupBytes(g)
    ensures |o.records| == o.head + |g.records|
  {
  }

  /** Where a group is listed, and what an add makes of the list there. */
  lemma {:induction false} PutAt(groups: seq<Group>, i: nat, r: Record)
    requires i < |groups| && forall j, k :: 0 <= j < k < |groups| ==> groups[j].id != groups[k].id
    ensures Put(groups, groups[i].id, r) == groups[i := groups[i].(records := groups[i].records + [r])]
    ensures HeldOf(groups, groups[i].id) == groups[i].records
    ensures HeldAt(groups, groups[i].id) == i
  {
    if i > 0 { PutAt(groups[1..], i - 1, r); }
  }

  lemma {:induction false} PutNew(groups: seq<Group>, id: nat, r: Record)
    requires forall g :: g in groups ==> g.id != id
    ensures Put(groups, id, r) == groups + [Group(id, [r], -1)]
    ensures HeldOf(groups, id) == [] && HeldAt(groups, id) == |groups|
  {
    if groups != [] { PutNew(groups[1..], id, r); }
  }

  lemma TaggedHead(id: nat, s: seq<Record>)
    requires s != []
    ensures Weight(Tagged(id, s)) == s[0].cost + Weight(Tagged(id, s[1..]))
  {
    TaggedCons(id, s);
    WeightConcat([Logged(id, s[0])], Tagged(id, s[1..]));
    OneWeight(Logged(id, s[0]));
  }

  lemma DropSizes(h: Held)
    requires h.groups != [] && h.groups[0].records != []
    ensures Size(DropOldest(h)) == Size(h) - GroupBytes(h.groups[0])
    ensures Size(DropRecord(h)) == Size(h) - h.groups[0].records[0].cost
    ensures |Flat(h.groups)| > |Flat(DropOldest(h).groups)| && |Flat(h.groups)| > |Flat(DropRecord(h).groups)|
  {
    var g := h.groups[0];
    FlatHead(h);
    hide Flat, LargestId, Tagged;
    WeightConcat(Tagged(g.id, g.records), Flat(DropOldest(h).groups));
    WeightConcat([Logged(g.id, g.records[0])], Flat(DropRecord(h).groups));
    OneWeight(Logged(g.id, g.records[0]));
  }

  class ObjectHistory {
    const bounds: Bounds
    var groups: seq<HeldGroup>          // a dict by id, in order of insertion
    var bytes: int
    var through: Option<Loc>
    var lastId: Option<nat>
    var last: HeldGroup?
    var oldestId: Option<nat>
    var oldest: HeldGroup?
    ghost var model: seq<Group>
    ghost var lastAt: nat
    ghost var repr: set<HeldGroup>

    ghost function View(): Held
      reads this
    {
      Held(model, through)
    }

    /** The groups are the model's. */
    ghost predicate Linked()
      reads this, repr
    {
      && |groups| == |model|
      && (forall i :: 0 <= i < |groups| ==> groups[i] in repr && groups[i].id == model[i].id && groups[i].Is(model[i]))
    }

    /** The pointers kept at hand agree with the dict. */
    ghost predicate Pointers()
      reads this
    {
      && (if groups == [] then oldestId.None? && oldest == null
          else oldestId == Some(groups[0].id) && oldest == groups[0])
      && (if lastId.None? then last == null
          else lastAt < |groups| && last == groups[lastAt] && groups[lastAt].id == lastId.value)
    }

    ghost predicate Ready()
      reads this, repr
    {
      Linked() && Pointers() && Shape(View())
    }

    ghost predicate Valid()
      reads this, repr
    {
      Ready() && bytes == Size(View())
    }

    /** `slack` is max_bytes // 8 unless given. */
    constructor (maxBytes: nat, slack: Option<nat>)
      ensures Valid() && View() == EMPTY && repr == {}
      ensures bounds == Bounds(maxBytes, if slack.Some? then slack.value else maxBytes / 8, slack.Some?)
    {
      bounds := Bounds(maxBytes, if slack.None? then maxBytes / 8 else slack.value, slack.Some?);
      groups, bytes, through := [], 0, None;
      lastId, last, oldestId, oldest, model, lastAt, repr := None, null, None, null, [], 0, {};
    }

    /** Largest Location dropped: at or below it, status is unknown. */
    method EvictedThrough() returns (mark: Option<Loc>)
      requires Ready()
      ensures mark == History.EvictedThrough(View())
    {
      if oldest != null {
        IsGroup(oldest, model[0]);
        if oldest.evicted >= 0 {
          var part := Loc(oldestId.value, oldest.evicted);
          if through.None? || Before(through.value, part) { return Some(part); }
        }
      }
      return through;
    }

    /** A group leaves the dict. */
    method Unlink(i: nat)
      requires Linked() && Pointers() && i < |groups|
      requires forall j :: 0 <= j < |model| && j != i ==> model[j].id != model[i].id
      modifies this`groups, this`model, this`oldest, this`oldestId, this`last, this`lastId, this`lastAt
      ensures Linked() && Pointers() && model == old(model)[..i] + old(model)[i + 1..]
    {
      hide HeldGroup.Is;
      if groups[i] == last { lastId, last := None, null; } else if lastAt > i { lastAt := lastAt - 1; }
      groups := groups[..i] + groups[i + 1..];
      model := model[..i] + model[i + 1..];
      if i == 0 {
        if groups != [] {
          oldestId, oldest := Some(groups[0].id), groups[0];
        } else {
          oldestId, oldest := None, null;
        }
      }
    }

    method Raise(gone: Loc)
      requires Linked() && Pointers()
      modifies this`through
      ensures through == LaterOf(old(through), gone) && Linked() && Pointers()
    {
      hide HeldGroup.Is;
      if through.None? || Before(through.value, gone) { through := Some(gone); }
    }

    /** Drop the oldest group whole. */
    method DropOldest()
      requires Ready() && groups != [] && model != []
      modifies this
      ensures Ready() && bytes == old(bytes) && repr == old(repr)
      ensures old(model)[0].records != [] && View() == History.DropOldest(old(View()))
    {
      hide Shape, LargestId, History.DropOldest, Linked, Pointers;
      DropOldestFacts(View());
      var gone := OldestThrough();
      Raise(gone);
      Unlink(0);
      assert old(model)[..0] + old(model)[1..] == old(model)[1..];
    }

    /** The oldest group's largest Location, evicted or held. */
    method OldestThrough() returns (gone: Loc)
      requires Linked() && Pointers() && groups != [] && model[0].records != []
      ensures var g := model[0];
              var m := LargestId(g.records);
              gone == Loc(g.id, if g.evicted > m then g.evicted else m)
    {
      hide LargestId;
      IsGroup(oldest, model[0]);
      var m := oldest.Largest(model[0]);
      gone := Loc(oldestId.value, if oldest.evicted > m then oldest.evicted else m);
    }

    /** The oldest group's first record goes, and the group stays. */
    method EvictFirst() returns (cost: nat)
      requires Linked() && Pointers() && groups != [] && model[0].records != []
      requires forall i :: 0 < i < |model| ==> model[i].id != model[0].id
      modifies this`model, repr
      ensures Linked() && Pointers() && model == old(model)[0 := HeadGone(old(model)[0])]
      ensures cost == old(model)[0].records[0].cost
    {
      hide HeldGroup.Is;
      cost := oldest.EvictHead(model[0]);
      model := model[0 := HeadGone(model[0])];
    }

    method DropRecord() returns (cost: nat)
      requires Ready() && groups != [] && |model[0].records| > 1
      modifies this`model, repr
      ensures Ready() && bytes == old(bytes)
      ensures View() == History.DropRecord(old(View())) && cost == old(model)[0].records[0].cost
    {
      ghost var h := View();
      DropRecordStep(h);
      Distinct(h);
      DropRecordIs(h);
      hide Shape, History.DropRecord, HeadGone, Linked, Pointers;
      cost := EvictFirst();
    }

    /** The oldest group goes whole, or its first record does. */
    method EvictOne(held: int, cap: int) returns (left: int)
      requires Ready() && groups != [] && held == Size(View()) > cap
      modifies this, repr
      ensures Ready() && left == Size(View()) && NoneEmpty(old(model)) && NoneEmpty(model)
      ensures repr == old(repr)
      ensures History.Evict(View(), cap) == History.Evict(old(View()), cap)
      ensures |Flat(model)| < |Flat(old(model))|
    {
      hide Shape, Flat, Weight, Size, GroupBytes, History.DropOldest, History.DropRecord, History.Evict, HeldGroup.Is;
      EvictFacts(View(), cap);
      IsGroup(oldest, model[0]);
      if oldest.head == |oldest.records| - 1 || oldest.bytes <= held - cap {
        left := held - oldest.bytes;
        DropOldest();
      } else {
        var cost := DropRecord();
        left := held - cost;
      }
      OldestHolds(View());
    }

    /** Evict down to `cap` bytes held. */
    method Evict(cap: int)
      requires Valid()
      modifies this, repr
      ensures Valid() && repr == old(repr)
      ensures NoneEmpty(old(model)) && View() == History.Evict(old(View()), cap)
    {
      OldestHolds(View());
      hide Shape, Flat, Weight, Size, HeldGroup.Is, Pointers, Linked, History.Evict, NoneEmpty;
      var held := bytes;
      while groups != [] && held > cap
        invariant Ready() && held == Size(View()) && NoneEmpty(model)
        invariant repr == old(repr)
        invariant History.Evict(View(), cap) == History.Evict(old(View()), cap)
        decreases |Flat(model)|
      {
        held := EvictOne(held, cap);
      }
      EvictDone(View(), cap);
      Settle(held);
    }

    /** Where the dict has a group, past its end for nowhere. */
    method Find(id: nat) returns (at: nat)
      requires Linked()
      ensures at == HeldAt(model, id) <= |groups|
    {
      hide HeldGroup.Is;
      at := 0;
      while at < |groups| && groups[at].id != id
        invariant at <= |groups| && forall j :: 0 <= j < at ==> model[j].id != id
      {
        at := at + 1;
      }
      HeldAtIs(model, id, at);
    }

    /** The group an object goes to, begun if it is not held. */
    method GroupFor(id: nat, p: nat) returns (grp: HeldGroup, ghost at: nat)
      requires Linked() && Pointers() && OwnIds(model)
      modifies this
      ensures Linked() && Pointers() && at == HeldAt(old(model), id) < |groups| == |model| && grp == groups[at]
      ensures model == if at < |old(model)| then old(model) else old(model) + [Group(id, [], -1)]
      ensures bytes == old(bytes) && through == old(through)
      ensures old(repr) <= repr && fresh(repr - old(repr))
    {
      hide HeldGroup.Is, HeldAt, OwnIds;
      if lastId == Some(id) {
        HeldAtListed(model, lastAt);
        return last, lastAt;
      }
      at := HeldAt(model, id);
      HeldAtFound(model, id);
      var i := Find(id);
      if i == |groups| { Begin(id, p); }
      grp := groups[i];
      lastId, last, lastAt := Some(id), grp, i;
    }

    /** A new group, last in the dict. */
    method Begin(id: nat, p: nat)
      requires Linked() && Pointers()
      modifies this`groups, this`model, this`repr, this`oldest, this`oldestId
      ensures Linked() && Pointers() && model == old(model) + [Group(id, [], -1)]
      ensures old(repr) <= repr && fresh(repr - old(repr))
    {
      hide HeldGroup.Is;
      var grp := new HeldGroup(id, p);
      if groups == [] { oldestId, oldest := Some(id), grp; }
      groups, model, repr := groups + [grp], model + [Group(id, [], -1)], repr + {grp};
    }

    /** The object goes to the end of its group. */
    method Place(id: nat, x: Slot, p: nat)
      requires Linked() && Pointers() && OwnIds(model)
      modifies this, repr
      ensures Linked() && Pointers() && model == Put(old(model), id, Recorded(Some(x), p))
      ensures bytes == old(bytes) && through == old(through)
      ensures old(repr) <= repr && fresh(repr - old(repr))
    {
      hide Linked, Pointers, HeldAt, Put, OwnIds;
      PutWhere(model, id, Recorded(Some(x), p));
      var grp, at := GroupFor(id, p);
      AppendAt(grp, at, x, p);
    }

    method AppendAt(grp: HeldGroup, ghost at: nat, x: Slot, p: nat)
      requires Linked() && Pointers() && at < |groups| == |model| && grp == groups[at]
      requires forall i :: 0 <= i < |model| && i != at ==> model[i].id != model[at].id
      modifies this`model, repr
      ensures Linked() && Pointers()
      ensures model == old(model)[at := Longer(old(model)[at], Recorded(Some(x), p))]
    {
      hide HeldGroup.Is;
      grp.Append(x, p, model[at]);
      model := model[at := Longer(model[at], Recorded(Some(x), p))];
    }

    /** Record one object. */
    method Add(id: nat, x: Slot, p: nat)
      requires Valid() && x.cost > 0
      modifies this, repr
      ensures Valid() && old(repr) <= repr && fresh(repr - old(repr))
      ensures var r := Recorded(Some(x), p);
              NoneEmpty(Put(old(model), id, r)) && View() == History.Add(old(View()), bounds, id, r)
    {
      hide Linked, Pointers, Shape, Flat, Weight, Put, History.Evict, OwnIds;
      AddFacts(View(), id, Recorded(Some(x), p));
      Place(id, x, p);
      Settle(bytes + x.cost);
      if bytes > bounds.max + bounds.slack {
        if bounds.fixed {
          Evict(bounds.max - bounds.slack);
        } else if bytes - x.cost > bounds.max {
          Evict(bounds.max - Max(bounds.slack, x.cost));
        }
      }
    }

    /** Drop a group's records. */
    method Discard(id: nat)
      requires Valid()
      modifies this
      ensures Valid() && repr == old(repr) && View() == History.Discard(old(View()), id)
    {
      hide Linked, Pointers, Shape, Flat, Weight, Remove, HeldAt;
      DiscardFacts(View(), id);
      var i := Find(id);
      Listed();
      if i == |groups| { return; }
      var dropped := BytesOf(i);
      Unlink(i);
      Settle(bytes - dropped);
    }

    /** What is held first of each Location in the range. */
    method HeldIn(start: Loc, end: Loc) returns (m: map<Loc, FetchObject>)
      requires Linked() && OwnIds(model)
      ensures Holds(m, model, start, end)
    {
      hide HeldGroup.Is, Holds;
      m := map[];
      HoldsNone(start, end);
      assert model[..0] == [];
      for i := 0 to |groups|
        invariant Holds(m, model[..i], start, end)
      {
        assert model[..i + 1] == model[..i] + [model[i]];
        if start.group <= groups[i].id <= end.group {
          m := groups[i].Collect(m, start, end, model[i], model[..i]);
        } else {
          HoldsSkip(m, model[..i], model[i], start, end);
        }
      }
      assert model[..|model|] == model;
    }

    /** The largest Object ID held in a group. */
    method LastObject(id: nat) returns (last: Option<nat>)
      requires Ready()
      ensures last == HistoryFetch.LastObject(View(), id)
    {
      hide Shape, HeldGroup.Is, HeldOf, HeldAt;
      LastFacts(View(), id);
      var i := Find(id);
      if i == |groups| { return None; }
      var m := groups[i].Largest(model[i]);
      return Some(m);
    }

    /** What a FETCH from `start` to `end` returns. */
    method Fetch(start: Loc, end: Loc, descending: bool) returns (out: seq<FetchObject>)
      requires Ready()
      ensures Answered(View(), start, end, descending, out)
    {
      hide Linked, Pointers, Shape, Answers, Holds, OwnIds, HistoryFetch.LastObject, History.EvictedThrough,
           HeldGroup.Is;
      AddFacts(View(), 0, Record(0, None, [], [], 0, 1));
      var lost, from := None, start;
      var mark := EvictedThrough();
      if mark.Some? && AtMost(start, mark.value) {
        var cut := Earlier(mark.value, end);
        if cut.id > MAX_OBJECT_ID {
          var last := LastObject(cut.group);
          cut := Loc(cut.group, if last.None? then MAX_OBJECT_ID else last.value);
        }
        lost, from := Some(cut), Later(start, Loc(cut.group, cut.id + 1));
      }
      var m := HeldIn(from, end);
      var keys := Sorted(m.Keys, descending);
      out := [];
      for i := 0 to |keys|
        invariant |out| == i && forall j :: 0 <= j < i ==> out[j] == m[keys[j]]
      {
        out := out + [m[keys[i]]];
      }
      ghost var objects := out;
      HoldsAnswers(m, View(), start, end, descending, keys, objects);
      if lost.Some? {
        if descending { out := out + [Unknown(lost.value)]; } else { out := [Unknown(lost.value)] + out; }
      }
      assert out == Response(Lost(View(), start, end), objects, descending);
    }

    lemma Listed()
      requires Linked()
      ensures |groups| == |model|
    {
    }

    method BytesOf(i: nat) returns (n: int)
      requires Linked() && i < |groups| == |model|
      ensures n == GroupBytes(model[i])
    {
      IsGroup(groups[i], model[i]);
      n := groups[i].bytes;
    }

    method Settle(held: int)
      requires Ready() && held == Size(View())
      modifies this`bytes
      ensures Valid()
    {
      hide Shape, HeldGroup.Is, Flat, Weight;
      bytes := held;
    }
  }

  /** The groups have ids of their own. */
  ghost predicate OwnIds(groups: seq<Group>)
  {
    forall i, j :: 0 <= i < j < |groups| ==> groups[i].id != groups[j].id
  }

  lemma {:induction false} HeldAtIs(groups: seq<Group>, id: nat, at: nat)
    requires at <= |groups| && (at < |groups| ==> groups[at].id == id)
    requires forall j :: 0 <= j < at ==> groups[j].id != id
    ensures HeldAt(groups, id) == at
  {
    if at > 0 { HeldAtIs(groups[1..], id, at - 1); }
  }

  lemma HeldAtListed(groups: seq<Group>, at: nat)
    requires OwnIds(groups) && at < |groups|
    ensures HeldAt(groups, groups[at].id) == at
  {
    HeldAtIs(groups, groups[at].id, at);
  }

  lemma {:induction false} HeldAtFound(groups: seq<Group>, id: nat)
    ensures var at := HeldAt(groups, id);
            at <= |groups| && (at < |groups| ==> groups[at].id == id) && forall j :: 0 <= j < at ==> groups[j].id != id
  {
    if groups != [] && groups[0].id != id { HeldAtFound(groups[1..], id); }
  }

  lemma PutWhere(groups: seq<Group>, id: nat, r: Record)
    requires OwnIds(groups)
    ensures var at := HeldAt(groups, id);
            var listed := if at < |groups| then groups else groups + [Group(id, [], -1)];
            && at < |listed| && listed[at].id == id
            && (forall i :: 0 <= i < |listed| && i != at ==> listed[i].id != id)
            && Put(groups, id, r) == listed[at := Longer(listed[at], r)]
  {
    HeldAtFound(groups, id);
    var at := HeldAt(groups, id);
    if at < |groups| {
      PutAt(groups, at, r);
    } else {
      PutNew(groups, id, r);
      assert [] + [r] == [r];
      assert (groups + [Group(id, [], -1)])[at := Group(id, [r], -1)] == groups + [Group(id, [r], -1)];
    }
  }

  lemma AddFacts(h: Held, id: nat, r: Record)
    requires Shape(h) && r.cost > 0
    ensures var groups := Put(h.groups, id, r);
            && NoneEmpty(groups) && Shape(Held(groups, h.through)) && Size(Held(groups, h.through)) == Size(h) + r.cost
    ensures OwnIds(h.groups)
  {
    PutKeepsShape(h, id, r);
    PutWeight(h.groups, id, r);
    hide Put, Flat, Weight;
  }

  lemma DiscardFacts(h: Held, id: nat)
    requires Shape(h)
    ensures var i, groups := HeldAt(h.groups, id), Remove(h.groups, id);
            && i <= |h.groups| && Shape(Held(groups, h.through))
            && (i == |h.groups| ==> groups == h.groups)
            && (i < |h.groups| ==>
                  && groups == h.groups[..i] + h.groups[i + 1..]
                  && Size(Held(groups, h.through)) == Size(h) - GroupBytes(h.groups[i])
                  && forall j :: 0 <= j < |h.groups| && j != i ==> h.groups[j].id != h.groups[i].id)
  {
    DiscardShape(h, id);
    RemoveAt(h.groups, id);
    RemoveWeight(h.groups, id);
    hide Remove, HeldAt, Flat, Weight;
  }

  lemma {:induction false} RemoveWeight(groups: seq<Group>, id: nat)
    ensures var i := HeldAt(groups, id);
            && i <= |groups|
            && Weight(Flat(Remove(groups, id)))
               == Weight(Flat(groups)) - if i < |groups| then GroupBytes(groups[i]) else 0
  {
    if groups != [] {
      var g, rest := groups[0], groups[1..];
      FlatCons(g, rest);
      assert groups == [g] + rest;
      WeightConcat(Tagged(g.id, g.records), Flat(rest));
      if g.id != id {
        RemoveWeight(rest, id);
        FlatCons(g, Remove(rest, id));
        WeightConcat(Tagged(g.id, g.records), Flat(Remove(rest, id)));
      }
    }
  }

  lemma EvictFacts(h: Held, cap: int)
    requires Shape(h) && h.groups != [] && Size(h) > cap
    ensures NoneEmpty(h.groups) && h.groups[0].records != []
    ensures var whole := GoesWhole(h, cap);
            var h' := if whole then DropOldest(h) else DropRecord(h);
            && Size(h') == Size(h) - (if whole then GroupBytes(h.groups[0]) else h.groups[0].records[0].cost)
            && |Flat(h.groups)| > |Flat(h'.groups)|
            && NoneEmpty(h'.groups) && Evict(h, cap) == Evict(h', cap)
  {
    EvictStep(h, cap);
    DropSizes(h);
  }

  lemma HoldsNone(start: Loc, end: Loc)
    ensures Holds(map[], [], start, end)
  {
  }

  lemma LastFacts(h: Held, id: nat)
    requires Shape(h)
    ensures var i, held := HeldAt(h.groups, id), HeldOf(h.groups, id);
            && i <= |h.groups|
            && (i == |h.groups| ==> held == [])
            && (i < |h.groups| ==> held == h.groups[i].records && held != [])
  {
    HeldAtFound(h.groups, id);
    var i := HeldAt(h.groups, id);
    if i < |h.groups| {
      PutAt(h.groups, i, Record(0, None, [], [], 0, 0));
      assert h.groups[i] in h.groups;
    } else {
      HeldOfNone(h.groups, id);
    }
  }

  /** `keys` sorted: groups ascending or descending, objects always ascending. */
  method Sorted(keys: set<Loc>, descending: bool) returns (s: seq<Loc>)
    ensures forall i, j :: 0 <= i < j < |s| ==> InOrder(s[i], s[j], descending)
    ensures forall at :: at in s <==> at in keys
  {
    var left := keys;
    s := [];
    while left != {}
      invariant left <= keys
      invariant forall at :: at in keys <==> at in s || at in left
      invariant forall i, j :: 0 <= i < j < |s| ==> InOrder(s[i], s[j], descending)
      invariant forall i, at :: 0 <= i < |s| && at in left ==> InOrder(s[i], at, descending)
    {
      ghost var x := LeastExists(left, descending);
      var least :| least in left && forall at :: at in left && at != least ==> InOrder(least, at, descending);
      s := s + [least];
      left := left - {least};
    }
  }

  ghost predicate Least(s: set<Loc>, x: Loc, descending: bool)
  {
    x in s && forall at :: at in s && at != x ==> InOrder(x, at, descending)
  }

  lemma {:induction false} LeastExists(s: set<Loc>, descending: bool) returns (x: Loc)
    requires s != {}
    ensures Least(s, x, descending)
    decreases |s|
  {
    x :| x in s;
    var rest := s - {x};
    if rest == {} {
      assert forall at :: at in s && at != x ==> at in rest;
    } else {
      var y := LeastExists(rest, descending);
      LeastOfTwo(s, x, y, descending);
      if !InOrder(x, y, descending) { x := y; }
    }
  }

  lemma LeastOfTwo(s: set<Loc>, x: Loc, y: Loc, descending: bool)
    requires x in s && Least(s - {x}, y, descending)
    ensures Least(s, if InOrder(x, y, descending) then x else y, descending)
  {
    assert forall at :: at in s && at != x ==> at in s - {x};
  }

  lemma HoldsAnswers(m: map<Loc, FetchObject>, h: Held, start: Loc, end: Loc, descending: bool,
                     keys: seq<Loc>, objects: seq<FetchObject>)
    requires Holds(m, h.groups, From(h, start, end), end)
    requires forall i, j :: 0 <= i < j < |keys| ==> InOrder(keys[i], keys[j], descending)
    requires forall at :: at in keys <==> at in m
    requires |objects| == |keys| && forall i :: 0 <= i < |keys| ==> keys[i] in m && objects[i] == m[keys[i]]
    ensures Answers(h, start, end, descending, objects)
  {
    hide First, HeldOf, From;
    forall i | 0 <= i < |keys|
      ensures objects[i].at == keys[i] && Returned(h, start, end, keys[i])
              && objects[i] == Shown(keys[i], Best(h, keys[i]).value)
    {
      assert keys[i] in keys && Best(h, keys[i]) == Pick(h.groups, keys[i]);
    }
    forall at | Returned(h, start, end, at)
      ensures exists i :: 0 <= i < |objects| && objects[i].at == at
    {
      assert Best(h, at) == Pick(h.groups, at);
      assert at in keys;
      var i :| 0 <= i < |keys| && keys[i] == at;
      assert objects[i].at == at;
    }
  }

  lemma EvictDone(h: Held, cap: int)
    requires NoneEmpty(h.groups) && (h.groups == [] || Size(h) <= cap)
    ensures History.Evict(h, cap) == h
  {
  }

  /** The groups are objects of their own. */
  lemma Distinct(h: Held)
    requires Shape(h)
    ensures forall i :: 0 < i < |h.groups| ==> h.groups[i].id != h.groups[0].id
  {
  }

  lemma DropOldestFacts(h: Held)
    requires Shape(h) && h.groups != []
    ensures var g := h.groups[0];
            var m := LargestId(g.records);
            && g.records != [] && m >= 0
            && DropOldest(h)
               == Held(h.groups[1..], LaterOf(h.through, Loc(g.id, if g.evicted > m then g.evicted else m)))
    ensures Shape(DropOldest(h)) && forall i :: 0 < i < |h.groups| ==> h.groups[i].id != h.groups[0].id
  {
    OldestHolds(h);
    DropOldestShape(h);
    hide LargestId;
  }

  lemma DropRecordIs(h: Held)
    requires h.groups != [] && h.groups[0].records != []
    ensures History.DropRecord(h) == Held(h.groups[0 := HeadGone(h.groups[0])], h.through)
    ensures HeadGone(h.groups[0]).id == h.groups[0].id
  {
  }

  // ---- fetching -----------------------------------------------------------------

  /** The record held first of a Location, among `groups`. */
  function Pick(groups: seq<Group>, at: Loc): Option<Record> { First(HeldOf(groups, at.group), at.id) }

  predicate InRange(at: Loc, start: Loc, end: Loc) { AtMost(start, at) && AtMost(at, end) }

  /** `m` is what is held in the range, among `groups`. */
  ghost predicate Holds(m: map<Loc, FetchObject>, groups: seq<Group>, start: Loc, end: Loc)
  {
    forall at: Loc ::
      && (at in m <==> InRange(at, start, end) && Pick(groups, at).Some?)
      && (at in m ==> m[at] == Shown(at, Pick(groups, at).value))
  }

  lemma {:induction false} HeldOfMore(groups: seq<Group>, g: Group, id: nat)
    requires forall x :: x in groups ==> x.id != g.id
    ensures HeldOf(groups + [g], id) == if id == g.id then g.records else HeldOf(groups, id)
  {
    if groups != [] {
      assert (groups + [g])[1..] == groups[1..] + [g];
      HeldOfMore(groups[1..], g, id);
    }
  }

  lemma {:induction false} FirstMore(s: seq<Record>, k: nat, id: nat)
    requires k < |s|
    ensures First(s[..k + 1], id)
            == if First(s[..k], id).Some? then First(s[..k], id) else if s[k].id == id then Some(s[k]) else None
  {
    if k > 0 {
      assert s[..k + 1][1..] == s[1..][..k] && s[..k][1..] == s[1..][..k - 1];
      FirstMore(s[1..], k - 1, id);
    }
  }

  /** One record more of a group. */
  lemma HoldsMore(m: map<Loc, FetchObject>, groups: seq<Group>, g: Group, k: nat, start: Loc, end: Loc)
    requires k < |g.records| && forall x :: x in groups ==> x.id != g.id
    requires Holds(m, groups + [g.(records := g.records[..k])], start, end)
    ensures var at := Loc(g.id, g.records[k].id);
            var m' := if InRange(at, start, end) && at !in m then m[at := Shown(at, g.records[k])] else m;
            Holds(m', groups + [g.(records := g.records[..k + 1])], start, end)
  {
    hide First, HeldOf;
    var was, now := groups + [g.(records := g.records[..k])], groups + [g.(records := g.records[..k + 1])];
    var key := Loc(g.id, g.records[k].id);
    var m' := if InRange(key, start, end) && key !in m then m[key := Shown(key, g.records[k])] else m;
    forall at: Loc
      ensures (at in m' <==> InRange(at, start, end) && Pick(now, at).Some?)
              && (at in m' ==> m'[at] == Shown(at, Pick(now, at).value))
    {
      HeldOfMore(groups, g.(records := g.records[..k]), at.group);
      HeldOfMore(groups, g.(records := g.records[..k + 1]), at.group);
      if at.group == g.id { FirstMore(g.records, k, at.id); }
    }
  }

  /** A group with none of its records yet, or one out of range. */
  lemma HoldsSkip(m: map<Loc, FetchObject>, groups: seq<Group>, g: Group, start: Loc, end: Loc)
    requires Holds(m, groups, start, end) && forall x :: x in groups ==> x.id != g.id
    requires g.records == [] || !(start.group <= g.id <= end.group)
    ensures Holds(m, groups + [g], start, end)
  {
    hide HeldOf;
    forall at: Loc
      ensures InRange(at, start, end) ==> Pick(groups + [g], at) == Pick(groups, at)
    {
      HeldOfMore(groups, g, at.group);
      if at.group == g.id && g.records == [] { HeldOfNone(groups, g.id); }
    }
  }

  lemma TaggedSnoc(id: nat, s: seq<Record>, r: Record)
    ensures Weight(Tagged(id, s + [r])) == Weight(Tagged(id, s)) + r.cost
  {
    assert Tagged(id, s + [r]) == Tagged(id, s) + [Logged(id, r)];
    WeightConcat(Tagged(id, s), [Logged(id, r)]);
    OneWeight(Logged(id, r));
  }
}
