/** One subgroup of a generated track for one peer: what a stream that ends in
    FIN carries, with the peer's Forward State coming and going. */
module SubgroupSender {
  import opened Basics
  import opened Locations

  /** The track, and which of its subgroups this is; `first` is the group it begins
      with and `make` its content. */
  datatype Config = Config(subgroup: nat, step: nat, size: nat, first: nat, window: Window,
                           make: (nat, nat) -> seq<int>)

  predicate Valid(c: Config) { c.subgroup < c.step }

  datatype Object = Object(id: nat, payload: seq<int>)

  /** The open stream: what it carries, and whether it lacks objects of the window. */
  datatype Stream = Stream(objs: seq<Object>, short: bool)

  /** A stream that has ended, by FIN or by RESET. */
  datatype Ended = Ended(group: nat, objs: seq<Object>, fin: bool)

  /** `group` is None before the first; `k` objects of it are made. */
  datatype Sender = Sender(group: Option<nat>, k: nat, forward: bool, open: Option<Stream>, stopped: bool,
                           ended: seq<Ended>)

  /** A group's records in the history: subgroup and payload by Object ID. */
  type Records = map<nat, (nat, seq<int>)>

  function Id(c: Config, k: nat): nat { c.subgroup + k * c.step }

  /** The objects of the first `k` that the window admits. */
  function Due(c: Config, group: nat, k: nat): seq<Object>
  {
    if k == 0 then []
    else
      var id := Id(c, k - 1);
      Due(c, group, k - 1) + if Admits(c.window, group, id) then [Object(id, c.make(group, id))] else []
  }

  // ---- steps -----------------------------------------------------------------

  function Close(s: Sender, fin: bool): Sender
  {
    if s.open.None? || s.group.None? then s
    else s.(open := None, ended := s.ended + [Ended(s.group.value, s.open.value.objs, fin)])
  }

  /** The open stream ends with the group: by RESET when it is short. */
  function EndStream(s: Sender): Sender { Close(s, s.open.Some? && !s.open.value.short) }

  function NewGroup(c: Config, s: Sender): Sender
  {
    EndStream(s).(group := Some(if s.group.None? then c.first else s.group.value + 1), k := 0, stopped := false)
  }

  /** The first of the subgroup's ids at or past the start of the window. */
  function FirstId(c: Config, group: nat): nat
    requires c.step > 0
  {
    var first := if c.window.group > group || (c.window.group == group && c.window.id > 0) then c.window.id else 0;
    first + (c.subgroup - first) % c.step
  }

  /** range(first, to, step) */
  function Range(first: nat, to: nat, step: nat): seq<nat>
    requires step > 0
    decreases if first < to then to - first else 0
  {
    if first >= to then [] else [first] + Range(first + step, to, step)
  }

  predicate AllHeld(ids: seq<nat>, held: Records, subgroup: nat)
  {
    forall i :: 0 <= i < |ids| ==> ids[i] in held && held[ids[i]].0 == subgroup
  }

  function Replay(ids: seq<nat>, held: Records): seq<Object>
    requires forall i :: 0 <= i < |ids| ==> ids[i] in held
  {
    seq(|ids|, i requires 0 <= i < |ids| => Object(ids[i], held[ids[i]].1))
  }

  /** The head of a stream that opens at `id`: replayed, or given up as short. */
  function Head(c: Config, group: nat, id: nat, held: Records): Stream
    requires c.step > 0
  {
    var missing := Range(FirstId(c, group), id, c.step);
    if AllHeld(missing, held, c.subgroup) then Stream(Replay(missing, held), false) else Stream([], true)
  }

  /** The next object is made and sent; `stops` when the peer has stopped the stream. */
  function Send(c: Config, s: Sender, held: Records, stops: bool): Sender
    requires c.step > 0 && s.group.Some?
  {
    var group, id := s.group.value, Id(c, s.k);
    var next := s.(k := s.k + 1);
    if s.stopped || !s.forward || !Admits(c.window, group, id) then next
    else
      var at := if s.open.Some? then s.open.value else Head(c, group, id, held);
      var written := next.(open := Some(at.(objs := at.objs + [Object(id, c.make(group, id))])));
      if stops then Close(next.(open := Some(at)), false).(stopped := true) else written
  }

  /** Forward State set: a stream whose next object is not taken is reset. */
  function SetForward(c: Config, s: Sender, forward: bool): Sender
  {
    var s' := s.(forward := forward);
    if s.open.None? || s.group.None? then s'
    else
      var objs := s.open.value.objs;
      var next := if objs == [] then 0 else objs[|objs| - 1].id + 1;
      if forward && Admits(c.window, s.group.value, next) then s' else Close(s', false)
  }

  // ---- a sender as an object ------------------------------------------------------

  class SubgroupSender {
    const c: Config
    var group: Option<nat>
    var cur: nat                        // cur_obj_id
    var forward: bool                   // the subscription's
    var open: bool                      // stream_id is set
    var next: nat                       // the header's next object id
    var short: bool
    var stopped: bool
    ghost var k: nat
    ghost var objs: seq<Object>         // what the open stream carries
    ghost var ended: seq<Ended>

    ghost function View(): Sender
      reads this
    {
      Sender(group, k, forward, if open then Some(Stream(objs, short)) else None, stopped, ended)
    }

    ghost predicate Ok()
      reads this
    {
      && Valid(c) && cur == Id(c, k) && (open ==> group.Some?)
      && (open ==> next == if objs == [] then 0 else objs[|objs| - 1].id + 1)
    }

    constructor (c: Config, forward: bool)
      requires Valid(c)
      ensures Ok() && View() == Start(forward) && this.c == c
    {
      this.c, this.forward, group, cur := c, forward, None, c.subgroup;
      open, next, short, stopped := false, 0, false, false;
      k, objs, ended := 0, [], [];
    }

    method CloseStream(ghost fin: bool)
      requires Ok() && open
      modifies this
      ensures Ok() && View() == Close(old(View()), fin)
    {
      ended := ended + [Ended(group.value, objs, fin)];
      open := false;
    }

    method End()
      requires Ok()
      modifies this
      ensures Ok() && View() == EndStream(old(View()))
    {
      if open { CloseStream(!short); }
    }

    method NextGroup()
      requires Ok()
      modifies this
      ensures Ok() && View() == NewGroup(c, old(View()))
    {
      End();
      group := Some(if group.None? then c.first else group.value + 1);
      cur, stopped, short, k := c.subgroup, false, false, 0;
    }

    /** A stream opening past the window's first object carries the earlier ones
        from the history; lacking any, it is marked short. */
    method SendHead(held: Records)
      requires Ok() && group.Some? && !open
      modifies this
      ensures Ok() && open && View() == old(View()).(open := Some(Head(c, group.value, cur, held)))
    {
      hide FirstId, Range;
      var first := FirstId(c, group.value);
      ghost var missing := Range(first, cur, c.step);
      var whole, last := Held(first, held);
      open, short, next := true, !whole, last;
      objs := if whole then Replay(missing, held) else [];
    }

    /** Whether the history has every object from `first` to the current one, and
        one past the last of them. */
    method Held(first: nat, held: Records) returns (whole: bool, last: nat)
      requires Ok()
      ensures var missing := Range(first, cur, c.step);
              && (whole <==> AllHeld(missing, held, c.subgroup))
              && last == if !whole || missing == [] then 0 else missing[|missing| - 1] + 1
    {
      ghost var missing := Range(first, cur, c.step);
      var id := first;
      last := 0;
      ghost var i := 0;
      while id < cur
        invariant 0 <= i <= |missing| && Range(id, cur, c.step) == missing[i..]
        invariant forall j :: 0 <= j < i ==> missing[j] in held && held[missing[j]].0 == c.subgroup
        invariant last == if i == 0 then 0 else missing[i - 1] + 1
        decreases if id < cur then cur - id else 0
      {
        assert missing[i..][0] == missing[i] && missing[i..][1..] == missing[i + 1..];
        if !(id in held && held[id].0 == c.subgroup) { return false, 0; }
        last := id + 1;
        id := id + c.step;
        i := i + 1;
      }
      return true, last;
    }

    /** The next object; `stops` when the peer has stopped the stream. */
    method SendNext(held: Records, stops: bool)
      requires Ok() && group.Some?
      modifies this
      ensures Ok() && View() == Send(c, old(View()), held, stops)
    {
      hide Head, Admits;
      IdNext(c, k);
      if !stopped && forward && Admits(c.window, group.value, cur) {
        if !open { SendHead(held); }
        if stops {
          CloseStream(false);
          stopped := true;
        } else {
          objs := objs + [Object(cur, c.make(group.value, cur))];
          next := cur + 1;
        }
      }
      cur, k := cur + c.step, k + 1;
    }

    method Forward(to: bool)
      requires Ok()
      modifies this
      ensures Ok() && View() == SetForward(c, old(View()), to)
    {
      forward := to;
      if open && !(forward && Admits(c.window, group.value, next)) { CloseStream(false); }
    }
  }

  function Start(forward: bool): Sender { Sender(None, 0, forward, None, false, []) }

  lemma IdNext(c: Config, k: nat)
    ensures Id(c, k + 1) == Id(c, k) + c.step
  {
    assert (k + 1) * c.step == k * c.step + c.step;
  }

  // ---- runs ------------------------------------------------------------------------

  datatype Event =
    | Begin                                     // generate() comes to the next group
    | Next(held: Records, stops: bool)
    | Toggle(forward: bool)
    | Cancel                                    // generate() is cancelled mid-group

  /** The records of a group are what was made of it. */
  predicate Faithful(c: Config, group: nat, held: Records)
  {
    forall id :: id in held && held[id].0 == c.subgroup ==> held[id].1 == c.make(group, id)
  }

  /** generate(): a group is over when the next id is past its size; its first
      object is made whatever the size is. */
  predicate Enabled(c: Config, s: Sender, ev: Event)
  {
    match ev
    case Begin => s.group.None? || (s.k > 0 && Id(c, s.k) >= c.size)
    case Next(held, _) =>
      s.group.Some? && (s.k == 0 || Id(c, s.k) < c.size) && Faithful(c, s.group.value, held)
    case _ => true
  }

  function Step(c: Config, s: Sender, ev: Event): Sender
    requires Valid(c) && Enabled(c, s, ev)
  {
    match ev
    case Begin => NewGroup(c, s)
    case Next(held, stops) => Send(c, s, held, stops)
    case Toggle(forward) => SetForward(c, s, forward)
    case Cancel => Close(s, false)
  }

  /** `k` is how many objects of a group the subgroup makes. */
  predicate IsCount(c: Config, k: nat) { k >= 1 && Id(c, k) >= c.size && (k > 1 ==> Id(c, k - 1) < c.size) }

  ghost predicate OpenOk(c: Config, s: Sender)
  {
    s.open.Some? ==>
      && s.group.Some? && s.forward && !s.stopped && s.k > 0 && s.open.value.objs != []
      && (!s.open.value.short ==> s.open.value.objs == Due(c, s.group.value, s.k))
  }

  ghost predicate EndedOk(c: Config, e: Ended)
  {
    e.fin ==> exists k: nat :: IsCount(c, k) && e.objs == Due(c, e.group, k)
  }

  ghost predicate SenderOk(c: Config, s: Sender)
  {
    && OpenOk(c, s) && (s.k > 1 ==> Id(c, s.k - 1) < c.size)
    && (forall e :: e in s.ended ==> EndedOk(c, e))
  }

  lemma CloseKeeps(c: Config, s: Sender)
    requires SenderOk(c, s)
    ensures SenderOk(c, Close(s, false))
  {
    hide Due, Id;
  }

  lemma BeginKeeps(c: Config, s: Sender)
    requires SenderOk(c, s) && Enabled(c, s, Begin)
    ensures SenderOk(c, NewGroup(c, s))
  {
    hide Due, Id;
    if s.open.Some? && !s.open.value.short {
      assert IsCount(c, s.k);
    }
    CloseKeeps(c, s);
  }

  lemma {:induction false} RangeMore(first: nat, step: nat, n: nat)
    requires step > 0
    ensures Range(first, first + (n + 1) * step, step) == Range(first, first + n * step, step) + [first + n * step]
    decreases n
  {
    if n == 0 {
      assert 1 * step == step && 0 * step == 0;
      assert Range(first, first + step, step) == [first] + Range(first + step, first + step, step);
    } else {
      assert (n + 1) * step == step + n * step && n * step == step + (n - 1) * step;
      RangeMore(first + step, step, n - 1);
    }
  }

  /** The first id is one of the subgroup's, and the least at or past the start. */
  lemma FirstIs(c: Config, group: nat) returns (j: nat)
    requires Valid(c)
    ensures FirstId(c, group) == Id(c, j)
    ensures forall k: nat :: (Id(c, k) >= if c.window.group > group || (c.window.group == group && c.window.id > 0)
                                          then c.window.id else 0) <==> k >= j
  {
    var first := if c.window.group > group || (c.window.group == group && c.window.id > 0) then c.window.id else 0;
    var q, r := (c.subgroup - first) / c.step, (c.subgroup - first) % c.step;
    assert c.subgroup - first == q * c.step + r;
    if q > 0 {
      AtLeastOnce(q, c.step);
      assert false;
    }
    j := -q;
    assert j * c.step == -(q * c.step);
    forall k: nat
      ensures Id(c, k) >= first <==> k >= j
    {
      if k >= j {
        Multiples(k - j, c.step);
        assert (k - j) * c.step == k * c.step - j * c.step;
      } else {
        Multiples(j - k - 1, c.step);
        assert (j - k - 1) * c.step == j * c.step - k * c.step - c.step;
      }
    }
  }

  lemma AtLeastOnce(n: int, step: nat)
    requires n >= 1
    ensures n * step >= step
  {
    Multiples(n - 1, step);
    assert n * step == (n - 1) * step + step;
  }

  lemma Multiples(n: nat, step: nat)
    ensures n * step >= 0
  {
  }

  /** Before an object the window takes, what it takes is what is past its start. */
  lemma {:induction false} MissingIsDue(c: Config, group: nat, k: nat, j: nat, held: Records)
    requires Valid(c) && Faithful(c, group, held)
    requires FirstId(c, group) == Id(c, j)
    requires forall i: nat :: i < k ==> (Admits(c.window, group, Id(c, i)) <==> i >= j)
    requires AllHeld(Range(Id(c, j), Id(c, k), c.step), held, c.subgroup)
    ensures Replay(Range(Id(c, j), Id(c, k), c.step), held) == Due(c, group, k)
    decreases k
  {
    hide Admits, FirstId;
    var ids := Range(Id(c, j), Id(c, k), c.step);
    if k <= j {
      IdMonotone(c, k, j);
      NoneDue(c, group, k, j);
    } else {
      var was := Range(Id(c, j), Id(c, k - 1), c.step);
      IdSplit(c, j, k - 1 - j);
      IdSplit(c, j, k - j);
      RangeMore(Id(c, j), c.step, k - 1 - j);
      assert ids == was + [Id(c, k - 1)];
      assert AllHeld(was, held, c.subgroup) by {
        forall i | 0 <= i < |was|
          ensures was[i] in held && held[was[i]].0 == c.subgroup
        {
          assert was[i] == ids[i];
        }
      }
      MissingIsDue(c, group, k - 1, j, held);
      assert ids[|was|] in held && Id(c, k - 1) == ids[|was|];
      assert Replay(ids, held) == Replay(was, held) + [Object(Id(c, k - 1), c.make(group, Id(c, k - 1)))];
    }
  }

  lemma IdSplit(c: Config, j: nat, n: nat)
    ensures Id(c, j + n) == Id(c, j) + n * c.step
  {
    assert (j + n) * c.step == j * c.step + n * c.step;
  }

  lemma IdMonotone(c: Config, k: nat, j: nat)
    requires k <= j
    ensures Id(c, k) <= Id(c, j)
  {
    IdSplit(c, k, j - k);
    Multiples(j - k, c.step);
  }

  lemma {:induction false} NoneDue(c: Config, group: nat, k: nat, j: nat)
    requires k <= j && forall i: nat :: i < k ==> (Admits(c.window, group, Id(c, i)) <==> i >= j)
    ensures Due(c, group, k) == []
  {
    if k > 0 { NoneDue(c, group, k - 1, j); }
  }

  /** A head replayed from the history is what the window admits before `id`. */
  lemma HeadIsDue(c: Config, group: nat, k: nat, held: Records)
    requires Valid(c) && Faithful(c, group, held) && Admits(c.window, group, Id(c, k))
    ensures var head := Head(c, group, Id(c, k), held); !head.short ==> head.objs == Due(c, group, k)
  {
    var j := FirstIs(c, group);
    forall i: nat | i < k
      ensures Admits(c.window, group, Id(c, i)) <==> i >= j
    {
      IdMonotone(c, i, k);
    }
    hide FirstId, Due, Admits;
    if AllHeld(Range(Id(c, j), Id(c, k), c.step), held, c.subgroup) { MissingIsDue(c, group, k, j, held); }
  }

  lemma NextKeeps(c: Config, s: Sender, held: Records, stops: bool)
    requires Valid(c) && SenderOk(c, s) && Enabled(c, s, Next(held, stops))
    ensures SenderOk(c, Send(c, s, held, stops))
  {
    hide Head, Admits, Id, Faithful;
    if Admits(c.window, s.group.value, Id(c, s.k)) { HeadIsDue(c, s.group.value, s.k, held); }
    assert Due(c, s.group.value, s.k + 1) == Due(c, s.group.value, s.k)
      + if Admits(c.window, s.group.value, Id(c, s.k))
        then [Object(Id(c, s.k), c.make(s.group.value, Id(c, s.k)))] else [];
    hide Due;
  }

  lemma StepKeeps(c: Config, s: Sender, ev: Event)
    requires Valid(c) && SenderOk(c, s) && Enabled(c, s, ev)
    ensures SenderOk(c, Step(c, s, ev))
  {
    match ev
    case Begin => BeginKeeps(c, s);
    case Next(held, stops) => NextKeeps(c, s, held, stops);
    case Toggle(forward) =>
      hide Due, Id, Admits;
      CloseKeeps(c, s);
    case Cancel => CloseKeeps(c, s);
  }

  ghost predicate Reaches(c: Config, s: Sender, run: seq<Event>, s': Sender)
    decreases run
  {
    if run == [] then s' == s
    else Valid(c) && Enabled(c, s, run[0]) && Reaches(c, Step(c, s, run[0]), run[1..], s')
  }

  lemma {:induction false} RunKeeps(c: Config, s: Sender, run: seq<Event>, s': Sender)
    requires SenderOk(c, s) && Reaches(c, s, run, s')
    ensures SenderOk(c, s')
    decreases run
  {
    hide SenderOk, Step, Enabled;
    if run != [] {
      StepKeeps(c, s, run[0]);
      RunKeeps(c, Step(c, s, run[0]), run[1..], s');
    }
  }

  // ---- what a FIN means --------------------------------------------------------------

  /** The ids this subgroup has in a group: its own residue, below the size, but
      always its first. */
  predicate Made(c: Config, id: nat)
  {
    c.step > 0 && id % c.step == c.subgroup && id < Max(c.size, c.subgroup + 1)
  }

  /** One of the first `k` ids. */
  ghost predicate AmongFirst(c: Config, k: nat, id: nat) { exists j: nat :: j < k && id == Id(c, j) }

  ghost predicate Has(objs: seq<Object>, id: nat) { exists i :: 0 <= i < |objs| && objs[i].id == id }

  /** Ids ascend, and each object is what was made. */
  ghost predicate InOrder(c: Config, group: nat, objs: seq<Object>)
  {
    && (forall i, j :: 0 <= i < j < |objs| ==> objs[i].id < objs[j].id)
    && (forall i :: 0 <= i < |objs| ==> objs[i].payload == c.make(group, objs[i].id))
  }

  /** `objs` is, in order, what the window admits of the ids `of`. */
  ghost predicate Lists(c: Config, group: nat, objs: seq<Object>, of: nat -> bool)
  {
    InOrder(c, group, objs) && (forall id: nat :: Has(objs, id) <==> of(id) && Admits(c.window, group, id))
  }

  lemma FirstOnes(c: Config, k: nat, id: nat)
    ensures AmongFirst(c, k + 1, id) <==> AmongFirst(c, k, id) || id == Id(c, k)
  {
  }

  lemma HasMore(objs: seq<Object>, o: Object, id: nat)
    ensures Has(objs + [o], id) <==> Has(objs, id) || o.id == id
  {
    if Has(objs, id) {
      var i :| 0 <= i < |objs| && objs[i].id == id;
      assert (objs + [o])[i].id == id;
    }
    assert (objs + [o])[|objs|] == o;
  }

  lemma {:induction false} DueIs(c: Config, group: nat, k: nat)
    requires Valid(c)
    ensures Lists(c, group, Due(c, group, k), (id: nat) => AmongFirst(c, k, id))
  {
    hide Admits, Id, Due, Has, AmongFirst, InOrder;
    if k > 0 {
      DueIs(c, group, k - 1);
      var was, now, id := Due(c, group, k - 1), Due(c, group, k), Id(c, k - 1);
      var o := Object(id, c.make(group, id));
      DueMore(c, group, k);
      LaterId(c, was, k - 1);
      InOrderMore(c, group, was, o);
      forall x: nat
        ensures Has(now, x) <==> AmongFirst(c, k, x) && Admits(c.window, group, x)
      {
        FirstOnes(c, k - 1, x);
        HasMore(was, o, x);
      }
    } else {
      DueNone(c, group);
    }
  }

  lemma DueNone(c: Config, group: nat)
    ensures Due(c, group, 0) == [] && Lists(c, group, [], (id: nat) => AmongFirst(c, 0, id))
  {
  }

  lemma InOrderMore(c: Config, group: nat, objs: seq<Object>, o: Object)
    requires InOrder(c, group, objs) && o.payload == c.make(group, o.id)
    requires forall i :: 0 <= i < |objs| ==> objs[i].id < o.id
    ensures InOrder(c, group, objs + [o])
  {
  }

  lemma LaterId(c: Config, objs: seq<Object>, k: nat)
    requires Valid(c) && forall id: nat :: Has(objs, id) ==> AmongFirst(c, k, id)
    ensures forall i :: 0 <= i < |objs| ==> objs[i].id < Id(c, k)
  {
    forall i | 0 <= i < |objs|
      ensures objs[i].id < Id(c, k)
    {
      assert Has(objs, objs[i].id);
      var j: nat :| j < k && objs[i].id == Id(c, j);
      IdBelow(c, j, k);
    }
  }

  lemma DueMore(c: Config, group: nat, k: nat)
    requires k > 0
    ensures var id := Id(c, k - 1);
            Due(c, group, k) == if Admits(c.window, group, id)
                                then Due(c, group, k - 1) + [Object(id, c.make(group, id))]
                                else Due(c, group, k - 1)
  {
  }

  lemma IdBelow(c: Config, j: nat, k: nat)
    requires Valid(c) && j < k
    ensures Id(c, j) < Id(c, k)
  {
    IdMonotone(c, j + 1, k);
    IdNext(c, j);
  }

  lemma DivUnique(x: nat, m: nat, q: nat, r: nat)
    requires x == q * m + r && r < m
    ensures x / m == q && x % m == r
  {
    var d := q - x / m;
    assert d * m == q * m - (x / m) * m;
    if d > 0 {
      AtLeastOnce(d, m);
      assert false;
    }
    if d < 0 {
      AtLeastOnce(-d, m);
      assert false;
    }
  }

  lemma IdResidue(c: Config, j: nat)
    requires Valid(c)
    ensures Id(c, j) % c.step == c.subgroup && Id(c, j) / c.step == j
  {
    DivUnique(Id(c, j), c.step, j, c.subgroup);
  }

  /** An id of the residue, and below the size or the first, is one of those made. */
  lemma MadeIs(c: Config, k: nat, id: nat)
    requires Valid(c) && IsCount(c, k)
    ensures Made(c, id) <==> AmongFirst(c, k, id)
  {
    hide Id, Made;
    if j: nat :| j < k && id == Id(c, j) { FirstAreMade(c, k, j); }
    if Made(c, id) { MadeAreFirst(c, k, id); }
  }

  lemma FirstAreMade(c: Config, k: nat, j: nat)
    requires Valid(c) && IsCount(c, k) && j < k
    ensures Made(c, Id(c, j))
  {
    hide Id;
    IdResidue(c, j);
    IdMonotone(c, j, k - 1);
    FirstMade(c);
  }

  lemma MadeAreFirst(c: Config, k: nat, id: nat)
    requires Valid(c) && IsCount(c, k) && Made(c, id)
    ensures AmongFirst(c, k, id)
  {
    hide Id;
    var j := id / c.step;
    IdQuotient(c, id);
    FirstMade(c);
    IdBelow(c, 0, k);
    if j >= k {
      IdMonotone(c, k, j);
      assert false;
    }
  }

  lemma FirstMade(c: Config)
    ensures Id(c, 0) == c.subgroup
  {
  }

  lemma IdQuotient(c: Config, id: nat)
    requires Valid(c) && id % c.step == c.subgroup
    ensures id == Id(c, id / c.step)
  {
  }

  /** A stream of a generated track that ends in FIN carries, in order, exactly
      what the window admits of its subgroup's part of the group, however Forward
      State went; a stream that lacked any of it was reset. */
  lemma FinIsWhole(c: Config, forward: bool, run: seq<Event>, s: Sender, e: Ended)
    requires Valid(c) && Reaches(c, Start(forward), run, s) && e in s.ended && e.fin
    ensures Lists(c, e.group, e.objs, (id: nat) => Made(c, id))
  {
    hide Due, Admits, IsCount, Made, Id, AmongFirst, Has;
    StartOk(c, forward);
    RunKeeps(c, Start(forward), run, s);
    var k: nat :| IsCount(c, k) && e.objs == Due(c, e.group, k);
    DueIs(c, e.group, k);
    forall id: nat
      ensures Made(c, id) <==> AmongFirst(c, k, id)
    {
      MadeIs(c, k, id);
    }
  }

  lemma StartOk(c: Config, forward: bool)
    ensures SenderOk(c, Start(forward))
  {
  }

  /** The ids are those below the group's size exactly when the subgroup has one
      there: a subgroup at or past the size still makes its first object. */
  lemma MadeBelowSize(c: Config)
    requires Valid(c)
    ensures (forall id: nat :: Made(c, id) ==> id < c.size) <==> c.subgroup < c.size
    ensures Made(c, c.subgroup)
  {
    DivUnique(c.subgroup, c.step, 0, c.subgroup);
    assert Made(c, c.subgroup);
  }

  // ---- when a stream is short -----------------------------------------------------------

  /** The history has the record, as this subgroup's. */
  predicate Kept(c: Config, held: Records, id: nat) { id in held && held[id].0 == c.subgroup }

  /** The history lacks something the window takes of what the subgroup made of the
      group before `id`. */
  ghost predicate Lacks(c: Config, group: nat, id: nat, held: Records)
  {
    exists i: nat :: i < id && Made(c, i) && Admits(c.window, group, i) && !Kept(c, held, i)
  }

  lemma {:induction false} RangeIs(first: nat, step: nat, n: nat)
    requires step > 0
    ensures var ids := Range(first, first + n * step, step);
            |ids| == n && forall i :: 0 <= i < n ==> ids[i] == first + i * step
    decreases n
  {
    if n == 0 {
      assert 0 * step == 0;
    } else {
      RangeIs(first, step, n - 1);
      RangeMore(first, step, n - 1);
    }
  }

  lemma IdIsMade(c: Config, k: nat)
    requires Valid(c) && (k == 0 || Id(c, k) < c.size)
    ensures Made(c, Id(c, k))
  {
    IdResidue(c, k);
  }

  /** What the subgroup made before its k-th id are the ids before that. */
  lemma MadeBefore(c: Config, k: nat, id: nat) returns (i: nat)
    requires Valid(c) && Made(c, id) && id < Id(c, k)
    ensures i < k && id == Id(c, i)
  {
    hide Id;
    i := id / c.step;
    IdQuotient(c, id);
    if i >= k {
      IdMonotone(c, k, i);
      assert false;
    }
  }

  lemma HeldAllIff(c: Config, held: Records, j: nat, k: nat)
    requires Valid(c)
    ensures AllHeld(Range(Id(c, j), Id(c, k), c.step), held, c.subgroup)
            <==> forall i: nat :: j <= i < k ==> Kept(c, held, Id(c, i))
  {
    hide Id;
    if k <= j {
      IdMonotone(c, k, j);
    } else {
      var ids := Range(Id(c, j), Id(c, k), c.step);
      IdSplit(c, j, k - j);
      RangeIs(Id(c, j), c.step, k - j);
      forall i: nat | j <= i < k
        ensures ids[i - j] == Id(c, i)
      {
        IdSplit(c, j, i - j);
      }
      if forall i: nat :: j <= i < k ==> Kept(c, held, Id(c, i)) {
        forall i | 0 <= i < |ids|
          ensures Kept(c, held, ids[i])
        {
          assert ids[j + i - j] == Id(c, j + i);
        }
      }
    }
  }

  /** A stream that opens at one of the subgroup's ids is short if and only if the
      history lacks something the window takes before it. */
  lemma ShortIffLacking(c: Config, group: nat, k: nat, held: Records)
    requires Valid(c) && (k == 0 || Id(c, k) < c.size) && Admits(c.window, group, Id(c, k))
    ensures Head(c, group, Id(c, k), held).short <==> Lacks(c, group, Id(c, k), held)
  {
    var j := FirstIs(c, group);
    forall i: nat | i < k
      ensures Admits(c.window, group, Id(c, i)) <==> i >= j
    {
      IdMonotone(c, i, k);
    }
    hide FirstId, Admits, Id, Range, Made;
    HeldAllIff(c, held, j, k);
    if i: nat :| j <= i < k && !Kept(c, held, Id(c, i)) {
      EarlierMade(c, i, k);
      assert Lacks(c, group, Id(c, k), held);
    }
    if Lacks(c, group, Id(c, k), held) {
      var id: nat :| id < Id(c, k) && Made(c, id) && Admits(c.window, group, id) && !Kept(c, held, id);
      var i := MadeBefore(c, k, id);
    }
  }

  lemma EarlierMade(c: Config, i: nat, k: nat)
    requires Valid(c) && i < k && (k == 0 || Id(c, k) < c.size)
    ensures Id(c, i) < Id(c, k) && Made(c, Id(c, i))
  {
    hide Id;
    IdBelow(c, i, k);
    IdIsMade(c, i);
  }

  /** And one that is not short begins with all the window takes before it. */
  lemma HeadListsEarlier(c: Config, group: nat, k: nat, held: Records)
    requires Valid(c) && Faithful(c, group, held) && (k == 0 || Id(c, k) < c.size)
    requires Admits(c.window, group, Id(c, k)) && !Lacks(c, group, Id(c, k), held)
    ensures var id := Id(c, k);
            Lists(c, group, Head(c, group, id, held).objs, (x: nat) => Made(c, x) && x < id)
  {
    hide Head, Faithful, Admits, Id, Made, Lacks, Due, AmongFirst, Has, InOrder;
    ShortIffLacking(c, group, k, held);
    HeadIsDue(c, group, k, held);
    DueIs(c, group, k);
    forall x: nat
      ensures AmongFirst(c, k, x) <==> Made(c, x) && x < Id(c, k)
    {
      AmongIffBefore(c, k, x);
    }
  }

  lemma AmongIffBefore(c: Config, k: nat, x: nat)
    requires Valid(c) && (k == 0 || Id(c, k) < c.size)
    ensures AmongFirst(c, k, x) <==> Made(c, x) && x < Id(c, k)
  {
    hide Id, Made;
    if i: nat :| i < k && x == Id(c, i) { EarlierMade(c, i, k); }
    if Made(c, x) && x < Id(c, k) { var i := MadeBefore(c, k, x); }
  }

  // ---- when a group ends in FIN ------------------------------------------------------------

  /** Nothing but objects made and sent, none of them on a stream the peer stops. */
  ghost predicate Calm(run: seq<Event>) { forall ev :: ev in run ==> ev.Next? && !ev.stops }

  ghost predicate Takes(c: Config, group: nat, k: nat) { Admits(c.window, group, Id(c, k)) }

  /** In the run, the k-th object of the group is the first that the window takes. */
  ghost predicate Opens(c: Config, s: Sender, run: seq<Event>, k: nat)
    requires s.group.Some?
  {
    && s.k <= k < s.k + |run| && Takes(c, s.group.value, k)
    && forall j: nat :: s.k <= j < k ==> !Takes(c, s.group.value, j)
  }

  /** The stream after a calm run: the one that was open, or the one that the first
      object taken opened, short if the history lacked something then. */
  ghost predicate CalmOpen(c: Config, s: Sender, run: seq<Event>, open: Option<Stream>)
    requires s.group.Some?
  {
    if s.open.Some? then open.Some? && open.value.short == s.open.value.short
    else
      && (open.Some? ==> exists k: nat :: Opens(c, s, run, k))
      && forall k: nat :: Opens(c, s, run, k) && run[k - s.k].Next? ==>
           open.Some? && (open.value.short <==> Lacks(c, s.group.value, Id(c, k), run[k - s.k].held))
  }

  lemma {:induction false} CalmRun(c: Config, s: Sender, run: seq<Event>, s': Sender)
    requires Valid(c) && s.group.Some? && s.forward && !s.stopped && Calm(run) && Reaches(c, s, run, s')
    ensures s' == s.(k := s'.k, open := s'.open) && s'.k == s.k + |run|
    ensures CalmOpen(c, s, run, s'.open)
    decreases run
  {
    hide Admits, Id, Head, Lacks, Faithful;
    if run != [] {
      var ev, next := run[0], Step(c, s, run[0]);
      assert ev in run && forall x :: x in run[1..] ==> x in run;
      CalmRun(c, next, run[1..], s');
      if Takes(c, s.group.value, s.k) {
        ShortIffLacking(c, s.group.value, s.k, ev.held);
        assert s.open.None? ==> Opens(c, s, run, s.k);
      } else {
        OpensLater(c, s, next, run);
        hide Opens, Takes;
      }
    }
  }

  lemma OpensLater(c: Config, s: Sender, next: Sender, run: seq<Event>)
    requires run != [] && s.group.Some? && next.group == s.group && next.k == s.k + 1
    requires !Takes(c, s.group.value, s.k)
    ensures forall k: nat :: Opens(c, s, run, k) <==> Opens(c, next, run[1..], k)
    ensures forall k: nat :: Opens(c, s, run, k) ==> s.k < k && run[1..][k - next.k] == run[k - s.k]
  {
    hide Takes;
  }

  /** What ends with the group, when nothing disturbs it from `s` on: the open stream,
      or the one the first object taken opens, and by FIN just when it is not short
      already and the history lacked nothing when it opened. */
  lemma CalmGroupEnds(c: Config, s: Sender, run: seq<Event>, s': Sender)
    requires Valid(c) && s.group.Some? && s.forward && !s.stopped && Calm(run) && Reaches(c, s, run, s')
    ensures var group, ended := s.group.value, NewGroup(c, s').ended;
            && |s.ended| <= |ended| <= |s.ended| + 1 && ended[..|s.ended|] == s.ended
            && (|ended| > |s.ended| ==> ended[|s.ended|].group == group)
            && (s.open.Some? ==> |ended| > |s.ended| && (ended[|s.ended|].fin <==> !s.open.value.short))
            && (s.open.None? ==>
                  && (|ended| > |s.ended| ==> exists k: nat :: Opens(c, s, run, k))
                  && forall k: nat :: Opens(c, s, run, k) && run[k - s.k].Next? ==>
                       && |ended| > |s.ended|
                       && (ended[|s.ended|].fin <==> !Lacks(c, group, Id(c, k), run[k - s.k].held)))
  {
    hide Opens, Lacks, Id;
    CalmRun(c, s, run, s');
  }

  lemma {:induction false} FirstTaken(c: Config, group: nat, k: nat) returns (m: nat)
    requires Takes(c, group, k)
    ensures m <= k && Takes(c, group, m) && forall j: nat :: j < m ==> !Takes(c, group, j)
  {
    hide Takes;
    if j: nat :| j < k && Takes(c, group, j) { m := FirstTaken(c, group, j); } else { m := k; }
  }

  lemma NothingLacking(c: Config, group: nat, m: nat, held: Records)
    requires Valid(c) && forall j: nat :: j < m ==> !Takes(c, group, j)
    ensures !Lacks(c, group, Id(c, m), held)
  {
    hide Admits, Made, Id;
    forall id: nat | id < Id(c, m) && Made(c, id)
      ensures !Admits(c.window, group, id)
    {
      var j := MadeBefore(c, m, id);
      assert !Takes(c, group, j);
    }
  }

  /** A group that nothing disturbs, from its beginning to its end, ends in FIN, with
      all that the window takes of it, if that is anything; nothing else ends. */
  lemma CalmGroupIsFinned(c: Config, forward: bool, before: seq<Event>, s: Sender, run: seq<Event>, s': Sender)
    requires Valid(c) && Reaches(c, Start(forward), before, s) && Enabled(c, s, Begin) && s.forward
    requires Calm(run) && Reaches(c, NewGroup(c, s), run, s') && Enabled(c, s', Begin)
    ensures var begun, ended := NewGroup(c, s), NewGroup(c, s').ended;
            var group, n := begun.group.value, |begun.ended|;
            if exists id: nat :: Made(c, id) && Admits(c.window, group, id)
            then && |ended| == n + 1 && ended[..n] == begun.ended && ended[n].group == group && ended[n].fin
                 && Lists(c, group, ended[n].objs, (id: nat) => Made(c, id))
            else ended == begun.ended
  {
    hide Admits, Made, Id, Lacks, SenderOk, Lists, IsCount;
    var begun := NewGroup(c, s);
    var group := begun.group.value;
    StartOk(c, forward);
    RunKeeps(c, Start(forward), before, s);
    BeginKeeps(c, s);
    BegunIs(c, s);
    RunKeeps(c, begun, run, s');
    CalmRun(c, begun, run, s');
    CalmGroupEnds(c, begun, run, s');
    CountOf(c, s');
    TakenIff(c, group, s'.k);
    if k: nat :| k < s'.k && Takes(c, group, k) {
      var m := FirstTaken(c, group, k);
      assert run[m] in run && Opens(c, begun, run, m);
      NothingLacking(c, group, m, run[m].held);
      EndIsWhole(c, s');
    } else {
      assert forall k: nat :: !Opens(c, begun, run, k);
    }
  }

  lemma BegunIs(c: Config, s: Sender)
    requires SenderOk(c, s)
    ensures var r := NewGroup(c, s); r.open.None? && r.k == 0 && !r.stopped && r.forward == s.forward
  {
    hide Id, EndedOk, Due;
  }

  lemma CountOf(c: Config, s: Sender)
    requires SenderOk(c, s) && Enabled(c, s, Begin) && s.group.Some?
    ensures IsCount(c, s.k)
  {
    hide Id, EndedOk, OpenOk;
  }

  lemma TakenIff(c: Config, group: nat, k: nat)
    requires Valid(c) && IsCount(c, k)
    ensures (exists j: nat :: j < k && Takes(c, group, j))
            <==> exists id: nat :: Made(c, id) && Admits(c.window, group, id)
  {
    hide Admits, Made, Id, IsCount;
    if j: nat :| j < k && Takes(c, group, j) {
      FirstAreMade(c, k, j);
      assert Admits(c.window, group, Id(c, j));
    }
    if id: nat :| Made(c, id) && Admits(c.window, group, id) {
      MadeAreFirst(c, k, id);
      var j: nat :| j < k && id == Id(c, j);
      assert Takes(c, group, j);
    }
  }

  lemma EndIsWhole(c: Config, s: Sender)
    requires Valid(c) && SenderOk(c, s) && Enabled(c, s, Begin) && s.open.Some? && !s.open.value.short
    ensures s.group.Some? && Lists(c, s.group.value, s.open.value.objs, (id: nat) => Made(c, id))
  {
    hide Due, Admits, IsCount, Made, Id, AmongFirst, Has, InOrder, EndedOk;
    CountOf(c, s);
    DueIs(c, s.group.value, s.k);
    forall id: nat
      ensures Made(c, id) <==> AmongFirst(c, s.k, id)
    {
      MadeIs(c, s.k, id);
    }
  }

  // ---- what the events come to -------------------------------------------------------------

  /** generate() never stalls and never has a choice: it begins a group, or it makes
      the next object. */
  lemma BeginOrNext(c: Config, s: Sender, held: Records, stops: bool)
    requires s.group.Some? ==> Faithful(c, s.group.value, held)
    ensures Enabled(c, s, Begin) <==> !Enabled(c, s, Next(held, stops))
  {
  }

  function Begins(run: seq<Event>): nat
  {
    if run == [] then 0 else (if run[0].Begin? then 1 else 0) + Begins(run[1..])
  }

  /** Groups are numbered on end, from the first. */
  lemma {:induction false} GroupsOnEnd(c: Config, s: Sender, run: seq<Event>, s': Sender)
    requires Reaches(c, s, run, s')
    ensures var n := Begins(run);
            s'.group == if n == 0 then s.group else Some((if s.group.None? then c.first else s.group.value + 1) + n - 1)
    decreases run
  {
    hide Head, Admits, Id, Faithful;
    if run != [] { GroupsOnEnd(c, Step(c, s, run[0]), run[1..], s'); }
  }

  /** A group whose stream the peer stopped is not reopened: that stream was reset, and
      no other is opened or ended before the next group. */
  lemma StopIsFinal(c: Config, s: Sender, held: Records, run: seq<Event>, s': Sender)
    requires Valid(c) && s.group.Some? && s.forward && !s.stopped && Admits(c.window, s.group.value, Id(c, s.k))
    requires Reaches(c, Send(c, s, held, true), run, s') && Begins(run) == 0
    ensures s'.open.None? && s'.ended == Send(c, s, held, true).ended
    ensures |s'.ended| == |s.ended| + 1 && s'.ended[..|s.ended|] == s.ended && !s'.ended[|s.ended|].fin
  {
    hide Head, Admits, Id;
    StoppedStays(c, Send(c, s, held, true), run, s');
  }

  lemma {:induction false} StoppedStays(c: Config, s: Sender, run: seq<Event>, s': Sender)
    requires s.stopped && s.open.None? && Reaches(c, s, run, s') && Begins(run) == 0
    ensures s'.open.None? && s'.ended == s.ended
    decreases run
  {
    hide Head, Admits, Id, Faithful;
    if run != [] { StoppedStays(c, Step(c, s, run[0]), run[1..], s'); }
  }

  /** The last object on the open stream is one the window takes. */
  ghost predicate LastTaken(c: Config, s: Sender)
  {
    s.open.Some? ==>
      && s.group.Some? && s.open.value.objs != []
      && Admits(c.window, s.group.value, s.open.value.objs[|s.open.value.objs| - 1].id)
  }

  lemma {:induction false} LastTakenRun(c: Config, s: Sender, run: seq<Event>, s': Sender)
    requires LastTaken(c, s) && Reaches(c, s, run, s')
    ensures LastTaken(c, s')
    decreases run
  {
    hide Head, Admits, Id, Faithful;
    if run != [] { LastTakenRun(c, Step(c, s, run[0]), run[1..], s'); }
  }

  /** Set to forward, the peer keeps an open stream just when the window takes something
      past what is on it; set not to, it never does. */
  lemma ForwardKeepsIff(c: Config, forward: bool, run: seq<Event>, s: Sender, to: bool)
    requires Reaches(c, Start(forward), run, s) && s.open.Some?
    ensures s.group.Some? && s.open.value.objs != []
    ensures var last, r := s.open.value.objs[|s.open.value.objs| - 1].id, SetForward(c, s, to);
            && (r.open == s.open <==> to && exists id: nat :: id > last && Admits(c.window, s.group.value, id))
            && (r.open != s.open ==> r.open.None? && |r.ended| == |s.ended| + 1 && !r.ended[|s.ended|].fin)
  {
    hide Id, Head;
    LastTakenRun(c, Start(forward), run, s);
    var last := s.open.value.objs[|s.open.value.objs| - 1].id;
    assert Admits(c.window, s.group.value, last + 1)
           <==> exists id: nat :: id > last && Admits(c.window, s.group.value, id);
  }
}
