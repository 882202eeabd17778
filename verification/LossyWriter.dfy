/** An agent's writer: objects numbered into groups, queued to a bound, and what
    production takes of them when the bound makes some go. */
module LossyWriter {
  import opened Basics

  datatype Item = Item(group: nat, id: nat, data: seq<int>, start: bool)

  datatype Policy = Block | DropNew | DropOldest | Refuse   // on_full

  /** `max` 0 is no bound; `groupSize` None never ends a group by itself. */
  datatype Spec = Spec(policy: Policy, max: nat, groupSize: Option<nat>)

  /** -1 before the first group. */
  type GroupNo = x: int | x >= -1 witness -1

  /** `waiting` is the item a blocked put holds; `taken` is what production took,
      and `puts` how many puts completed. */
  datatype Writer = Writer(group: GroupNo, id: nat, inGroup: nat, forceNew: bool, closed: bool,
                           queue: seq<Item>, waiting: Option<Item>, dropped: nat,
                           taken: seq<Item>, puts: nat)

  const START := Writer(-1, 0, 0, false, false, [], None, 0, [], 0)

  predicate Full(c: Spec, queue: seq<Item>) { c.max > 0 && |queue| >= c.max }

  function Without(queue: seq<Item>, group: nat): seq<Item>
  {
    if queue == [] then []
    else
      var last := queue[|queue| - 1];
      Without(queue[..|queue| - 1], group) + if last.group == group then [] else [last]
  }

  /** A group lost its first object: the rest of it goes too, queued or to come. */
  function Abandon(w: Writer, group: nat): (r: Writer)
  {
    var kept := Without(w.queue, group);
    WithoutShorter(w.queue, group);
    w.(queue := kept, dropped := w.dropped + |w.queue| - |kept|, forceNew := w.forceNew || w.group == group)
  }

  lemma {:induction false} WithoutShorter(queue: seq<Item>, group: nat)
    ensures |Without(queue, group)| <= |queue|
    ensures forall x :: x in Without(queue, group) ==> x in queue && x.group != group
  {
    if queue != [] { WithoutShorter(queue[..|queue| - 1], group); }
  }

  function Advance(w: Writer): Writer { w.(group := w.group + 1, id := 0, inGroup := 0, forceNew := false) }

  /** The item is queued, and counted. */
  function Queued(w: Writer, item: Item): Writer
  {
    w.(queue := w.queue + [item], id := w.id + 1, inGroup := w.inGroup + 1, puts := w.puts + 1)
  }

  /** How a put goes: done, waiting for room, or refused. */
  datatype Put = Done | Waits | Refused

  /** Number and queue one object, by the policy when the queue is full. */
  function PutItem(c: Spec, w: Writer, data: seq<int>, start: bool): (Writer, Put)
    requires w.group >= 0
  {
    var item := Item(w.group, w.id, data, start);
    if !Full(c, w.queue) then (Queued(w, item), Done)
    else
      match c.policy
      case Block => (w.(waiting := Some(item)), Waits)
      case Refuse => (w, Refused)
      case DropNew =>
        var d := w.(dropped := w.dropped + 1, puts := w.puts + 1);
        (if start then Abandon(d, item.group) else d, Done)
      case DropOldest =>
        var oldest := w.queue[0];
        var d := w.(queue := w.queue[1..], dropped := w.dropped + 1);
        if !oldest.start then (Queued(d, item), Done)
        else
          var a := Abandon(d, oldest.group);
          if item.group == oldest.group then (a.(dropped := a.dropped + 1, puts := a.puts + 1), Done)
          else (Queued(a, item), Done)
  }

  /** write() starts a group when none is open, or the open one is full. */
  predicate Starts(c: Spec, w: Writer)
  {
    w.group < 0 || w.forceNew || (c.groupSize.Some? && w.inGroup >= c.groupSize.value)
  }

  datatype Event = Snapshot(data: seq<int>) | Write(data: seq<int>) | EndGroup | Take | Room | Cancel | Close

  predicate Enabled(c: Spec, w: Writer, ev: Event)
  {
    match ev
    case Snapshot(_) => w.waiting.None? && !w.closed
    case Write(_) => w.waiting.None? && !w.closed
    case EndGroup => true
    case Take => w.queue != []
    case Room => w.waiting.Some? && !Full(c, w.queue)
    case Cancel => w.waiting.Some?
    case Close => !w.closed
  }

  /** The write begins a group. */
  predicate Begins(c: Spec, w: Writer, ev: Event) { ev.Snapshot? || (ev.Write? && Starts(c, w)) }

  function Step(c: Spec, w: Writer, ev: Event): (Writer, Put)
    requires Enabled(c, w, ev)
  {
    match ev
    case Snapshot(data) => PutItem(c, Advance(w), data, true)
    case Write(data) =>
      if Starts(c, w) then PutItem(c, Advance(w), data, true)
      else PutItem(c, w, data, false)
    case EndGroup => (w.(forceNew := true), Done)
    case Take => (w.(taken := w.taken + [w.queue[0]], queue := w.queue[1..]), Done)
    case Room => (Queued(w.(waiting := None), w.waiting.value), Done)
    case Cancel => (w.(waiting := None), Done)
    case Close => (w.(closed := true, waiting := None), Done)
  }

  // ---- group integrity -------------------------------------------------------

  predicate Before(a: Item, b: Item) { a.group < b.group || (a.group == b.group && a.id < b.id) }

  /** The item carries group_start just when it is its group's first. */
  predicate Marked(s: seq<Item>, i: nat)
    requires i < |s|
  {
    s[i].start <==> i == 0 || s[i - 1].group != s[i].group
  }

  /** Strictly ascending, and group_start marks just the first of each group. */
  ghost predicate Whole(s: seq<Item>)
  {
    && (forall i, j :: 0 <= i < j < |s| ==> Before(s[i], s[j]))
    && (forall i :: 0 <= i < |s| ==> Marked(s, i))
  }

  function Waiting(w: Writer): seq<Item> { if w.waiting.None? then [] else [w.waiting.value] }

  function All(w: Writer): seq<Item> { w.taken + w.queue + Waiting(w) }

  /** What is numbered so far is behind the next number. */
  ghost predicate Numbered(w: Writer, s: seq<Item>)
  {
    forall x :: x in s ==> x.group < w.group || (x.group == w.group && x.id < w.id)
  }

  /** The open group has its first object out, and what is out is behind the next. */
  ghost predicate GroupOpen(w: Writer)
  {
    var s := w.taken + w.queue;
    !w.forceNew && w.group >= 0 ==> s != [] && s[|s| - 1].group == w.group
  }

  ghost predicate WriterOk(w: Writer)
  {
    && Whole(All(w)) && Numbered(w, w.taken + w.queue)
    && (w.waiting.Some? ==> w.waiting.value.group == w.group && w.waiting.value.id == w.id)
    && (w.waiting.None? && !w.closed ==> GroupOpen(w))
    && w.puts == |w.taken| + |w.queue| + w.dropped
  }

  /** The item follows on what is out: it is past it, and starts a group or not. */
  lemma WholeMore(s: seq<Item>, x: Item)
    requires Whole(s) && forall y :: y in s ==> Before(y, x)
    requires x.start <==> s == [] || s[|s| - 1].group != x.group
    ensures Whole(s + [x])
  {
    var t := s + [x];
    forall i | 0 <= i < |t|
      ensures Marked(t, i)
    {
      if i < |s| { assert Marked(s, i); }
    }
  }

  lemma WholePrefix(a: seq<Item>, b: seq<Item>)
    requires Whole(a + b)
    ensures Whole(a)
  {
    assert forall i :: 0 <= i < |a| ==> (a + b)[i] == a[i];
    forall i | 0 <= i < |a|
      ensures Marked(a, i)
    {
      assert Marked(a + b, i);
    }
  }

  /** With none of the group taken, its queued items go without a trace. */
  lemma {:induction false} WithoutWhole(a: seq<Item>, q: seq<Item>, group: nat)
    requires Whole(a + q) && forall x :: x in a ==> x.group != group
    ensures Whole(a + Without(q, group))
    ensures var kept := Without(q, group);
            kept != [] ==> q != [] && (q[|q| - 1].group != group ==> kept[|kept| - 1] == q[|q| - 1])
  {
    if q != [] {
      var init, x := q[..|q| - 1], q[|q| - 1];
      var s, kept := a + init, a + Without(init, group);
      assert a + q == s + [x];
      WholePrefix(s, [x]);
      WithoutWhole(a, init, group);
      if x.group == group {
        assert Without(init, group) + [] == Without(init, group);
      } else {
        assert a + (Without(init, group) + [x]) == kept + [x];
        FollowsKept(s, kept, x, a, init, group);
        WholeMore(kept, x);
      }
    }
  }

  lemma FollowsKept(s: seq<Item>, kept: seq<Item>, x: Item, a: seq<Item>, init: seq<Item>, group: nat)
    requires Whole(s + [x]) && s == a + init && kept == a + Without(init, group) && x.group != group
    requires forall y :: y in a ==> y.group != group
    ensures forall y :: y in kept ==> Before(y, x)
    ensures x.start <==> kept == [] || kept[|kept| - 1].group != x.group
  {
    WithoutShorter(init, group);
    var all := s + [x];
    assert all[|s|] == x && Marked(all, |s|);
    forall y | y in kept
      ensures Before(y, x) && y in s
    {
      assert y in a || y in init;
      assert y in s;
      var i :| 0 <= i < |s| && s[i] == y;
      assert all[i] == y;
    }
    if s != [] {
      var p := s[|s| - 1];
      assert all[|s| - 1] == p;
      if p.group == x.group {
        if init == [] { assert kept == s; } else { assert p == init[|init| - 1]; LastKept(init, group); }
      } else {
        forall y | y in kept
          ensures y.group != x.group
        {
          var i :| 0 <= i < |s| && s[i] == y;
          assert i < |s| - 1 ==> Before(all[i], all[|s| - 1]);
          assert Before(all[|s| - 1], all[|s|]);
        }
      }
    }
  }

  lemma LastKept(q: seq<Item>, group: nat)
    requires q != [] && q[|q| - 1].group != group
    ensures Without(q, group) != [] && Without(q, group)[|Without(q, group)| - 1] == q[|q| - 1]
  {
  }

  // ---- what a write keeps -----------------------------------------------------

  ghost predicate Counted(w: Writer) { w.puts == |w.taken| + |w.queue| + w.dropped }

  /** An object numbered next, as a group's first or not, follows on what is out. */
  ghost predicate Ready(w: Writer, start: bool)
  {
    var s := w.taken + w.queue;
    && w.group >= 0 && w.waiting.None? && !w.closed && Whole(s) && Numbered(w, s)
    && (start <==> s == [] || s[|s| - 1].group != w.group) && Counted(w)
  }

  lemma ReadyQueued(w: Writer, data: seq<int>, start: bool)
    requires Ready(w, start)
    ensures WriterOk(Queued(w, Item(w.group, w.id, data, start)))
  {
    var s, item := w.taken + w.queue, Item(w.group, w.id, data, start);
    WholeMore(s, item);
    assert w.taken + (w.queue + [item]) + [] == s + [item];
    assert w.taken + (w.queue + [item]) == s + [item];
  }

  lemma ReadyWaits(w: Writer, data: seq<int>, start: bool)
    requires Ready(w, start)
    ensures WriterOk(w.(waiting := Some(Item(w.group, w.id, data, start))))
  {
    WholeMore(w.taken + w.queue, Item(w.group, w.id, data, start));
  }

  /** No group before the open one starts it again. */
  lemma GroupOver(s: seq<Item>, group: int)
    requires Whole(s) && s != [] && s[|s| - 1].group != group
    requires forall x :: x in s ==> x.group <= group
    ensures forall x :: x in s ==> x.group != group
  {
    forall x | x in s
      ensures x.group != group
    {
      var i :| 0 <= i < |s| && s[i] == x;
      if i < |s| - 1 { assert Before(s[i], s[|s| - 1]); }
      assert s[|s| - 1] in s;
    }
  }

  /** Without the queued part of a group that nothing was taken of. */
  lemma AbandonKeeps(w: Writer, group: nat)
    requires Whole(w.taken + w.queue) && Numbered(w, w.taken + w.queue) && forall x :: x in w.taken ==> x.group != group
    ensures var r := Abandon(w, group);
            && Whole(r.taken + r.queue) && Numbered(r, r.taken + r.queue)
            && (forall x :: x in r.taken + r.queue ==> x in w.taken + w.queue)
            && r.dropped + |r.queue| == w.dropped + |w.queue|
            && (w.queue != [] && w.queue[|w.queue| - 1].group != group ==>
                  r.queue != [] && r.queue[|r.queue| - 1] == w.queue[|w.queue| - 1])
  {
    WithoutWhole(w.taken, w.queue, group);
    WithoutShorter(w.queue, group);
    if w.queue != [] && w.queue[|w.queue| - 1].group != group { LastKept(w.queue, group); }
  }

  lemma RestEmpty(w: Writer)
    ensures w.waiting.None? ==> All(w) == w.taken + w.queue
  {
  }

  /** The new object goes. */
  lemma DropNewKeeps(w: Writer, start: bool)
    requires Ready(w, start)
    ensures var d := w.(dropped := w.dropped + 1, puts := w.puts + 1);
            WriterOk(if start then Abandon(d, w.group) else d)
  {
    hide Whole, Without;
    var s, d := w.taken + w.queue, w.(dropped := w.dropped + 1, puts := w.puts + 1);
    RestEmpty(d);
    if start {
      if s != [] { GroupOver(s, w.group); }
      assert forall x :: x in w.taken ==> x in s;
      AbandonKeeps(d, w.group);
      RestEmpty(Abandon(d, w.group));
    }
  }

  /** The first of a group in what is out: nothing of it comes before. */
  lemma StartIsFirst(s: seq<Item>, k: nat)
    requires Whole(s) && k < |s| && s[k].start
    ensures forall i :: 0 <= i < k ==> s[i].group != s[k].group
  {
    forall i | 0 <= i < k
      ensures s[i].group != s[k].group
    {
      assert Before(s[k - 1], s[k]) && Marked(s, k);
      if i < k - 1 { assert Before(s[i], s[k - 1]); }
    }
  }

  /** One that starts no group goes without a trace. */
  lemma CutMiddle(a: seq<Item>, x: Item, b: seq<Item>)
    requires Whole(a + [x] + b) && !x.start
    ensures Whole(a + b) && a != [] && a[|a| - 1].group == x.group
  {
    var s, t := a + [x] + b, a + b;
    assert s[|a|] == x && Marked(s, |a|);
    assert a != [];
    assert s[|a| - 1] == a[|a| - 1];
    forall i | 0 <= i < |t|
      ensures t[i] == s[if i < |a| then i else i + 1]
    {
    }
    forall i, j | 0 <= i < j < |t|
      ensures Before(t[i], t[j])
    {
      assert Before(s[if i < |a| then i else i + 1], s[if j < |a| then j else j + 1]);
    }
    forall i | 0 <= i < |t|
      ensures Marked(t, i)
    {
      if i < |a| { assert Marked(s, i); } else { assert Marked(s, i + 1); }
    }
  }

  /** The oldest goes, and is no group's first. */
  lemma DropOldestReady(w: Writer, start: bool)
    requires Ready(w, start) && w.queue != [] && !w.queue[0].start
    ensures var d := w.(queue := w.queue[1..], dropped := w.dropped + 1); Ready(d, start)
  {
    var oldest, rest := w.queue[0], w.queue[1..];
    var s, t := w.taken + w.queue, w.taken + rest;
    assert s == w.taken + [oldest] + rest;
    CutMiddle(w.taken, oldest, rest);
    hide Whole;
    assert forall x :: x in t ==> x in s;
    if rest != [] {
      assert t[|t| - 1] == s[|s| - 1];
    } else {
      assert s[|s| - 1] == oldest && t[|t| - 1] == w.taken[|w.taken| - 1];
    }
  }

  lemma WithoutHead(queue: seq<Item>)
    requires queue != []
    ensures Without(queue[1..], queue[0].group) == Without(queue, queue[0].group)
  {
    if |queue| == 1 {
      assert queue[1..] == [] && queue[..0] == [];
      assert Without(queue, queue[0].group) == Without([], queue[0].group) + [];
    } else {
      var init := queue[..|queue| - 1];
      WithoutHead(init);
      assert queue[1..][..|queue| - 2] == init[1..];
    }
  }

  /** With a group's first object queued, none of it is taken. */
  lemma TakenOthers(taken: seq<Item>, queue: seq<Item>)
    requires Whole(taken + queue) && queue != [] && queue[0].start
    ensures forall x :: x in taken ==> x.group != queue[0].group
  {
    hide Whole;
    var s := taken + queue;
    StartIsFirst(s, |taken|);
    forall x | x in taken
      ensures x.group != queue[0].group
    {
      var i :| 0 <= i < |taken| && taken[i] == x;
      assert s[i] == x && s[|taken|] == queue[0];
    }
  }

  /** The oldest goes with the rest of the group it starts. */
  lemma DropGroupKeeps(w: Writer, data: seq<int>, start: bool)
    requires Ready(w, start) && w.queue != [] && w.queue[0].start
    ensures var oldest := w.queue[0];
            var d := w.(queue := w.queue[1..], dropped := w.dropped + 1);
            var a := Abandon(d, oldest.group);
            if w.group == oldest.group then WriterOk(a.(dropped := a.dropped + 1, puts := a.puts + 1))
            else Ready(a, start)
  {
    hide Without, Whole;
    var s, oldest := w.taken + w.queue, w.queue[0];
    TakenOthers(w.taken, w.queue);
    WithoutHead(w.queue);
    AbandonKeeps(w, oldest.group);
    var a := Abandon(w.(queue := w.queue[1..], dropped := w.dropped + 1), oldest.group);
    var all := Abandon(w, oldest.group);
    assert a.queue == all.queue && a.taken == w.taken;
    RestEmpty(a);
    RestEmpty(a.(dropped := a.dropped + 1, puts := a.puts + 1));
    if w.group != oldest.group {
      var t := a.taken + a.queue;
      assert s[|s| - 1] == w.queue[|w.queue| - 1];
      if start {
        GroupOver(s, w.group);
      } else {
        assert t[|t| - 1] == s[|s| - 1];
      }
    }
  }

  /** Every put but a refused first of a group keeps the groups whole. */
  lemma PutKeeps(c: Spec, w: Writer, data: seq<int>, start: bool)
    requires Ready(w, start)
    ensures var (r, put) := PutItem(c, w, data, start);
            && (!put.Refused? ==> WriterOk(r)) && (put.Refused? ==> r == w)
  {
    hide Ready, WriterOk, Without;
    ReadyGroup(w, start);
    if !Full(c, w.queue) {
      ReadyQueued(w, data, start);
    } else {
      match c.policy
      case Block => ReadyWaits(w, data, start);
      case Refuse =>
      case DropNew => DropNewKeeps(w, start);
      case DropOldest =>
        if w.queue[0].start {
          DropGroupKeeps(w, data, start);
          var a := Abandon(w.(queue := w.queue[1..], dropped := w.dropped + 1), w.queue[0].group);
          if w.group != w.queue[0].group { ReadyQueued(a, data, start); }
        } else {
          DropOldestReady(w, start);
          ReadyQueued(w.(queue := w.queue[1..], dropped := w.dropped + 1), data, start);
        }
    }
  }

  lemma ReadyGroup(w: Writer, start: bool)
    requires Ready(w, start)
    ensures w.group >= 0
  {
  }

  lemma WriteReady(c: Spec, w: Writer)
    requires WriterOk(w) && w.waiting.None? && !w.closed
    ensures Ready(Advance(w), true)
    ensures !Starts(c, w) ==> Ready(w, false)
  {
    RestEmpty(w);
    hide Whole;
  }

  /** The step gives up no group's first object: none refused, and none cancelled
      while it waits, unless the group is over already. */
  predicate Spares(c: Spec, w: Writer, ev: Event)
    requires Enabled(c, w, ev)
  {
    && (Begins(c, w, ev) ==> !Step(c, w, ev).1.Refused?)
    && (ev.Cancel? ==> !w.waiting.value.start || w.forceNew)
  }

  lemma TakeKeeps(w: Writer)
    requires WriterOk(w) && w.queue != []
    ensures WriterOk(w.(taken := w.taken + [w.queue[0]], queue := w.queue[1..]))
  {
    hide Whole;
    assert w.taken + w.queue == (w.taken + [w.queue[0]]) + w.queue[1..];
  }

  lemma RoomKeeps(w: Writer)
    requires WriterOk(w) && w.waiting.Some?
    ensures WriterOk(Queued(w.(waiting := None), w.waiting.value))
  {
    hide Whole;
    var x := w.waiting.value;
    assert w.taken + (w.queue + [x]) == w.taken + w.queue + [x];
    assert w.taken + (w.queue + [x]) + [] == w.taken + w.queue + [x];
  }

  /** A put given up: the session closes, or what waited was no group's first, or
      its group is over. */
  lemma GivenUp(w: Writer, closed: bool)
    requires WriterOk(w) && (closed || (w.waiting.Some? && (!w.waiting.value.start || w.forceNew)))
    ensures WriterOk(w.(waiting := None, closed := w.closed || closed))
  {
    var s := w.taken + w.queue;
    WholePrefix(s, Waiting(w));
    RestEmpty(w.(waiting := None, closed := w.closed || closed));
    if w.waiting.Some? { assert Marked(All(w), |s|); }
    hide Whole;
  }

  lemma StepKeeps(c: Spec, w: Writer, ev: Event)
    requires WriterOk(w) && Enabled(c, w, ev) && Spares(c, w, ev)
    ensures WriterOk(Step(c, w, ev).0)
  {
    hide WriterOk, PutItem, Full;
    match ev
    case Snapshot(data) =>
      WriteReady(c, w);
      PutKeeps(c, Advance(w), data, true);
    case Write(data) =>
      WriteReady(c, w);
      if Starts(c, w) { PutKeeps(c, Advance(w), data, true); } else { PutKeeps(c, w, data, false); }
    case EndGroup => EndGroupKeeps(w);
    case Take => TakeKeeps(w);
    case Room => RoomKeeps(w);
    case Cancel => GivenUp(w, false);
    case Close => GivenUp(w, true);
  }

  lemma EndGroupKeeps(w: Writer)
    requires WriterOk(w)
    ensures WriterOk(w.(forceNew := true))
  {
    hide Whole;
  }

  predicate Reaches(c: Spec, w: Writer, run: seq<Event>, w': Writer)
    decreases run
  {
    if run == [] then w' == w
    else Enabled(c, w, run[0]) && Spares(c, w, run[0]) && Reaches(c, Step(c, w, run[0]).0, run[1..], w')
  }

  lemma {:induction false} RunKeeps(c: Spec, w: Writer, run: seq<Event>, w': Writer)
    requires WriterOk(w) && Reaches(c, w, run, w')
    ensures WriterOk(w')
    decreases run
  {
    hide WriterOk, Step, Enabled, Spares;
    if run != [] {
      StepKeeps(c, w, run[0]);
      RunKeeps(c, Step(c, w, run[0]).0, run[1..], w');
    }
  }

  /** Whatever is dropped, production takes strictly ascending numbers, the first
      taken of every group starts it and no other does, and every put that
      completed is taken, queued or counted as dropped. */
  lemma GroupsStayWhole(c: Spec, run: seq<Event>, w: Writer)
    requires Reaches(c, START, run, w)
    ensures Whole(w.taken) && Whole(w.taken + w.queue)
    ensures w.puts == |w.taken| + |w.queue| + w.dropped
  {
    RunKeeps(c, START, run, w);
    WholePrefix(w.taken + w.queue, Waiting(w));
    WholePrefix(w.taken, w.queue);
  }

  /** A refused write leaves a writer that goes on as before exactly when it did
      not begin a group. */
  lemma RefusalKeepsIff(c: Spec, w: Writer, ev: Event)
    requires WriterOk(w) && Enabled(c, w, ev) && (ev.Snapshot? || ev.Write?) && Step(c, w, ev).1.Refused?
    ensures WriterOk(Step(c, w, ev).0) <==> !Begins(c, w, ev)
    ensures !Begins(c, w, ev) ==> Step(c, w, ev).0 == w
  {
    hide Whole;
    var r := Step(c, w, ev).0;
    if Begins(c, w, ev) {
      assert r == Advance(w);
      var s := w.taken + w.queue;
      if s != [] { assert s[|s| - 1] in s; }
      assert !GroupOpen(r);
    }
  }

  /** And then groups do break: once there is room again, the next write goes out
      as no group's first, in a group of which nothing came. */
  lemma RefusedStartBreaks(c: Spec, w: Writer, ev: Event, data: seq<int>)
    requires WriterOk(w) && Enabled(c, w, ev) && Begins(c, w, ev) && Step(c, w, ev).1.Refused?
    requires |w.queue| == c.max && c.groupSize != Some(0)
    ensures var r := Step(c, Step(c, w, ev).0, Take).0;
            Enabled(c, r, Write(data)) && !Whole(All(Step(c, r, Write(data)).0))
  {
    var r := Step(c, Advance(w), Take).0;
    var out := r.taken + r.queue;
    assert out == w.taken + w.queue;
    var item := Item(r.group, r.id, data, false);
    assert Step(c, r, Write(data)).0 == Queued(r, item);
    var all := All(Queued(r, item));
    assert all == out + [item];
    assert out[|out| - 1] in w.taken + w.queue;
    assert !Marked(all, |out|);
  }

  /** A cancelled wait for room leaves a writer that goes on as before exactly when
      it held no group's first object, or end_group() was called meanwhile. */
  lemma CancelKeepsIff(c: Spec, w: Writer)
    requires WriterOk(w) && Enabled(c, w, Cancel) && !w.closed
    ensures WriterOk(Step(c, w, Cancel).0) <==> !w.waiting.value.start || w.forceNew
  {
    if !w.waiting.value.start || w.forceNew {
      GivenUp(w, false);
    } else {
      WaitingStarts(w);
      assert !GroupOpen(Step(c, w, Cancel).0);
    }
  }

  /** Nothing of the group a waiting first object starts is out. */
  lemma WaitingStarts(w: Writer)
    requires WriterOk(w) && w.waiting.Some? && w.waiting.value.start
    ensures var s := w.taken + w.queue; s != [] ==> s[|s| - 1].group != w.group
  {
    var s := w.taken + w.queue;
    assert Marked(All(w), |s|);
    hide Whole;
  }

  /** And then the next write breaks its group, as after a refusal. */
  lemma CancelledStartBreaks(c: Spec, w: Writer, data: seq<int>)
    requires WriterOk(w) && Enabled(c, w, Cancel) && !w.closed && w.waiting.value.start && !w.forceNew
    requires !Full(c, w.queue) && !Starts(c, w)
    ensures var r := Step(c, w, Cancel).0;
            Enabled(c, r, Write(data)) && !Whole(All(Step(c, r, Write(data)).0))
  {
    WaitingStarts(w);
    var out, item := w.taken + w.queue, Item(w.group, w.id, data, false);
    var r := w.(waiting := None);
    assert Step(c, r, Write(data)).0 == Queued(r, item);
    var all := All(Queued(r, item));
    assert all == out + [item];
    assert !Marked(all, |out|);
  }

  // ---- what each policy gives up --------------------------------------------------

  /** The items of other groups, in order. */
  ghost function Others(s: seq<Item>, group: nat): seq<Item>
  {
    if s == [] then [] else (if s[0].group == group then [] else [s[0]]) + Others(s[1..], group)
  }

  lemma {:induction false} OthersSnoc(s: seq<Item>, x: Item, group: nat)
    ensures Others(s + [x], group) == Others(s, group) + if x.group == group then [] else [x]
  {
    if s == [] {
      assert s + [x] == [x] && [x][1..] == [];
    } else {
      assert (s + [x])[0] == s[0] && (s + [x])[1..] == s[1..] + [x];
      OthersSnoc(s[1..], x, group);
      hide Others;
      var head := if s[0].group == group then [] else [s[0]];
      Regroup(head, Others(s[1..], group), if x.group == group then [] else [x]);
    }
  }

  lemma {:induction false} WithoutIsOthers(s: seq<Item>, group: nat)
    ensures Without(s, group) == Others(s, group)
  {
    if s != [] {
      var last := |s| - 1;
      WithoutIsOthers(s[..last], group);
      OthersSnoc(s[..last], s[last], group);
      assert s[..last] + [s[last]] == s;
    }
  }

  /** What is written: next in its group, or the first of the next group. */
  ghost function Numbering(c: Spec, w: Writer, ev: Event): Item
    requires ev.Snapshot? || ev.Write?
  {
    var starts := ev.Snapshot? || w.group < 0 || w.forceNew || (c.groupSize.Some? && w.inGroup >= c.groupSize.value);
    Item(if starts then w.group + 1 else w.group, if starts then 0 else w.id, ev.data, starts)
  }

  /** The group that loses its first object to this put, if one does: with DropNew
      the one it would begin, with DropOldest the one the oldest item begins. */
  ghost function Loses(c: Spec, w: Writer, item: Item): Option<nat>
  {
    if !Full(c, w.queue) then None
    else if c.policy.DropNew? && item.start then Some(item.group)
    else if c.policy.DropOldest? && w.queue[0].start then Some(w.queue[0].group)
    else None
  }

  /** The writer after a put: with room, the new item is behind the rest; full, as the
      policy has it: nothing changes (block, error), the new item goes (drop_new), or
      the oldest does (drop_oldest). A group that so loses its first object goes
      whole, and is over. */
  ghost predicate Gives(c: Spec, w: Writer, item: Item, r: Writer, put: Put)
  {
    var full, lost := Full(c, w.queue), Loses(c, w, item);
    var stays := if !full || !c.policy.DropOldest? then w.queue else w.queue[1..];
    var kept := if lost.Some? then Others(stays, lost.value) else stays;
    var goes := full && (!c.policy.DropOldest? || lost == Some(item.group));
    && r.queue == kept + (if goes then [] else [item])
    && r.waiting == (if put.Waits? then Some(item) else None)
    && (put == if full && c.policy.Block? then Waits else if full && c.policy.Refuse? then Refused else Done)
    && r.taken == w.taken && r.group == item.group && r.id == item.id + (if goes then 0 else 1)
    && r.inGroup == (if item.start then 0 else w.inGroup) + (if goes then 0 else 1)
    && (r.forceNew <==> (w.forceNew && !item.start) || lost == Some(item.group))
    && (put.Done? ==> r.puts == w.puts + 1 && r.dropped - w.dropped == |w.queue| + 1 - |r.queue|)
    && (!put.Done? ==> r.puts == w.puts && r.dropped == w.dropped)
  }

  lemma AbandonIs(w: Writer, group: nat)
    ensures var r := Abandon(w, group);
            && r.queue == Others(w.queue, group) && |r.queue| <= |w.queue|
            && r == w.(queue := r.queue, dropped := w.dropped + |w.queue| - |r.queue|,
                       forceNew := w.forceNew || w.group == group)
  {
    WithoutIsOthers(w.queue, group);
    WithoutShorter(w.queue, group);
  }

  lemma PutGives(c: Spec, w: Writer, data: seq<int>, start: bool)
    requires w.group >= 0 && w.waiting.None? && (start ==> !w.forceNew && w.inGroup == 0)
    ensures var (r, put) := PutItem(c, w, data, start); Gives(c, w, Item(w.group, w.id, data, start), r, put)
  {
    hide Abandon, Others;
    if Full(c, w.queue) && c.policy.DropNew? && start {
      AbandonIs(w.(dropped := w.dropped + 1, puts := w.puts + 1), w.group);
    }
    if Full(c, w.queue) && c.policy.DropOldest? && w.queue[0].start {
      AbandonIs(w.(queue := w.queue[1..], dropped := w.dropped + 1), w.queue[0].group);
    }
  }

  lemma PolicyGivesUp(c: Spec, w: Writer, ev: Event)
    requires Enabled(c, w, ev) && (ev.Snapshot? || ev.Write?)
    ensures var (r, put) := Step(c, w, ev); Gives(c, w, Numbering(c, w, ev), r, put)
  {
    hide PutItem, Others;
    if Numbering(c, w, ev).start { PutGives(c, Advance(w), ev.data, true); } else { PutGives(c, w, ev.data, false); }
  }

  ghost predicate Sized(c: Spec, w: Writer)
  {
    c.groupSize.Some? ==>
      && w.inGroup == w.id
      && (forall x :: x in w.queue || x in w.taken ==> x.id < Max(1, c.groupSize.value))
      && (w.waiting.Some? ==> w.waiting.value.id < Max(1, c.groupSize.value))
  }

  ghost predicate Runs(c: Spec, w: Writer, run: seq<Event>, w': Writer)
    decreases run
  {
    if run == [] then w' == w else Enabled(c, w, run[0]) && Runs(c, Step(c, w, run[0]).0, run[1..], w')
  }

  lemma SizedStep(c: Spec, w: Writer, ev: Event)
    requires Sized(c, w) && Enabled(c, w, ev)
    ensures Sized(c, Step(c, w, ev).0)
  {
    if ev.Snapshot? || ev.Write? {
      hide PutItem, Others, Step;
      PolicyGivesUp(c, w, ev);
      var lost := Loses(c, w, Numbering(c, w, ev));
      if lost.Some? {
        OthersIn(w.queue, lost.value);
        if w.queue != [] { OthersIn(w.queue[1..], lost.value); }
      }
    } else if ev.Take? {
      assert w.queue[0] in w.queue;
    }
  }

  lemma {:induction false} OthersIn(s: seq<Item>, group: nat)
    ensures forall x :: x in Others(s, group) ==> x in s
  {
    if s != [] { OthersIn(s[1..], group); }
  }

  lemma {:induction false} SizedRun(c: Spec, w: Writer, run: seq<Event>, w': Writer)
    requires Sized(c, w) && Runs(c, w, run, w')
    ensures Sized(c, w')
    decreases run
  {
    hide Sized, Step, Enabled;
    if run != [] {
      SizedStep(c, w, run[0]);
      SizedRun(c, Step(c, w, run[0]).0, run[1..], w');
    }
  }

  lemma {:induction false} BoundedRun(c: Spec, w: Writer, run: seq<Event>, w': Writer)
    requires 0 < c.max && |w.queue| <= c.max && Runs(c, w, run, w')
    ensures |w'.queue| <= c.max
    decreases run
  {
    hide Step, Enabled;
    if run != [] {
      BoundedStep(c, w, run[0]);
      BoundedRun(c, Step(c, w, run[0]).0, run[1..], w');
    }
  }

  lemma BoundedStep(c: Spec, w: Writer, ev: Event)
    requires 0 < c.max && |w.queue| <= c.max && Enabled(c, w, ev)
    ensures |Step(c, w, ev).0.queue| <= c.max
  {
    hide Without;
    forall group
      ensures |Without(w.queue, group)| <= |w.queue|
      ensures w.queue != [] ==> |Without(w.queue[1..], group)| < |w.queue|
    {
      WithoutShorter(w.queue, group);
      if w.queue != [] { WithoutShorter(w.queue[1..], group); }
    }
  }

  /** The queue never holds more than its bound, whatever the policy. */
  lemma QueueWithinBound(c: Spec, run: seq<Event>, w: Writer)
    requires Runs(c, START, run, w) && c.max > 0
    ensures |w.queue| <= c.max
  {
    BoundedRun(c, START, run, w);
  }

  /** No group gets longer than the size asked for, whatever is dropped, refused or
      cancelled on the way. */
  lemma GroupsWithinSize(c: Spec, run: seq<Event>, w: Writer)
    requires Runs(c, START, run, w) && c.groupSize.Some?
    ensures forall x :: x in w.taken || x in w.queue ==> x.id < Max(1, c.groupSize.value)
  {
    hide Runs;
    SizedRun(c, START, run, w);
  }

  // ---- the writer as an object -----------------------------------------------------

  class QueueWriter {
    const c: Spec
    var group: GroupNo
    var id: nat
    var inGroup: nat
    var forceNew: bool
    var closed: bool
    var queue: seq<Item>
    var waiting: Option<Item>
    var dropped: nat
    ghost var taken: seq<Item>
    ghost var puts: nat

    ghost function View(): Writer
      reads this
    {
      Writer(group, id, inGroup, forceNew, closed, queue, waiting, dropped, taken, puts)
    }

    constructor (c: Spec)
      ensures View() == START && this.c == c
    {
      this.c, group, id, inGroup, forceNew, closed := c, -1, 0, 0, false, false;
      queue, waiting, dropped, taken, puts := [], None, 0, [], 0;
    }

    method AdvanceGroup()
      modifies this
      ensures View() == Advance(old(View()))
    {
      group, id, inGroup, forceNew := group + 1, 0, 0, false;
    }

    /** The queue drained and filled again with all but a group's items. */
    static method Refill(all: seq<Item>, gone: nat) returns (kept: seq<Item>, lost: nat)
      ensures kept == Without(all, gone) && lost == |all| - |kept|
    {
      kept, lost := [], 0;
      for i := 0 to |all|
        invariant kept == Without(all[..i], gone) && lost == i - |kept|
      {
        assert all[..i + 1][..i] == all[..i];
        if all[i].group == gone { lost := lost + 1; } else { kept := kept + [all[i]]; }
      }
      assert all[..|all|] == all;
    }

    /** Drop the queued part of a group, and what is still to come of it. */
    method AbandonGroup(gone: nat)
      modifies this
      ensures View() == Abandon(old(View()), gone)
    {
      hide Without;
      var kept, lost := Refill(queue, gone);
      queue, dropped := kept, dropped + lost;
      if group == gone { forceNew := true; }
    }

    method Enqueue(item: Item)
      modifies this
      ensures View() == Queued(old(View()), item)
    {
      queue := queue + [item];
      id, inGroup, puts := id + 1, inGroup + 1, puts + 1;
    }

    method PutNext(data: seq<int>, start: bool) returns (put: Put)
      requires group >= 0
      modifies this
      ensures (View(), put) == PutItem(c, old(View()), data, start)
    {
      hide Abandon;
      var item := Item(group, id, data, start);
      if !Full(c, queue) {
        Enqueue(item);
        return Done;
      }
      match c.policy
      case Block =>
        waiting := Some(item);
        return Waits;
      case Refuse => return Refused;
      case DropNew =>
        dropped, puts := dropped + 1, puts + 1;
        if start { AbandonGroup(item.group); }
        return Done;
      case DropOldest =>
        var oldest := queue[0];
        queue, dropped := queue[1..], dropped + 1;
        if oldest.start {
          AbandonGroup(oldest.group);
          if item.group == oldest.group {
            dropped, puts := dropped + 1, puts + 1;
            return Done;
          }
        }
        Enqueue(item);
        return Done;
    }

    method BeginGroup(data: seq<int>) returns (put: Put)
      requires waiting.None? && !closed
      modifies this
      ensures (View(), put) == Step(c, old(View()), Snapshot(data))
    {
      hide PutItem;
      AdvanceGroup();
      put := PutNext(data, true);
    }

    method Append(data: seq<int>) returns (put: Put)
      requires waiting.None? && !closed
      modifies this
      ensures (View(), put) == Step(c, old(View()), Write(data))
    {
      hide PutItem;
      var full := c.groupSize.Some? && inGroup >= c.groupSize.value;
      var start := group < 0 || forceNew || full;
      if start { AdvanceGroup(); }
      put := PutNext(data, start);
    }

    /** produce() takes the next object. */
    method Get() returns (item: Item)
      requires queue != []
      modifies this
      ensures item == old(queue)[0] && View() == Step(c, old(View()), Take).0
    {
      item := queue[0];
      queue, taken := queue[1..], taken + [item];
    }
  }
}
