/** The lane's queue: trimming it, popping it, and what the counts say. */
module LaneQueue {
  import opened Basics
  import opened LaneSpec

  /** Groups ascend, and group_start marks each group's first object. */
  ghost predicate Ascending(s: seq<Object>)
  {
    && (forall i, j :: 0 <= i < j < |s| ==> s[i].group <= s[j].group)
    && (forall i :: 0 < i < |s| ==> (s[i].start <==> s[i - 1].group < s[i].group))
  }

  ghost predicate Counted(q: Queue)
  {
    var objs := Objs(q.items);
    q.bytes == LiveBytes(objs) && q.replay == ReplayBytes(objs) && q.objects == Charged(objs)
  }

  /** `cut` holds exactly when the one CUT item is at the queue's head. */
  ghost predicate CutAtHead(q: Queue)
  {
    && (q.cut <==> (q.items != [] && q.items[0].Cut?))
    && (forall i :: 0 < i < |q.items| ==> !q.items[i].Cut?)
  }

  /** The queued objects are the last ones offered: nothing kept is followed
      by something dropped. */
  ghost predicate IsSuffix(q: Queue, h: History)
  {
    0 <= Turn(q, h) && h.offered[Turn(q, h)..] == Objs(q.items)
  }

  ghost predicate JudgedPast(q: Queue, h: History) { forall i :: i in h.judged ==> i < Turn(q, h) }

  /** The writer was given a subsequence, in order, of what was offered. */
  ghost predicate HandedInOrder(q: Queue, h: History) { IsSub(h.handed + Objs(q.items), h.offered) }

  /** An end was asked for at one of `places`: just before the position `at`, or
      everything offered in between is gone without a turn. */
  ghost predicate AskedAt(judged: map<nat, bool>, places: set<nat>, at: int, turn: int)
  {
    exists p :: p in places && p <= at && (p < at ==> at == turn && forall i :: p <= i < at ==> i !in judged)
  }

  ghost predicate Asked(h: History, x: Item, at: int, turn: int)
  {
    && (x.EndGroup? || x.Close? ==> AskedAt(h.judged, h.ends, at, turn))
    && (x.EndTrack? ==> AskedAt(h.judged, h.trackEnds, at, turn))
  }

  /** Every queued item that ends a group stands where the source asked for it. */
  ghost predicate EndsAsked(items: seq<Item>, h: History, turn: int)
  {
    items == [] ||
    (EndsAsked(items[1..], h, turn) && Asked(h, items[0], |h.offered| - |Objs(items[1..])|, turn))
  }

  ghost predicate QueueOk(q: Queue, h: History)
  {
    Counted(q) && IsSuffix(q, h) && JudgedPast(q, h) && HandedInOrder(q, h) && Ascending(h.offered)
    && EndsAsked(q.items, h, Turn(q, h))
  }

  ghost predicate GroupsAscend(s: seq<Object>) { forall i, j :: 0 <= i < j < |s| ==> s[i].group <= s[j].group }

  ghost predicate NoneBelow(s: seq<Object>, floor: nat) { forall o :: o in s ==> o.group >= floor }

  // ---- lists -----------------------------------------------------------

  lemma ObjsCons(x: Item, rest: seq<Item>)
    ensures Objs([x] + rest) == One(x) + Objs(rest)
  {
    assert ([x] + rest)[1..] == rest;
  }

  lemma NoObjs()
    ensures Objs([]) == [] && LiveBytes([]) == 0 && ReplayBytes([]) == 0 && Charged([]) == 0
  {
  }

  lemma ObjsHead(items: seq<Item>)
    requires items != []
    ensures Objs(items) == One(items[0]) + Objs(items[1..])
  {
  }

  lemma {:induction false} ObjsSnoc(items: seq<Item>, x: Item)
    ensures Objs(items + [x]) == Objs(items) + One(x)
  {
    if items == [] {
      assert items + [x] == [x] + [];
      ObjsCons(x, []);
      assert One(x) + [] == [] + One(x);
    } else {
      var h, t := items[0], items[1..];
      ObjsSnoc(t, x);
      ObjsCons(h, t + [x]);
      assert items + [x] == [h] + (t + [x]);
      assert One(h) + (Objs(t) + One(x)) == (One(h) + Objs(t)) + One(x);
    }
  }

  lemma {:induction false} BytesConcat(a: seq<Object>, b: seq<Object>)
    ensures LiveBytes(a + b) == LiveBytes(a) + LiveBytes(b)
    ensures ReplayBytes(a + b) == ReplayBytes(a) + ReplayBytes(b)
    ensures Charged(a + b) == Charged(a) + Charged(b)
  {
    if a == [] {
      assert a + b == b;
    } else {
      assert (a + b)[1..] == a[1..] + b;
      BytesConcat(a[1..], b);
    }
  }

  ghost function From(s: seq<Object>, floor: nat): seq<Object>
  {
    if s == [] then [] else (if s[0].group >= floor then [s[0]] else []) + From(s[1..], floor)
  }

  lemma {:induction false} KeptObjs(items: seq<Item>, floor: nat, resets: bool)
    ensures Objs(Kept(items, floor, resets)) == From(Objs(items), floor)
  {
    if items != [] {
      var x, kept := items[0], Kept(items[1..], floor, resets);
      KeptObjs(items[1..], floor, resets);
      assert Kept(items, floor, resets) == (if Keeps(x, floor, resets) then [x] + kept else kept);
      ObjsCons(x, kept);
      if x.Obj? {
        assert Objs(items)[0] == x.o && Objs(items)[1..] == Objs(items[1..]);
      } else {
        assert Objs(items) == Objs(items[1..]);
        assert One(x) + Objs(kept) == Objs(kept);
      }
    }
  }

  lemma {:induction false} FromAll(s: seq<Object>, floor: nat)
    requires NoneBelow(s, floor)
    ensures From(s, floor) == s
  {
    if s != [] { FromAll(s[1..], floor); }
  }

  /** Of an ascending sequence, what is from `floor` on is its end. */
  lemma {:induction false} FromIsSuffix(s: seq<Object>, floor: nat) returns (k: nat)
    requires GroupsAscend(s)
    ensures k <= |s| && From(s, floor) == s[k..] && NoneBelow(s[k..], floor)
    ensures forall i :: 0 <= i < k ==> s[i].group < floor
  {
    if s == [] || s[0].group >= floor {
      k := 0;
      FromAll(s, floor);
    } else {
      var k' := FromIsSuffix(s[1..], floor);
      k := k' + 1;
      assert s[1..][k'..] == s[k..];
    }
  }

  lemma {:induction false} KeptCut(items: seq<Item>, floor: nat, resets: bool)
    ensures items != [] && items[0].Cut? ==>
              Kept(items, floor, resets) == [Cut] + Kept(items[1..], floor, resets)
    ensures (forall i :: 0 <= i < |items| ==> !items[i].Cut?) ==>
              forall i :: 0 <= i < |Kept(items, floor, resets)| ==> !Kept(items, floor, resets)[i].Cut?
  {
    if items != [] {
      KeptCut(items[1..], floor, resets);
    }
  }

  // ---- where ends were asked for ------------------------------------------

  /** The last `m` objects, or all there are, are those from `floor` on. */
  ghost predicate SplitsAt(s: seq<Object>, floor: nat, m: nat)
  {
    forall i :: 0 <= i < |s| ==> (s[i].group >= floor <==> i >= |s| - m)
  }

  lemma {:induction false} FromLast(s: seq<Object>, floor: nat, m: nat)
    requires SplitsAt(s, floor, m)
    ensures |From(s, floor)| == if |s| <= m then |s| else m
  {
    if s != [] { FromLast(s[1..], floor, m); }
  }

  lemma SplitsTail(a: seq<Object>, b: seq<Object>, floor: nat, m: nat)
    requires SplitsAt(a + b, floor, m)
    ensures SplitsAt(b, floor, m)
  {
    assert forall i :: 0 <= i < |b| ==> b[i] == (a + b)[i + |a|];
  }

  /** Trimming moves a place no further than to the next turn, and over objects
      that are gone without one. */
  lemma AskedTrimmed(h: History, x: Item, at: int, turn: int, turn': int)
    requires Asked(h, x, at, turn) && turn <= at && turn <= turn'
    requires forall i :: i in h.judged ==> i < turn
    ensures Asked(h, x, if at >= turn' then at else turn', turn')
  {
    var at' := if at >= turn' then at else turn';
    forall places | AskedAt(h.judged, places, at, turn)
      ensures AskedAt(h.judged, places, at', turn')
    {
      var p :| p in places && p <= at && (p < at ==> at == turn && forall i :: p <= i < at ==> i !in h.judged);
      assert p <= at' && (p < at' ==> at' == turn' && forall i :: p <= i < at' ==> i !in h.judged);
    }
  }

  lemma {:induction false} TrimAsked(items: seq<Item>, h: History, turn: int, m: nat, floor: nat, resets: bool)
    requires EndsAsked(items, h, turn) && turn <= |h.offered| - |Objs(items)| && turn <= |h.offered| - m
    requires (forall i :: i in h.judged ==> i < turn) && SplitsAt(Objs(items), floor, m)
    ensures EndsAsked(Kept(items, floor, resets), h, |h.offered| - m)
  {
    hide Asked, SplitsAt, Objs;
    if items != [] {
      var x, rest := items[0], items[1..];
      ObjsHead(items);
      var t, kept := Objs(rest), Kept(rest, floor, resets);
      SplitsTail(One(x), t, floor, m);
      TrimAsked(rest, h, turn, m, floor, resets);
      KeptObjs(rest, floor, resets);
      FromLast(t, floor, m);
      AskedTrimmed(h, x, |h.offered| - |t|, turn, |h.offered| - m);
      EndsCons(x, kept, h, |h.offered| - m);
      assert Kept(items, floor, resets) == if Keeps(x, floor, resets) then [x] + kept else kept;
    }
  }

  lemma EndsCons(x: Item, rest: seq<Item>, h: History, turn: int)
    requires EndsAsked(rest, h, turn) && Asked(h, x, |h.offered| - |Objs(rest)|, turn)
    ensures EndsAsked([x] + rest, h, turn)
  {
    assert ([x] + rest)[1..] == rest;
  }

  /** A turn taken, of an object before every queued end. */
  lemma {:induction false} TurnAsked(items: seq<Item>, h: History, h': History, turn: int)
    requires EndsAsked(items, h, turn) && |h.offered| - |Objs(items)| > turn
    requires h'.offered == h.offered && h'.ends == h.ends && h'.trackEnds == h.trackEnds
    ensures EndsAsked(items, h', turn + 1)
  {
    if items != [] {
      ObjsHead(items);
      hide Objs;
      TurnAsked(items[1..], h, h', turn);
    }
  }

  /** An object offered behind all that is queued. */
  lemma {:induction false} PushAsked(items: seq<Item>, h: History, h': History, o: Object, turn: int)
    requires EndsAsked(items, h, turn)
    requires h' == h.(offered := h.offered + [o], top := h'.top)
    ensures EndsAsked(items + [Obj(o)], h', turn)
  {
    if items == [] {
      assert items + [Obj(o)] == [Obj(o)] && [Obj(o)][1..] == [];
    } else {
      assert (items + [Obj(o)])[1..] == items[1..] + [Obj(o)];
      ObjsSnoc(items[1..], Obj(o));
      hide Objs;
      PushAsked(items[1..], h, h', o, turn);
    }
  }

  /** A control item behind all that is queued. */
  lemma {:induction false} PutAsked(items: seq<Item>, h: History, x: Item, turn: int)
    requires EndsAsked(items, h, turn) && !x.Obj?
    ensures EndsAsked(items + [x], Ending(h, x), turn)
  {
    if items == [] {
      assert items + [x] == [x] && [x][1..] == [] && Objs([]) == [];
      AskedNow(h, x, turn);
    } else {
      assert (items + [x])[1..] == items[1..] + [x];
      ObjsSnoc(items[1..], x);
      assert Objs(items[1..]) + One(x) == Objs(items[1..]);
      hide Objs;
      PutAsked(items[1..], h, x, turn);
      AskedMore(h, items[0], x, |h.offered| - |Objs(items[1..])|, turn);
    }
  }

  lemma AskedNow(h: History, x: Item, turn: int)
    ensures Asked(Ending(h, x), x, |h.offered|, turn)
  {
    assert x.EndGroup? || x.Close? ==> |h.offered| in Ending(h, x).ends;
    assert x.EndTrack? ==> |h.offered| in Ending(h, x).trackEnds;
  }

  lemma AskedMore(h: History, y: Item, x: Item, at: int, turn: int)
    requires Asked(h, y, at, turn)
    ensures Asked(Ending(h, x), y, at, turn)
  {
  }

  lemma {:induction false} TopAsked(items: seq<Item>, h: History, top: nat, turn: int)
    requires EndsAsked(items, h, turn)
    ensures EndsAsked(items, h.(top := top), turn)
  {
    if items != [] { TopAsked(items[1..], h, top, turn); }
  }

  /** With no object queued, one more goes by without a turn. */
  lemma {:induction false} PassedAsked(items: seq<Item>, h: History, h': History, o: Object)
    requires EndsAsked(items, h, |h.offered|) && Objs(items) == []
    requires forall i :: i in h.judged ==> i < |h.offered|
    requires h' == h.(offered := h.offered + [o], top := h'.top)
    ensures EndsAsked(items, h', |h.offered| + 1)
  {
    if items != [] {
      ObjsHead(items);
      PassedAsked(items[1..], h, h', o);
      AskedTrimmed(h, items[0], |h.offered|, |h.offered|, |h.offered| + 1);
    }
  }

  // ---- trimming ---------------------------------------------------------

  /** Trimming drops a prefix of the queued objects. */
  lemma TrimDrops(q: Queue, h: History, floor: nat, resets: bool) returns (gone: seq<Object>)
    requires IsSuffix(q, h) && Ascending(h.offered)
    ensures var kept := Objs(Kept(q.items, floor, resets));
            && Objs(q.items) == gone + kept
            && NoneBelow(kept, floor) && (forall o :: o in gone ==> o.group < floor)
            && (NoneBelow(Objs(q.items), floor) ==> gone == [])
  {
    hide Objs, Kept, From;
    var objs := Objs(q.items);
    assert GroupsAscend(objs) by {
      assert forall i :: 0 <= i < |objs| ==> objs[i] == h.offered[Turn(q, h) + i];
    }
    KeptObjs(q.items, floor, resets);
    var k := FromIsSuffix(objs, floor);
    gone := objs[..k];
    if gone != [] { assert objs[0] in objs; }
  }

  lemma TrimKeeps(q: Queue, h: History, floor: nat, resets: bool)
    requires QueueOk(q, h)
    ensures var q' := Trim(q, floor, resets);
            && QueueOk(q', h) && Turn(q, h) <= Turn(q', h) && q'.bytes <= q.bytes
            && NoneBelow(Objs(q'.items), floor)
            && (forall o :: o in Objs(q'.items) ==> o in Objs(q.items))
            && (NoneBelow(Objs(q.items), floor) ==> Objs(q'.items) == Objs(q.items))
  {
    hide Objs, Kept, Trim, Counted, IsSuffix, HandedInOrder, EndsAsked, Ascending, NoneBelow;
    var gone := TrimDrops(q, h, floor, resets);
    TrimCounts(q, h, floor, resets, gone);
    TrimEnds(q, h, floor, resets);
  }

  lemma TrimCounts(q: Queue, h: History, floor: nat, resets: bool, gone: seq<Object>)
    requires Counted(q) && IsSuffix(q, h) && HandedInOrder(q, h)
    requires Objs(q.items) == gone + Objs(Kept(q.items, floor, resets))
    ensures var q' := Trim(q, floor, resets);
            && q'.items == Kept(q.items, floor, resets) && q'.bytes <= q.bytes
            && Counted(q') && IsSuffix(q', h) && HandedInOrder(q', h)
            && Turn(q', h) == |h.offered| - |Objs(q'.items)| && Turn(q, h) <= Turn(q', h)
  {
    hide Objs, Kept, IsSub, LiveBytes, ReplayBytes, Charged;
    var kept := Objs(Kept(q.items, floor, resets));
    BytesConcat(gone, kept);
    SuffixOfSuffix(h.offered, Turn(q, h), gone, kept);
    IsSubDrop(h.handed, gone, kept, h.offered);
  }

  lemma TrimEnds(q: Queue, h: History, floor: nat, resets: bool)
    requires IsSuffix(q, h) && JudgedPast(q, h) && EndsAsked(q.items, h, Turn(q, h)) && Ascending(h.offered)
    ensures EndsAsked(Kept(q.items, floor, resets), h, |h.offered| - |Objs(Kept(q.items, floor, resets))|)
  {
    hide Objs, Kept, EndsAsked, NoneBelow, SplitsAt, Ascending;
    var gone := TrimDrops(q, h, floor, resets);
    var kept := Objs(Kept(q.items, floor, resets));
    SplitAtFloor(gone, kept, floor);
    TrimAsked(q.items, h, Turn(q, h), |kept|, floor, resets);
  }

  lemma SplitAtFloor(gone: seq<Object>, kept: seq<Object>, floor: nat)
    requires NoneBelow(kept, floor) && forall o :: o in gone ==> o.group < floor
    ensures SplitsAt(gone + kept, floor, |kept|)
  {
    forall i | 0 <= i < |gone + kept|
      ensures (gone + kept)[i].group >= floor <==> i >= |gone|
    {
      if i < |gone| { assert gone[i] in gone; } else { assert kept[i - |gone|] in kept; }
    }
  }

  lemma TrimCut(q: Queue, floor: nat, resets: bool)
    requires CutAtHead(q)
    ensures CutAtHead(Trim(q, floor, resets))
  {
    if q.items != [] {
      KeptCut(q.items, floor, resets);
      KeptCut(q.items[1..], floor, resets);
    }
  }

  // ---- popping and pushing ------------------------------------------------

  lemma PopControl(q: Queue, h: History)
    requires QueueOk(q, h) && q.items != [] && !q.items[0].Obj?
    ensures QueueOk(Pop(q), h) && Turn(Pop(q), h) == Turn(q, h)
    ensures Objs(Pop(q).items) == Objs(q.items)
  {
    hide Objs, IsSub, LiveBytes, ReplayBytes, Charged, EndsAsked, Ascending;
    EndsTail(q.items, h, Turn(q, h));
    ObjsHead(q.items);
    assert One(q.items[0]) + Objs(q.items[1..]) == Objs(q.items[1..]);
  }

  lemma EndsTail(items: seq<Item>, h: History, turn: int)
    requires EndsAsked(items, h, turn) && items != []
    ensures EndsAsked(items[1..], h, turn) && Asked(h, items[0], |h.offered| - |Objs(items[1..])|, turn)
  {
  }

  /** What popping an object does to the counts and the boundary. */
  lemma PopObject(q: Queue, h: History)
    requires Counted(q) && IsSuffix(q, h) && q.items != [] && q.items[0].Obj?
    ensures var o, q' := q.items[0].o, Pop(q);
            && Objs(q.items) == [o] + Objs(q'.items)
            && Counted(q') && q'.bytes <= q.bytes
            && IsSuffix(q', h) && Turn(q', h) == Turn(q, h) + 1
            && h.offered[Turn(q, h)] == o
  {
    var o, q' := q.items[0].o, Pop(q);
    ObjsHead(q.items);
    hide Objs, IsSub, LiveBytes, ReplayBytes, Charged, EndsAsked;
    assert Objs(q.items) == [o] + Objs(q'.items);
    BytesConcat([o], Objs(q'.items));
    SuffixOfSuffix(h.offered, Turn(q, h), [o], Objs(q'.items));
    assert h.offered[Turn(q, h)..][0] == o;
  }

  /** An object taken off the queue without going to the writer. */
  lemma PopDropped(q: Queue, h: History)
    requires QueueOk(q, h) && q.items != [] && q.items[0].Obj?
    ensures QueueOk(Pop(q), h) && Turn(Pop(q), h) == Turn(q, h) + 1 && Pop(q).bytes <= q.bytes
    ensures h.offered[Turn(q, h)] == q.items[0].o
    ensures forall o :: o in Objs(Pop(q).items) ==> o in Objs(q.items)
  {
    hide Objs, IsSub, LiveBytes, ReplayBytes, Charged, EndsAsked;
    PopObject(q, h);
    IsSubDrop(h.handed, [q.items[0].o], Objs(Pop(q).items), h.offered);
    EndsTail(q.items, h, Turn(q, h));
    TurnAsked(q.items[1..], h, h, Turn(q, h));
  }

  /** An object taken off the queue for the writer. */
  lemma PopHanded(q: Queue, h: History, pass: bool)
    requires QueueOk(q, h) && q.items != [] && q.items[0].Obj?
    ensures var h' := Hand(h, q.items[0].o, Turn(q, h), pass);
            QueueOk(Pop(q), h') && Turn(Pop(q), h') == Turn(q, h) + 1
    ensures h.offered[Turn(q, h)] == q.items[0].o && Turn(q, h) !in h.judged
    ensures Pop(q).bytes <= q.bytes
    ensures forall o :: o in Objs(Pop(q).items) ==> o in Objs(q.items)
  {
    hide Objs, IsSub, LiveBytes, ReplayBytes, Charged, EndsAsked;
    PopObject(q, h);
    var o, rest := q.items[0].o, Objs(Pop(q).items);
    assert h.handed + ([o] + rest) == (h.handed + [o]) + rest;
    EndsTail(q.items, h, Turn(q, h));
    TurnAsked(q.items[1..], h, Hand(h, o, Turn(q, h), pass), Turn(q, h));
  }

  lemma PushKeeps(q: Queue, h: History, o: Object)
    requires QueueOk(q, h) && Ascending(h.offered + [o])
    ensures var h' := h.(offered := h.offered + [o], top := Max(h.top, o.group));
            && QueueOk(Push(q, Obj(o)), h') && Turn(Push(q, Obj(o)), h') == Turn(q, h)
            && Objs(Push(q, Obj(o)).items) == Objs(q.items) + [o]
  {
    hide Objs, IsSub, LiveBytes, ReplayBytes, Charged, EndsAsked;
    ObjsSnoc(q.items, Obj(o));
    var was := Objs(q.items);
    BytesConcat(was, [o]);
    assert (h.offered + [o])[Turn(q, h)..] == h.offered[Turn(q, h)..] + [o];
    IsSubGrow(h.handed + was, h.offered, o);
    assert h.handed + (was + [o]) == (h.handed + was) + [o];
    PushAsked(q.items, h, h.(offered := h.offered + [o], top := Max(h.top, o.group)), o, Turn(q, h));
  }

  /** An object offered below the floor leaves the queue as it was. */
  lemma NoteKeeps(q: Queue, h: History, o: Object)
    requires QueueOk(q, h) && Ascending(h.offered + [o]) && Objs(q.items) == []
    ensures var h' := h.(offered := h.offered + [o], top := Max(h.top, o.group));
            QueueOk(q, h') && Turn(q, h') == Turn(q, h) + 1
  {
    hide Objs, IsSub, LiveBytes, ReplayBytes, Charged, EndsAsked;
    IsSubGrow(h.handed + Objs(q.items), h.offered, o);
    PassedAsked(q.items, h, h.(offered := h.offered + [o], top := Max(h.top, o.group)), o);
  }

  lemma PutKeeps(q: Queue, h: History, x: Item)
    requires QueueOk(q, h) && !x.Obj?
    ensures var q' := q.(items := q.items + [x]);
            QueueOk(q', Ending(h, x)) && Objs(q'.items) == Objs(q.items)
  {
    hide Objs, IsSub, LiveBytes, ReplayBytes, Charged, EndsAsked, Ascending;
    ObjsSnoc(q.items, x);
    assert Objs(q.items) + One(x) == Objs(q.items);
    PutAsked(q.items, h, x, Turn(q, h));
  }

  lemma PushCutKeeps(q: Queue, h: History)
    requires QueueOk(q, h)
    ensures QueueOk(PushCut(q), h) && Objs(PushCut(q).items) == Objs(q.items)
    ensures CutAtHead(q) ==> CutAtHead(PushCut(q))
  {
    hide Objs, IsSub, LiveBytes, ReplayBytes, Charged, EndsAsked, Ascending;
    ObjsCons(Cut, q.items);
    assert One(Cut) + Objs(q.items) == Objs(q.items);
    EndsCons(Cut, q.items, h, Turn(q, h));
  }

  lemma ClearKeeps(q: Queue, h: History)
    requires QueueOk(q, h)
    ensures QueueOk(Queue([], 0, 0, 0, q.cut), h) && Turn(Queue([], 0, 0, 0, q.cut), h) == |h.offered|
  {
    hide Objs, IsSub, LiveBytes, ReplayBytes, Charged, EndsAsked;
    NoObjs();
    NoEnds(h, |h.offered|);
    var objs := Objs(q.items);
    assert objs + [] == objs;
    IsSubDrop(h.handed, objs, [], h.offered);
  }

  /** An object written through an empty queue. */
  lemma ThroughKeeps(q: Queue, h: History, o: Object, pass: bool)
    requires QueueOk(q, h) && Ascending(h.offered + [o]) && q.items == []
    ensures var h' := Hand(h.(offered := h.offered + [o], top := Max(h.top, o.group)), o, |h.offered|, pass);
            && QueueOk(q, h') && Turn(q, h') == |h.offered| + 1 == Turn(q, h) + 1
            && |h.offered| !in h.judged
  {
    hide Objs, IsSub, LiveBytes, ReplayBytes, Charged, EndsAsked, Ascending;
    NoObjs();
    NoEnds(Hand(h.(offered := h.offered + [o], top := Max(h.top, o.group)), o, |h.offered|, pass), |h.offered| + 1);
    assert h.handed + [] == h.handed && (h.handed + [o]) + [] == h.handed + [o];
    IsSubGrow(h.handed, h.offered, o);
  }

  lemma NoEnds(h: History, turn: int)
    ensures EndsAsked([], h, turn)
  {
  }

  lemma HeadOffered(q: Queue, h: History)
    requires IsSuffix(q, h) && Objs(q.items) != []
    ensures Objs(q.items)[0] in h.offered && Objs(q.items)[0] in Objs(q.items)
  {
    hide Objs;
    assert h.offered[Turn(q, h)..][0] == h.offered[Turn(q, h)];
  }
}
