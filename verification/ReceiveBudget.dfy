/** What a session holds of incomplete objects, and of objects that came before
    their track was known: each count is the sum of what is held. */
module ReceiveBudget {
  // ---- sums over a dict ------------------------------------------------------

  ghost function Total(m: map<nat, nat>): nat
  {
    if m == map[] then 0
    else
      var k :| k in m;
      m[k] + Total(m - {k})
  }

  lemma {:induction false} TotalAt(m: map<nat, nat>, k: nat)
    requires k in m
    ensures Total(m) == m[k] + Total(m - {k})
  {
    var j :| j in m && Total(m) == m[j] + Total(m - {j});
    if j != k {
      TotalAt(m - {j}, k);
      TotalAt(m - {k}, j);
      assert m - {j} - {k} == m - {k} - {j};
    }
  }

  lemma TotalSet(m: map<nat, nat>, k: nat, v: nat)
    ensures Total(m[k := v]) == Total(m - {k}) + v
    ensures k in m ==> Total(m) == Total(m - {k}) + m[k]
    ensures k !in m ==> Total(m) == Total(m - {k})
  {
    TotalAt(m[k := v], k);
    assert m[k := v] - {k} == m - {k};
    if k in m { TotalAt(m, k); } else { assert m - {k} == m; }
  }

  // ---- incomplete objects ------------------------------------------------------

  /** Bytes each live stream holds of objects not yet whole, and their sum. */
  class StreamBytes {
    const limit: nat
    var held: map<nat, nat>
    var total: nat
    var closed: bool

    ghost predicate Valid()
      reads this
    {
      total == Total(held) && (!closed ==> total <= limit)
    }

    constructor (limit: nat)
      ensures Valid() && held == map[] && !closed && this.limit == limit
    {
      this.limit, held, total, closed := limit, map[], 0, false;
    }

    /** A chunk left `left` bytes of a stream unparsed; over the limit closes. */
    method OnStreamData(sid: nat, left: nat)
      requires Valid() && !closed
      modifies this
      ensures Valid() && held == old(held)[sid := left]
      ensures closed <==> Total(held) > limit
    {
      TotalSet(held, sid, left);
      var was := if sid in held then held[sid] else 0;
      total := total + left - was;
      held := held[sid := left];
      if total > limit { closed := true; }
    }

    /** The stream is over: finished, rejected or reset. */
    method Cleanup(sid: nat)
      requires Valid()
      modifies this
      ensures Valid() && held == old(held) - {sid} && closed == old(closed) && total <= old(total)
    {
      TotalSet(held, sid, 0);
      if sid in held { total := total - held[sid]; }
      held := held - {sid};
    }
  }

  // ---- early objects -----------------------------------------------------------

  /** An object held for a track alias not bound yet, since when, and its bytes. */
  datatype Early = Early(at: nat, bytes: nat)

  const HOLD := 5000                 // milliseconds
  const MAX_OBJECTS := 1024
  const MAX_BYTES := 4 * 1024 * 1024

  function Bytes(q: seq<Early>): nat { if q == [] then 0 else q[0].bytes + Bytes(q[1..]) }

  lemma {:induction false} BytesMore(q: seq<Early>, e: Early)
    ensures Bytes(q + [e]) == Bytes(q) + e.bytes
  {
    if q == [] {
      assert [] + [e] == [e] && [e][1..] == [];
    } else {
      assert (q + [e])[1..] == q[1..] + [e];
      BytesMore(q[1..], e);
    }
  }

  ghost function Weighed(m: map<nat, seq<Early>>, weight: seq<Early> -> nat): map<nat, nat>
  {
    map a | a in m :: weight(m[a])
  }

  lemma WeighedSet(m: map<nat, seq<Early>>, weight: seq<Early> -> nat, a: nat, q: seq<Early>)
    ensures Weighed(m[a := q], weight) == Weighed(m, weight)[a := weight(q)]
    ensures Weighed(m - {a}, weight) == Weighed(m, weight) - {a}
  {
    assert Weighed(m[a := q], weight).Keys == Weighed(m, weight)[a := weight(q)].Keys;
    assert Weighed(m - {a}, weight).Keys == (Weighed(m, weight) - {a}).Keys;
  }

  ghost function Counts(m: map<nat, seq<Early>>): map<nat, nat> { Weighed(m, q => |q|) }

  ghost function Sizes(m: map<nat, seq<Early>>): map<nat, nat> { Weighed(m, q => Bytes(q)) }

  /** What is in time of a queue, oldest first. */
  function InTime(q: seq<Early>, horizon: int): seq<Early>
  {
    if q != [] && q[0].at < horizon then InTime(q[1..], horizon) else q
  }

  lemma {:induction false} InTimeSmaller(q: seq<Early>, horizon: int)
    ensures |InTime(q, horizon)| <= |q| && Bytes(InTime(q, horizon)) <= Bytes(q)
  {
    if q != [] && q[0].at < horizon { InTimeSmaller(q[1..], horizon); }
  }

  lemma QueueMaps(m: map<nat, seq<Early>>, a: nat, q: seq<Early>)
    ensures Counts(m[a := q]) == Counts(m)[a := |q|] && Sizes(m[a := q]) == Sizes(m)[a := Bytes(q)]
    ensures Counts(m - {a}) == Counts(m) - {a} && Sizes(m - {a}) == Sizes(m) - {a}
  {
    hide Weighed;
    WeighedSet(m, q => |q|, a, q);
    WeighedSet(m, q => Bytes(q), a, q);
  }

  function Queue(m: map<nat, seq<Early>>, a: nat): seq<Early> { if a in m then m[a] else [] }

  /** One alias's queue replaced, or gone when it is empty. */
  lemma QueueSet(m: map<nat, seq<Early>>, a: nat, q: seq<Early>)
    ensures var n, size := Total(Counts(m - {a})), Total(Sizes(m - {a}));
            && Total(Counts(m)) == n + |Queue(m, a)| && Total(Sizes(m)) == size + Bytes(Queue(m, a))
            && Total(Counts(m[a := q])) == n + |q| && Total(Sizes(m[a := q])) == size + Bytes(q)
  {
    hide Total, Bytes;
    QueueMaps(m, a, q);
    TotalSet(Counts(m), a, |q|);
    TotalSet(Sizes(m), a, Bytes(q));
    NoBytes();
  }

  lemma NoBytes()
    ensures Bytes([]) == 0
  {
  }

  /** What has not waited too long, in order. */
  function Unexpired(q: seq<Early>, horizon: int): seq<Early>
  {
    if q == [] then []
    else
      var last := q[|q| - 1];
      Unexpired(q[..|q| - 1], horizon) + if last.at < horizon then [] else [last]
  }

  /** Held since times that do not go back, none later than `now`. */
  ghost predicate Ordered(q: seq<Early>, now: int)
  {
    (forall i, j :: 0 <= i < j < |q| ==> q[i].at <= q[j].at) && forall i :: 0 <= i < |q| ==> q[i].at <= now
  }

  /** What goes is what waited too long at the front, up to the first that has not;
      in a queue held in order that is all that waited too long. */
  lemma {:induction false} InTimeIs(q: seq<Early>, horizon: int) returns (k: nat)
    ensures k <= |q| && InTime(q, horizon) == q[k..]
    ensures (forall i :: 0 <= i < k ==> q[i].at < horizon) && (k < |q| ==> q[k].at >= horizon)
    ensures forall now :: Ordered(q, now) ==> InTime(q, horizon) == Unexpired(q, horizon) && Ordered(q[k..], now)
  {
    if q != [] && q[0].at < horizon {
      var k' := InTimeIs(q[1..], horizon);
      k := k' + 1;
      assert q[1..][k'..] == q[k..];
      UnexpiredHead(q, horizon);
      assert forall now :: Ordered(q, now) ==> Ordered(q[1..], now);
    } else {
      k := 0;
      assert q[0..] == q;
      if now :| Ordered(q, now) { AllUnexpired(q, horizon); }
    }
  }

  lemma {:induction false} UnexpiredHead(q: seq<Early>, horizon: int)
    requires q != []
    ensures Unexpired(q, horizon) == (if q[0].at < horizon then [] else [q[0]]) + Unexpired(q[1..], horizon)
  {
    var last := |q| - 1;
    if last > 0 {
      UnexpiredHead(q[..last], horizon);
      assert q[..last][1..] == q[1..][..last - 1];
    }
  }

  lemma {:induction false} AllUnexpired(q: seq<Early>, horizon: int)
    requires forall i :: 0 <= i < |q| ==> q[i].at >= horizon
    ensures Unexpired(q, horizon) == q
  {
    if q != [] {
      AllUnexpired(q[..|q| - 1], horizon);
      assert q[..|q| - 1] + [q[|q| - 1]] == q;
    }
  }

  /** An alias is left with all it holds in time, and with no queue when that is nothing. */
  lemma ExpiryIsExact(m: map<nat, seq<Early>>, horizon: int, now: int)
    requires forall a :: a in m ==> Ordered(m[a], now)
    ensures forall a :: Queue(AllInTime(m, horizon), a) == Unexpired(Queue(m, a), horizon)
    ensures forall a :: a in AllInTime(m, horizon) <==> Unexpired(Queue(m, a), horizon) != []
  {
    hide InTime, Unexpired, Ordered;
    NoneUnexpired(horizon);
    forall a | a in m
      ensures InTime(m[a], horizon) == Unexpired(m[a], horizon)
    {
      var k := InTimeIs(m[a], horizon);
    }
  }

  lemma NoneUnexpired(horizon: int)
    ensures Unexpired([], horizon) == []
  {
  }

  /** Objects held one after the other stay in order, and go in it. */
  lemma HeldInOrder(q: seq<Early>, e: Early, now: int, horizon: int)
    requires Ordered(q, now) && now <= e.at
    ensures Ordered(Unexpired(q, horizon) + [e], e.at)
    ensures Unexpired(q, horizon) == InTime(q, horizon)
  {
    var k := InTimeIs(q, horizon);
  }

  /** What is in time of every queue; an empty one is gone. */
  function AllInTime(m: map<nat, seq<Early>>, horizon: int): map<nat, seq<Early>>
  {
    map a | a in m && InTime(m[a], horizon) != [] :: InTime(m[a], horizon)
  }

  class EarlyObjects {
    var queues: map<nat, seq<Early>>
    var count: nat
    var bytes: nat

    ghost predicate Valid()
      reads this
    {
      && count == Total(Counts(queues)) && bytes == Total(Sizes(queues))
      && count <= MAX_OBJECTS && bytes <= MAX_BYTES
    }

    constructor ()
      ensures Valid() && queues == map[]
    {
      queues, count, bytes := map[], 0, 0;
    }

    /** Drop what has waited too long of one alias. */
    method ExpireOne(alias: nat, horizon: int)
      requires Valid() && alias in queues
      modifies this
      ensures Valid()
      ensures var q := InTime(old(queues)[alias], horizon);
              queues == if q == [] then old(queues) - {alias} else old(queues)[alias := q]
    {
      var q := queues[alias];
      QueueSet(queues, alias, InTime(q, horizon));
      InTimeSmaller(q, horizon);
      NoBytes();
      var n, size := count, bytes;
      while q != [] && q[0].at < horizon
        invariant InTime(q, horizon) == InTime(queues[alias], horizon)
        invariant n - |q| == count - |queues[alias]| && size - Bytes(q) == bytes - Bytes(queues[alias])
        decreases |q|
      {
        n, size := n - 1, size - q[0].bytes;
        q := q[1..];
      }
      count, bytes := n, size;
      queues := if q == [] then queues - {alias} else queues[alias := q];
    }

    method Expire(now: nat)
      requires Valid()
      modifies this
      ensures Valid() && queues == AllInTime(old(queues), now - HOLD)
    {
      hide InTime, Total, Bytes, Counts, Sizes;
      var left := queues.Keys;
      while left != {}
        invariant Valid() && left <= queues.Keys && left <= old(queues).Keys
        invariant forall a :: a in left ==> queues[a] == old(queues)[a]
        invariant forall a :: a !in left ==>
                    (a in queues <==> a in old(queues) && InTime(old(queues)[a], now - HOLD) != [])
        invariant forall a :: a in queues && a !in left ==> queues[a] == InTime(old(queues)[a], now - HOLD)
        decreases left
      {
        var a :| a in left;
        ExpireOne(a, now - HOLD);
        left := left - {a};
      }
    }

    /** Hold an object behind what is in time, unless the hold is full. */
    method Hold(alias: nat, now: nat, size: nat) returns (ok: bool)
      requires Valid()
      modifies this
      ensures Valid()
      ensures var kept := AllInTime(old(queues), now - HOLD);
              && (ok <==> Total(Counts(kept)) < MAX_OBJECTS && Total(Sizes(kept)) + size <= MAX_BYTES)
              && queues == if ok then kept[alias := Queue(kept, alias) + [Early(now, size)]] else kept
    {
      hide Total, Bytes, InTime, Counts, Sizes, AllInTime;
      Expire(now);
      if count >= MAX_OBJECTS || bytes + size > MAX_BYTES { return false; }
      var q := if alias in queues then queues[alias] else [];
      var e := Early(now, size);
      BytesMore(q, e);
      QueueSet(queues, alias, q + [e]);
      queues := queues[alias := q + [e]];
      count, bytes := count + 1, bytes + size;
      return true;
    }

    method Discard(alias: nat)
      requires Valid()
      modifies this
      ensures Valid() && queues == old(queues) - {alias}
    {
      hide Total, Bytes, Counts, Sizes;
      QueueSet(queues, alias, []);
      NoBytes();
      if alias in queues { count, bytes := count - |queues[alias]|, bytes - Bytes(queues[alias]); }
      queues := queues - {alias};
    }

    /** The alias is bound: what it holds in time goes to the handler, in order. */
    method Bind(alias: nat, now: nat) returns (replayed: seq<Early>)
      requires Valid()
      modifies this
      ensures Valid() && queues == old(queues) - {alias}
      ensures replayed == Unexpired(Queue(old(queues), alias), now - HOLD)
    {
      var q := if alias in queues then queues[alias] else [];
      Discard(alias);
      replayed := [];
      for i := 0 to |q|
        invariant replayed == Unexpired(q[..i], now - HOLD)
      {
        assert q[..i + 1][..i] == q[..i];
        if q[i].at >= now - HOLD { replayed := replayed + [q[i]]; }
      }
      assert q[..|q|] == q;
    }
  }
}
