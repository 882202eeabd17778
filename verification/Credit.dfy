/** Request ids and MAX_REQUEST_ID credit between two endpoints: ids in flight
    in any order, limits in order. */
module Credit {
  import opened Basics
  import opened RequestIds

  const WINDOW := 10000
  const MAX_OPEN := 1000

  /** One endpoint's books of its peer's requests; `localMax` is None where the
      draft has no limit, `recheck` whether the timer is set. */
  datatype Receiver = Receiver(t: Tracker, localMax: Option<nat>, recheck: bool)

  datatype Close = InvalidRequestId | TooManyRequests | ProtocolViolation

  datatype Verdict = Accepted(r: Receiver, sent: Option<nat>) | Closes(code: Close)

  /** The limit raised before the peer reaches it, unless it holds too many open. */
  function Extend(r: Receiver, id: int, held: nat): (Receiver, Option<nat>)
  {
    if r.localMax.None? || id < r.localMax.value - WINDOW / 2 then (r, None)
    else if held >= MAX_OPEN then (r.(recheck := true), None)
    else
      var raised := r.localMax.value + WINDOW;
      (r.(localMax := Some(raised)), Some(raised))
  }

  /** A request, or an update, of the peer comes in with `id`. */
  ghost function Receive(r: Receiver, id: nat, parity: nat, held: nat): Verdict
  {
    if id % 2 != parity then Closes(InvalidRequestId)
    else if Refused(r.t, id) then Closes(InvalidRequestId)
    else if r.localMax.Some? && id >= r.localMax.value then Closes(TooManyRequests)
    else
      var (r', sent) := Extend(r.(t := Note(r.t, id, parity)), id, held);
      Accepted(r', sent)
  }

  /** The timer fires. */
  function Recheck(r: Receiver, held: nat): (Receiver, Option<nat>) { Extend(r.(recheck := false), r.t.max, held) }

  /** A requester: its next id, and the peer's limit as it knows it. */
  datatype Sender = Sender(next: nat, limit: Option<nat>)

  predicate MayAllocate(s: Sender) { s.limit.None? || s.next < s.limit.value }

  /** A MAX_REQUEST_ID comes in; None closes the session. */
  function Raised(s: Sender, limit: nat): Option<Sender>
  {
    if s.limit.Some? && limit <= s.limit.value then None else Some(s.(limit := Some(limit)))
  }

  /** The requester after those limits came in; None once one closed the session. */
  function Limited(s: Sender, limits: seq<nat>): Option<Sender>
    decreases limits
  {
    if limits == [] then Some(s)
    else
      var next := Raised(s, limits[0]);
      if next.None? then None else Limited(next.value, limits[1..])
  }

  ghost predicate Rises(s: seq<nat>) { forall i, j :: 0 <= i < j < |s| ==> s[i] < s[j] }

  lemma RisesCons(x: nat, s: seq<nat>)
    requires s != []
    ensures Rises([x] + s) <==> x < s[0] && Rises(s)
  {
    var all := [x] + s;
    if Rises(all) {
      assert all[0] < all[1];
      assert forall i, j :: 0 <= i < j < |s| ==> s[i] == all[i + 1] && s[j] == all[j + 1];
    }
  }

  /** The session stays open just when every limit is above those before it, and the
      last is then the limit in force. */
  lemma {:induction false} LimitsIff(s: Sender, limits: seq<nat>)
    requires s.limit.Some?
    ensures var all, r := [s.limit.value] + limits, Limited(s, limits);
            (r.Some? <==> Rises(all)) && (r.Some? ==> r.value == s.(limit := Some(all[|all| - 1])))
    decreases limits
  {
    hide Rises;
    if limits == [] {
      RisesAlone(s.limit.value);
    } else {
      assert [limits[0]] + limits[1..] == limits;
      RisesCons(s.limit.value, limits);
      LimitsIff(s.(limit := Some(limits[0])), limits[1..]);
    }
  }

  lemma RisesAlone(x: nat)
    ensures Rises([x] + [])
  {
  }

  // ---- the books as an object ------------------------------------------------

  method Sorted(s: set<nat>) returns (out: seq<nat>)
    ensures |out| == |s| && forall k :: 0 <= k < |out| ==> out[k] == Nth(s, k)
  {
    var left := s;
    out := [];
    while left != {}
      invariant |out| + |left| == |s|
      invariant forall k :: 0 <= k < |out| ==> out[k] == Nth(s, k)
      invariant forall k :: 0 <= k < |left| ==> Nth(left, k) == Nth(s, |out| + k)
    {
      ghost var l := LeastExists(left);
      var x :| x in left && forall y :: y in left ==> x <= y;
      assert Least(left) == x && Nth(left, 0) == x;
      ghost var rest := left - {x};
      forall k | 0 <= k < |rest|
        ensures Nth(rest, k) == Nth(s, |out| + 1 + k)
      {
        assert Nth(left, k + 1) == Nth(rest, k);
      }
      out := out + [x];
      left := left - {x};
    }
  }

  class PeerRequests {
    const parity: nat
    var low: nat
    var seen: set<nat>
    var max: int
    var localMax: Option<nat>
    var recheck: bool

    ghost function View(): Receiver
      reads this
    {
      Receiver(Tracker(low, seen, max), localMax, recheck)
    }

    constructor (isClient: bool, localMax: Option<nat>)
      ensures View() == Receiver(START, localMax, false) && parity == (if isClient then 1 else 0)
    {
      parity := if isClient then 1 else 0;
      low, seen, max, this.localMax, recheck := 0, {}, -1, localMax, false;
    }

    method NoteId(id: nat)
      modifies this`low, this`seen, this`max
      ensures Tracker(low, seen, max) == Note(old(Tracker(low, seen, max)), id, parity)
    {
      hide Nth, Settled;
      if id > max { max := id; }
      var kept := seen + {id};
      var mark: nat := Lifted(low, parity);
      if |kept| > SEEN_CAP {
        var sorted := Sorted(kept);
        var past := sorted[SEEN_CAP / 4] + 2;
        if past > mark { mark := past; }
        kept := AtLeast(kept, mark);
      }
      low, seen := Settle(mark, kept, max);
    }

    /** The mark moved over the ids seen contiguously. */
    static method Settle(low: nat, seen: set<nat>, ghost max: int) returns (mark: nat, kept: set<nat>)
      ensures Tracker(mark, kept, max) == Settled(low, seen, max)
    {
      mark, kept := low, seen;
      while mark in kept
        invariant Settled(mark, kept, max) == Settled(low, seen, max)
        decreases |kept|
      {
        kept := kept - {mark};
        mark := mark + 2;
      }
    }

    /** The limit to send, if it is raised. */
    method ExtendCredit(id: int, held: nat) returns (sent: Option<nat>)
      modifies this`localMax, this`recheck
      ensures (View(), sent) == Extend(old(View()), id, held)
    {
      if localMax.None? || id < localMax.value - WINDOW / 2 { return None; }
      if held >= MAX_OPEN {
        recheck := true;
        return None;
      }
      localMax := Some(localMax.value + WINDOW);
      return localMax;
    }

    method RecheckCredit(held: nat) returns (sent: Option<nat>)
      modifies this`localMax, this`recheck
      ensures (View(), sent) == Recheck(old(View()), held)
    {
      recheck := false;
      sent := ExtendCredit(max, held);
    }

    /** The session closes with the code returned, if one is. */
    method OnRequest(id: nat, held: nat) returns (close: Option<Close>, sent: Option<nat>)
      modifies this
      ensures match Receive(old(View()), id, parity, held)
              case Closes(code) => close == Some(code) && sent == None && View() == old(View())
              case Accepted(r, limit) => close == None && sent == limit && View() == r
    {
      if id % 2 != parity { return Some(InvalidRequestId), None; }
      if id < low || id in seen { return Some(InvalidRequestId), None; }
      if localMax.Some? && id >= localMax.value { return Some(TooManyRequests), None; }
      NoteId(id);
      sent := ExtendCredit(id, held);
      close := None;
    }
  }

  // ---- what a receiver lets through ----------------------------------------------

  /** A peer's request comes in, or the recheck timer fires. */
  datatype Incoming = Asks(id: nat, held: nat) | Tick(held: nat)

  /** The books after those events; None once the session is closed. */
  ghost function Served(r: Receiver, parity: nat, events: seq<Incoming>): Option<Receiver>
    decreases events
  {
    if events == [] then Some(r)
    else
      match events[0]
      case Tick(held) => Served(Recheck(r, held).0, parity, events[1..])
      case Asks(id, held) =>
        var v := Receive(r, id, parity, held);
        if v.Closes? then None else Served(v.r, parity, events[1..])
  }

  /** The request keeps to what the peer has been told: its parity, an id not seen or
      given up, and the limit in force. */
  ghost predicate Keeps(r: Receiver, parity: nat, ev: Incoming)
  {
    ev.Asks? ==> ev.id % 2 == parity && !Refused(r.t, ev.id) && (r.localMax.Some? ==> ev.id < r.localMax.value)
  }

  /** The limit after an event: up by the window just when the peer is within half of
      one of it and holds no more open than it may. */
  ghost predicate Moves(r: Receiver, ev: Incoming, r': Receiver)
  {
    var last := if ev.Asks? then ev.id else r.t.max;
    && (r.localMax.None? ==> r'.localMax.None?)
    && (r.localMax.Some? ==>
          r'.localMax == Some(r.localMax.value
                              + if last + WINDOW / 2 >= r.localMax.value && ev.held < MAX_OPEN then WINDOW else 0))
  }

  /** The session was open at the k-th event, which kept to what the peer was told. */
  ghost predicate KeptAt(r: Receiver, parity: nat, events: seq<Incoming>, k: nat)
  {
    && k < |events| && Served(r, parity, events[..k]).Some?
    && Keeps(Served(r, parity, events[..k]).value, parity, events[k])
  }

  ghost predicate MovedAt(r: Receiver, parity: nat, events: seq<Incoming>, k: nat)
  {
    && k < |events| && Served(r, parity, events[..k]).Some?
    && (Served(r, parity, events[..k + 1]).Some? ==>
          Moves(Served(r, parity, events[..k]).value, events[k], Served(r, parity, events[..k + 1]).value))
  }

  /** Over any events, the session stays open if and only if every request kept to the
      limit in force when it came, and the rest; and that limit moves as it should. */
  lemma {:induction false} OpenIff(r: Receiver, parity: nat, events: seq<Incoming>)
    ensures Served(r, parity, events).Some? <==> forall k: nat :: k < |events| ==> KeptAt(r, parity, events, k)
    ensures Served(r, parity, events).Some? ==> forall k: nat :: k < |events| ==> MovedAt(r, parity, events, k)
    decreases |events|
  {
    hide Served, KeptAt, MovedAt;
    if events == [] {
      ServedNone(r, parity);
    } else {
      var n := |events| - 1;
      OpenIff(r, parity, events[..n]);
      LastOpen(r, parity, events);
      forall k: nat | k < n
        ensures KeptAt(r, parity, events, k) <==> KeptAt(r, parity, events[..n], k)
        ensures MovedAt(r, parity, events, k) <==> MovedAt(r, parity, events[..n], k)
      {
        SameAt(r, parity, events, n, k);
      }
    }
  }

  lemma SameAt(r: Receiver, parity: nat, events: seq<Incoming>, n: nat, k: nat)
    requires k < n <= |events|
    ensures KeptAt(r, parity, events, k) <==> KeptAt(r, parity, events[..n], k)
    ensures MovedAt(r, parity, events, k) <==> MovedAt(r, parity, events[..n], k)
  {
    hide Served, Keeps, Moves;
    assert events[..n][..k] == events[..k] && events[..n][..k + 1] == events[..k + 1];
  }

  lemma LastOpen(r: Receiver, parity: nat, events: seq<Incoming>)
    requires events != []
    ensures var n := |events| - 1;
            && (Served(r, parity, events).Some? <==> KeptAt(r, parity, events, n))
            && (Served(r, parity, events).Some? ==>
                  Served(r, parity, events[..n]).Some? && MovedAt(r, parity, events, n))
  {
    hide Served, Keeps, Moves;
    var n := |events| - 1;
    assert events[..n] + [events[n]] == events && events[..n + 1] == events;
    ServedMore(r, parity, events[..n], events[n]);
  }

  lemma {:induction false} ServedMore(r: Receiver, parity: nat, events: seq<Incoming>, ev: Incoming)
    ensures var was, now := Served(r, parity, events), Served(r, parity, events + [ev]);
            && (now.Some? <==> was.Some? && Keeps(was.value, parity, ev))
            && (now.Some? ==> Moves(was.value, ev, now.value))
    decreases events
  {
    hide Note, Refused;
    if events == [] {
      assert [] + [ev] == [ev] && [ev][1..] == [];
      ServedOne(r, parity, ev);
    } else {
      assert (events + [ev])[0] == events[0] && (events + [ev])[1..] == events[1..] + [ev];
      match events[0]
      case Tick(held) => ServedMore(Recheck(r, held).0, parity, events[1..], ev);
      case Asks(id, held) =>
        var v := Receive(r, id, parity, held);
        if v.Accepted? { ServedMore(v.r, parity, events[1..], ev); }
    }
  }

  lemma ServedNone(r: Receiver, parity: nat)
    ensures Served(r, parity, []) == Some(r)
  {
  }

  lemma ServedOne(r: Receiver, parity: nat, ev: Incoming)
    ensures Served(r, parity, []) == Some(r)
    ensures var now := Served(r, parity, [ev]);
            && (now.Some? <==> Keeps(r, parity, ev))
            && (now.Some? ==> Moves(r, ev, now.value))
  {
    hide Note, Refused;
    assert [ev][1..] == [];
  }

  // ---- one direction of a session -----------------------------------------------

  /** One endpoint's requests and the other's credit for them: ids in flight in
      any order, limits in flight in order; `accepted` is every id taken. */
  datatype Link = Link(parity: nat, sender: Sender, flight: set<nat>, credits: seq<nat>,
                       receiver: Receiver, accepted: set<nat>, closed: bool)

  datatype Event = Request | Arrive(id: nat, held: nat) | Limit | Timer(held: nat)

  /** An id is allocated only under the limit; none that arrives makes the receiver
      give up one still to come. */
  ghost predicate Enabled(l: Link, ev: Event)
  {
    !l.closed &&
    match ev
    case Request => MayAllocate(l.sender)
    case Arrive(id, _) => id in l.flight && Lossless(l.receiver.t, id, l.parity)
    case Limit => l.credits != []
    case Timer(_) => l.receiver.recheck
  }

  function Sends(credits: seq<nat>, sent: Option<nat>): seq<nat>
  {
    if sent.None? then credits else credits + [sent.value]
  }

  ghost function Step(l: Link, ev: Event): Link
    requires Enabled(l, ev)
  {
    match ev
    case Request =>
      l.(sender := l.sender.(next := l.sender.next + 2), flight := l.flight + {l.sender.next})
    case Arrive(id, held) =>
      (match Receive(l.receiver, id, l.parity, held)
       case Closes(_) => l.(closed := true)
       case Accepted(r, sent) =>
         l.(flight := l.flight - {id}, receiver := r, credits := Sends(l.credits, sent), accepted := l.accepted + {id}))
    case Limit =>
      var s := Raised(l.sender, l.credits[0]);
      if s.None? then l.(closed := true) else l.(sender := s.value, credits := l.credits[1..])
    case Timer(held) =>
      var (r, sent) := Recheck(l.receiver, held);
      l.(receiver := r, credits := Sends(l.credits, sent))
  }

  /** Limits in order, each above the one before, up to the receiver's own. */
  ghost predicate Climbs(limit: nat, credits: seq<nat>, top: nat)
    decreases credits
  {
    if credits == [] then limit == top else limit < credits[0] && Climbs(credits[0], credits[1..], top)
  }

  /** Ids of the link's parity below the next one are in flight or accepted. */
  ghost predicate Dealt(l: Link)
  {
    && l.parity < 2 && l.sender.next % 2 == l.parity
    && (forall i :: i in l.flight ==> i % 2 == l.parity && i < l.sender.next && i !in l.accepted)
    && (forall i :: i in l.accepted ==> i % 2 == l.parity && i < l.sender.next)
    && (forall i: nat :: i % 2 == l.parity && i < l.sender.next ==> i in l.flight || i in l.accepted)
  }

  ghost predicate Credited(l: Link)
  {
    && l.sender.limit.Some? && l.receiver.localMax.Some? && l.sender.limit.value % 2 == 0
    && l.receiver.localMax.value >= WINDOW && l.receiver.localMax.value % 2 == 0
    && Climbs(l.sender.limit.value, l.credits, l.receiver.localMax.value)
    && (forall c :: c in l.credits ==> c % 2 == 0)
    && l.sender.next <= l.sender.limit.value + 1
    && (l.receiver.t.max >= l.receiver.localMax.value - WINDOW / 2 ==> l.receiver.recheck)
  }

  ghost predicate LinkOk(l: Link)
  {
    && !l.closed && Dealt(l) && Credited(l)
    && TrackerOk(l.receiver.t, l.accepted, l.parity) && Exact(l.receiver.t, l.accepted, l.parity)
  }

  lemma {:induction false} ClimbsMore(limit: nat, credits: seq<nat>, top: nat, more: nat)
    requires Climbs(limit, credits, top) && top < more
    ensures Climbs(limit, credits + [more], more)
    decreases credits
  {
    if credits == [] {
      assert ([] + [more])[1..] == [];
    } else {
      assert (credits + [more])[1..] == credits[1..] + [more];
      ClimbsMore(credits[0], credits[1..], top, more);
    }
  }

  lemma {:induction false} ClimbsUp(limit: nat, credits: seq<nat>, top: nat)
    requires Climbs(limit, credits, top)
    ensures limit <= top
    decreases credits
  {
    if credits != [] { ClimbsUp(credits[0], credits[1..], top); }
  }

  lemma RequestKeeps(l: Link)
    requires LinkOk(l) && MayAllocate(l.sender)
    ensures LinkOk(Step(l, Request))
  {
    hide TrackerOk, Exact, Climbs;
  }

  lemma LimitKeeps(l: Link)
    requires LinkOk(l) && l.credits != []
    ensures LinkOk(Step(l, Limit))
  {
    hide TrackerOk, Exact;
    assert l.credits[0] in l.credits;
    assert forall c :: c in l.credits[1..] ==> c in l.credits;
  }

  /** The id is neither of the wrong parity, nor a duplicate, nor past the limit. */
  lemma ArriveTaken(l: Link, id: nat)
    requires LinkOk(l) && id in l.flight
    ensures id % 2 == l.parity && id < l.receiver.localMax.value && !Refused(l.receiver.t, id)
  {
    hide TrackerOk, Climbs;
    ClimbsUp(l.sender.limit.value, l.credits, l.receiver.localMax.value);
  }

  /** Nothing still to come is given up while each has fewer than SEEN_CAP accepted
      above it. */
  lemma RoomIsLossless(l: Link, id: nat)
    requires LinkOk(l) && id in l.flight && forall u :: u in l.flight ==> |Above(l.accepted, u)| < SEEN_CAP
    ensures Lossless(l.receiver.t, id, l.parity)
  {
    hide TrackerOk, Climbs;
    var t := l.receiver.t;
    ArriveTaken(l, id);
    if l.accepted == {} {
      StartTracker(t, l.parity);
    } else {
      SeenIsAbove(t, l.accepted, l.parity);
    }
  }

  lemma StartTracker(t: Tracker, parity: nat)
    requires TrackerOk(t, {}, parity)
    ensures t == START
  {
  }

  /** The largest id accepted, before and after. */
  lemma MaxAccepted(t: Tracker, accepted: set<nat>, parity: nat)
    requires TrackerOk(t, accepted, parity)
    ensures t.max in accepted || t.max == -1
    ensures forall i :: i in accepted ==> i <= t.max
  {
  }

  lemma ArriveKeeps(l: Link, id: nat, held: nat)
    requires LinkOk(l) && id in l.flight && Lossless(l.receiver.t, id, l.parity)
    ensures LinkOk(Step(l, Arrive(id, held)))
  {
    hide TrackerOk, Exact, Note, Refused, Above, Climbs, Lossless;
    ArriveTaken(l, id);
    NoteKeeps(l.receiver.t, id, l.accepted, l.parity);
    LosslessIff(l.receiver.t, id, l.accepted, l.parity);
    NoteMax(l.receiver.t, id, l.parity);
    MaxAccepted(l.receiver.t, l.accepted, l.parity);
    ClimbsUp(l.sender.limit.value, l.credits, l.receiver.localMax.value);
    ExtendKeeps(l, l.receiver.(t := Note(l.receiver.t, id, l.parity)), id, held);
    DealtArrives(l, id);
  }

  /** Where an arrival does make the receiver give one up, that one is in flight, and
      closes the session when it comes. */
  lemma LossCloses(l: Link, id: nat, held: nat) returns (late: nat)
    requires LinkOk(l) && id in l.flight && !Lossless(l.receiver.t, id, l.parity)
    ensures late in l.flight && late != id
    ensures Receive(l.receiver, id, l.parity, held).Accepted?
    ensures Receive(Receive(l.receiver, id, l.parity, held).r, late, l.parity, held) == Closes(InvalidRequestId)
  {
    hide TrackerOk, Climbs, Note, Nth, Settled;
    var t := l.receiver.t;
    ArriveTaken(l, id);
    late :| late % 2 == l.parity && Lifted(t.low, l.parity) <= late <= Nth(t.seen + {id}, SEEN_CAP / 4)
            && late !in t.seen + {id};
    LateMissing(t, id, l.accepted, l.parity, late);
    var n := Nth(t.seen + {id}, SEEN_CAP / 4);
    assert n in l.flight + l.accepted && late in l.flight;
  }

  /** An id the mark is moved over without having come: refused, and not accepted. */
  lemma LateMissing(t: Tracker, id: nat, accepted: set<nat>, parity: nat, late: nat)
    requires TrackerOk(t, accepted, parity) && id % 2 == parity && !Refused(t, id)
    requires |t.seen + {id}| > SEEN_CAP && late !in t.seen + {id}
    requires Lifted(t.low, parity) <= late <= Nth(t.seen + {id}, SEEN_CAP / 4)
    ensures Refused(Note(t, id, parity), late) && late !in accepted
    ensures Nth(t.seen + {id}, SEEN_CAP / 4) in accepted + {id}
  {
    hide Note, Nth, Settled, Parity;
    var seen := t.seen + {id};
    AddKeeps(t, id, accepted, parity);
    NthIn(seen, SEEN_CAP / 4);
    var n := Nth(seen, SEEN_CAP / 4);
    SubsetSmaller(UpTo(seen, late), UpTo(seen, n) - {n});
    OverflowGivesUp(t, id, accepted, parity, late);
  }

  lemma DealtArrives(l: Link, id: nat)
    requires Dealt(l) && id in l.flight
    ensures Dealt(l.(flight := l.flight - {id}, accepted := l.accepted + {id}))
  {
  }

  lemma {:induction false} SettledMax(low: nat, seen: set<nat>, max: int)
    ensures Settled(low, seen, max).max == max
    decreases |seen|
  {
    if low in seen { SettledMax(low + 2, seen - {low}, max); }
  }

  lemma NoteMax(t: Tracker, id: nat, parity: nat)
    ensures Note(t, id, parity).max == if id > t.max then id else t.max
  {
    hide Nth, Settled;
    var max := if id > t.max then id else t.max;
    forall low: nat, seen
      ensures Settled(low, seen, max).max == max
    {
      SettledMax(low, seen, max);
    }
  }

  /** Credit is extended, or its recheck pends, once half a window is left. */
  lemma ExtendKeeps(l: Link, r: Receiver, id: int, held: nat)
    requires l.sender.limit.Some? && l.receiver.localMax.Some? && r.localMax == l.receiver.localMax
    requires Climbs(l.sender.limit.value, l.credits, l.receiver.localMax.value)
    requires forall c :: c in l.credits ==> c % 2 == 0
    requires l.receiver.localMax.value >= WINDOW
    requires id <= r.t.max < r.localMax.value
    requires r.t.max >= r.localMax.value - WINDOW / 2 ==> id == r.t.max || r.recheck
    ensures var (r', sent) := Extend(r, id, held);
            var credits := Sends(l.credits, sent);
            && r'.localMax.Some? && r'.localMax.value >= WINDOW && r'.t == r.t
            && Climbs(l.sender.limit.value, credits, r'.localMax.value)
            && (l.receiver.localMax.value % 2 == 0 ==> forall c :: c in credits ==> c % 2 == 0)
            && (r'.t.max >= r'.localMax.value - WINDOW / 2 ==> r'.recheck)
  {
    ClimbsMore(l.sender.limit.value, l.credits, l.receiver.localMax.value, l.receiver.localMax.value + WINDOW);
  }

  lemma TimerKeeps(l: Link, held: nat)
    requires LinkOk(l)
    ensures var (r, sent) := Recheck(l.receiver, held);
            LinkOk(l.(receiver := r, credits := Sends(l.credits, sent)))
  {
    hide TrackerOk, Exact;
    MaxAccepted(l.receiver.t, l.accepted, l.parity);
    ClimbsUp(l.sender.limit.value, l.credits, l.receiver.localMax.value);
    ExtendKeeps(l, l.receiver.(recheck := false), l.receiver.t.max, held);
  }

  lemma StepKeeps(l: Link, ev: Event)
    requires LinkOk(l) && Enabled(l, ev)
    ensures LinkOk(Step(l, ev))
  {
    hide LinkOk;
    match ev
    case Request => RequestKeeps(l);
    case Arrive(id, held) => ArriveKeeps(l, id, held);
    case Limit => LimitKeeps(l);
    case Timer(held) => TimerKeeps(l, held);
  }

  ghost predicate Reaches(l: Link, run: seq<Event>, l': Link)
    decreases run
  {
    if run == [] then l' == l else Enabled(l, run[0]) && Reaches(Step(l, run[0]), run[1..], l')
  }

  lemma {:induction false} RunKeeps(l: Link, run: seq<Event>, l': Link)
    requires LinkOk(l) && Reaches(l, run, l')
    ensures LinkOk(l')
    decreases run
  {
    hide LinkOk, Step, Enabled;
    if run != [] {
      StepKeeps(l, run[0]);
      RunKeeps(Step(l, run[0]), run[1..], l');
    }
  }

  /** A client's requests are even, a server's odd; both ends grant a window in SETUP. */
  function Opened(parity: nat): Link
  {
    Link(parity, Sender(parity, Some(WINDOW)), {}, [], Receiver(START, Some(WINDOW), false), {}, false)
  }

  // ---- the results -----------------------------------------------------------------

  /** Safe: however requests are reordered, no id is refused, as a duplicate or
      past the limit, and no limit fails to increase. */
  lemma NeverCloses(parity: nat, run: seq<Event>, l: Link)
    requires parity < 2 && Reaches(Opened(parity), run, l)
    ensures !l.closed
    ensures l.receiver.localMax.Some?
    ensures forall i :: i in l.accepted || i in l.flight ==> i % 2 == parity && i < l.receiver.localMax.value
    ensures l.flight !! l.accepted
  {
    hide Climbs, TrackerOk, Exact, Reaches;
    OpenedOk(parity);
    RunKeeps(Opened(parity), run, l);
    LinkParity(Opened(parity), run, l);
    ClimbsUp(l.sender.limit.value, l.credits, l.receiver.localMax.value);
  }

  lemma OpenedOk(parity: nat)
    requires parity < 2
    ensures LinkOk(Opened(parity))
  {
  }

  lemma {:induction false} LinkParity(l: Link, run: seq<Event>, l': Link)
    requires Reaches(l, run, l')
    ensures l'.parity == l.parity
    decreases run
  {
    hide Receive;
    if run != [] { LinkParity(Step(l, run[0]), run[1..], l'); }
  }

  /** Live: with everything delivered and no recheck due, the requester has credit. */
  lemma QuietHasCredit(parity: nat, run: seq<Event>, l: Link)
    requires parity < 2 && Reaches(Opened(parity), run, l)
    requires l.flight == {} && l.credits == [] && !l.receiver.recheck
    ensures MayAllocate(l.sender)
  {
    hide TrackerOk, Exact, Reaches;
    OpenedOk(parity);
    RunKeeps(Opened(parity), run, l);
    LinkParity(Opened(parity), run, l);
    MaxAccepted(l.receiver.t, l.accepted, l.parity);
    var last := l.sender.next - 2;
    if last >= 0 { assert last % 2 == parity && last in l.accepted; }
  }

  /** And a recheck that finds fewer than MAX_OPEN held is not due again. */
  lemma RecheckSettles(r: Receiver, held: nat)
    requires held < MAX_OPEN && r.localMax.Some?
    ensures var (r', sent) := Recheck(r, held);
            && !r'.recheck
            && (sent.Some? <==> r.t.max >= r.localMax.value - WINDOW / 2)
            && (sent.Some? ==> sent == r'.localMax && sent.value == r.localMax.value + WINDOW)
  {
  }

  // ---- both directions ----------------------------------------------------------------

  datatype Session = Session(client: Link, server: Link)

  ghost predicate Runs(s: Session, run: seq<(bool, Event)>, s': Session)
    decreases run
  {
    if run == [] then s' == s
    else if run[0].0 then
      Enabled(s.client, run[0].1) && Runs(s.(client := Step(s.client, run[0].1)), run[1..], s')
    else
      Enabled(s.server, run[0].1) && Runs(s.(server := Step(s.server, run[0].1)), run[1..], s')
  }

  lemma {:induction false} SessionKeeps(s: Session, run: seq<(bool, Event)>, s': Session)
    requires LinkOk(s.client) && LinkOk(s.server) && Runs(s, run, s')
    ensures LinkOk(s'.client) && LinkOk(s'.server)
    decreases run
  {
    hide LinkOk, Step, Enabled;
    if run != [] {
      if run[0].0 {
        StepKeeps(s.client, run[0].1);
        SessionKeeps(s.(client := Step(s.client, run[0].1)), run[1..], s');
      } else {
        StepKeeps(s.server, run[0].1);
        SessionKeeps(s.(server := Step(s.server, run[0].1)), run[1..], s');
      }
    }
  }

  /** Neither side ever closes the session over a request id or a limit. */
  lemma NeitherCloses(run: seq<(bool, Event)>, s: Session)
    requires Runs(Session(Opened(0), Opened(1)), run, s)
    ensures !s.client.closed && !s.server.closed
  {
    OpenedOk(0);
    OpenedOk(1);
    SessionKeeps(Session(Opened(0), Opened(1)), run, s);
  }
}
