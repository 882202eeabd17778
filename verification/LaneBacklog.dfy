/** The transport's backlog as a lane reads it: the bytes of each stream it still
    has to answer for, once. */
module LaneBacklog {
  import opened Basics
  import opened LaneSpec
  import opened LaneQueue
  import opened LaneProofs
  import opened LaneRuns
  import opened LaneStreams

  /** The bytes of the first `n` streams that are in `held` and not below the floor. */
  ghost function Bytes(streams: seq<Stream>, held: set<nat>, floor: Option<nat>, used: Backlog, n: nat): nat
    requires n <= |streams|
  {
    if n == 0 then 0
    else
      Bytes(streams, held, floor, used, n - 1)
      + if n - 1 in held && !Below(streams[n - 1].group, floor) then used(n - 1) else 0
  }

  /** The streams the writer answers for: the open one and those it watches. */
  ghost function Held(d: Delivery): set<nat>
  {
    (if d.open.Some? then {d.open.value.sid} else {}) + set t | t in d.tx :: t.sid
  }

  lemma {:induction false} BytesOf(streams: seq<Stream>, held: set<nat>, floor: Option<nat>, used: Backlog, n: nat,
                                   sid: nat)
    requires n <= |streams| && sid !in held && sid < |streams|
    ensures Bytes(streams, held + {sid}, floor, used, n)
            == Bytes(streams, held, floor, used, n)
               + if sid < n && !Below(streams[sid].group, floor) then used(sid) else 0
  {
    if n > 0 { BytesOf(streams, held, floor, used, n - 1, sid); }
  }

  lemma {:induction false} NoBytes(streams: seq<Stream>, floor: Option<nat>, used: Backlog, n: nat)
    requires n <= |streams|
    ensures Bytes(streams, {}, floor, used, n) == 0
  {
    if n > 0 { NoBytes(streams, floor, used, n - 1); }
  }

  ghost function Sids(tx: seq<OpenStream>): set<nat> { set t | t in tx :: t.sid }

  lemma {:induction false} TxBytes(streams: seq<Stream>, tx: seq<OpenStream>, floor: Option<nat>, used: Backlog)
    requires Once(tx) && forall t :: t in tx ==> Filed(streams, t)
    ensures TxHeld(tx, floor, used) == Bytes(streams, Sids(tx), floor, used, |streams|)
  {
    if tx == [] {
      assert Sids(tx) == {};
      NoBytes(streams, floor, used, |streams|);
    } else {
      OnceTail(tx);
      TxBytes(streams, tx[1..], floor, used);
      BytesOf(streams, Sids(tx[1..]), floor, used, |streams|, tx[0].sid);
      assert Filed(streams, tx[0]);
    }
  }

  lemma OnceTail(tx: seq<OpenStream>)
    requires Once(tx) && tx != []
    ensures Once(tx[1..]) && tx[0].sid !in Sids(tx[1..]) && Sids(tx) == Sids(tx[1..]) + {tx[0].sid}
  {
    assert tx == [tx[0]] + tx[1..];
  }

  lemma QueuedBytes(d: Delivery, floor: Option<nat>, used: Backlog)
    requires TxOk(d.streams, d.open, d.tx)
    ensures TxQueued(d, floor, used) == Bytes(d.streams, Held(d), floor, used, |d.streams|)
  {
    hide TxHeld, Bytes, Once;
    TxBytes(d.streams, d.tx, floor, used);
    if d.open.Some? {
      assert Held(d) == Sids(d.tx) + {d.open.value.sid};
      BytesOf(d.streams, Sids(d.tx), floor, used, |d.streams|, d.open.value.sid);
    } else {
      assert Held(d) == Sids(d.tx);
    }
  }

  lemma TrackedIn(max: nat, through: bool, passes: Filter, floor: Option<nat>, gate: bool, run: seq<Event>, l: Lane,
                  gone: nat -> bool)
    requires Reaches(Init(max, through, passes, floor, gate), run, l)
    requires forall ev :: ev in run ==> Reads(ev, gone)
    ensures Inv(l) && Tracked(l.d, gone)
  {
    hide Reaches, Reads, Inv;
    InitInv(max, through, passes, floor, gate);
    RunKeeps(Init(max, through, passes, floor, gate), run, l);
    RunClosed(Init(max, through, passes, floor, gate), run, l, gone);
  }

  /** What a reachable lane reads as its backlog is what the transport holds of the
      open stream and of each stream watched, each counted once and under its own
      group. */
  lemma BacklogIsHeld(l: Lane, floor: Option<nat>, used: Backlog)
    requires Reachable(l)
    ensures TxQueued(l.d, floor, used) == Bytes(l.d.streams, Held(l.d), floor, used, |l.d.streams|)
  {
    var max, through, passes, start, gate, run :| Reaches(Init(max, through, passes, start, gate), run, l);
    hide Reaches, TxQueued, Bytes;
    TrackedIn(max, through, passes, start, gate, run, l, _ => true);
    QueuedBytes(l.d, floor, used);
  }

  /** And of the streams that ended in FIN only those are not watched that the
      transport was found to have drained. */
  lemma FinsAreHeld(max: nat, through: bool, passes: Filter, floor: Option<nat>, gate: bool, run: seq<Event>, l: Lane,
                    sid: nat)
    requires Reaches(Init(max, through, passes, floor, gate), run, l)
    requires sid < |l.d.streams| && l.d.streams[sid].state.Fin?
    ensures sid in Held(l.d) || exists ev :: ev in run && Drained(ev, sid)
  {
    var gone := (i: nat) => exists ev :: ev in run && Drained(ev, i);
    TrackedIn(max, through, passes, floor, gate, run, l, gone);
  }

  /** The event read the transport to hold nothing of the stream. */
  ghost predicate Drained(ev: Event, sid: nat)
  {
    match ev
    case Offers(_, e) => e.probe(sid) == 0 || e.shed(sid) == 0 || e.shedAll(sid) == 0 || e.reset(sid) == 0
    case Takes(_, used) => used(sid) == 0
    case _ => false
  }
}
