/** Encodings of one object shared by the peers it goes to: what a peer's stream
    carries is what it would carry had the peer encoded alone. */
module Encoding {
  import opened Basics

  type Bytes = seq<int>
  type Props = Option<seq<(nat, Bytes)>>   // an extension block, in its order

  /** The object as the source produced it; each session resolves its props. */
  datatype Published = Published(id: nat, payload: Bytes)

  /** What the bytes of the next object depend on besides the object. */
  datatype State = State(vi64: bool, kvpDelta: bool, extensions: bool, last: Option<nat>)

  datatype Header = Header(state: State, firstObject: bool, subgroup: Option<nat>)

  /** The wire encoder: codec, delta coding, extensions flag, Object ID delta. */
  type Codec = (bool, bool, bool, int, Props, Bytes) -> Bytes

  datatype Entry = Entry(key: State, props: Props, data: Bytes)

  const ENCODINGS_MAX := 4

  function Encoded(codec: Codec, s: State, o: Published, props: Props): Bytes
  {
    var delta := if s.last.None? then o.id else o.id - s.last.value - 1;
    codec(s.vi64, s.kvpDelta, s.extensions, delta, props, o.payload)
  }

  /** `id` is written on the header's stream. */
  function Advanced(h: Header, id: nat): Header
  {
    h.(state := h.state.(last := Some(id)),
       subgroup := if h.firstObject && h.subgroup.None? then Some(id) else h.subgroup)
  }

  /** A subgroup named by its first object is named once one is written. */
  predicate Resolved(h: Header) { h.state.last.Some? && h.firstObject ==> h.subgroup.Some? }

  function Cached(entries: seq<Entry>, key: State, props: Props): Option<Bytes>
  {
    if entries == [] then None
    else if entries[0].key == key && entries[0].props == props then Some(entries[0].data)
    else Cached(entries[1..], key, props)
  }

  function Cache(entries: seq<Entry>, key: State, props: Props, data: Bytes): seq<Entry>
  {
    if |entries| < ENCODINGS_MAX then entries + [Entry(key, props, data)] else entries
  }

  /** Every kept encoding is the object's, in the state it is kept under. */
  ghost predicate Sound(codec: Codec, o: Published, entries: seq<Entry>)
  {
    |entries| <= ENCODINGS_MAX &&
    forall i :: 0 <= i < |entries| ==> entries[i].data == Encoded(codec, entries[i].key, o, entries[i].props)
  }

  lemma {:induction false} CachedSound(codec: Codec, o: Published, entries: seq<Entry>, key: State, props: Props)
    requires Sound(codec, o, entries)
    ensures var c := Cached(entries, key, props); c.Some? ==> c.value == Encoded(codec, key, o, props)
  {
    if entries != [] {
      CachedSound(codec, o, entries[1..], key, props);
    }
  }

  // ---- the header and the list as objects -----------------------------------

  class EncodingList {
    var entries: seq<Entry>

    constructor ()
      ensures entries == []
    {
      entries := [];
    }

    method Find(key: State, props: Props) returns (data: Option<Bytes>)
      ensures data == Cached(entries, key, props)
    {
      for i := 0 to |entries|
        invariant Cached(entries, key, props) == Cached(entries[i..], key, props)
      {
        if entries[i].key == key && entries[i].props == props { return Some(entries[i].data); }
      }
      return None;
    }

    method Keep(key: State, props: Props, data: Bytes)
      modifies this
      ensures entries == Cache(old(entries), key, props, data)
    {
      if |entries| < ENCODINGS_MAX { entries := entries + [Entry(key, props, data)]; }
    }
  }

  class SubgroupHeader {
    const vi64: bool
    const kvpDelta: bool
    const extensions: bool
    const firstObject: bool
    var last: Option<nat>
    var subgroup: Option<nat>

    function View(): Header
      reads this
    {
      Header(State(vi64, kvpDelta, extensions, last), firstObject, subgroup)
    }

    constructor (h: Header)
      ensures View() == h
    {
      vi64, kvpDelta, extensions, firstObject := h.state.vi64, h.state.kvpDelta, h.state.extensions, h.firstObject;
      last, subgroup := h.state.last, h.subgroup;
    }

    method NextObjectBytes(codec: Codec, o: Published, props: Props) returns (data: Bytes)
      modifies this
      ensures data == Encoded(codec, old(View()).state, o, props) && View() == Advanced(old(View()), o.id)
    {
      var delta := if last.None? then o.id else o.id - last.value - 1;
      data := codec(vi64, kvpDelta, extensions, delta, props, o.payload);
      last := Some(o.id);
      if firstObject && subgroup.None? { subgroup := Some(o.id); }
    }

    method Advance(id: nat)
      modifies this
      ensures View() == Advanced(old(View()), id)
    {
      last := Some(id);
      if firstObject && subgroup.None? { subgroup := Some(id); }
    }
  }

  /** The object's bytes on `hdr`'s stream, from what another peer in the same
      state made of it if any did. */
  method ObjectBytes(codec: Codec, hdr: SubgroupHeader, o: Published, props: Props, shared: EncodingList?)
    returns (data: Bytes)
    requires shared != null ==> Sound(codec, o, shared.entries)
    modifies hdr, shared
    ensures data == Encoded(codec, old(hdr.View()).state, o, props)
    ensures hdr.View() == Advanced(old(hdr.View()), o.id)
    ensures shared != null ==>
              && shared.entries == Shared(codec, o, old(shared.entries), old(hdr.View()).state, props)
              && Sound(codec, o, shared.entries)
  {
    if shared == null {
      data := hdr.NextObjectBytes(codec, o, props);
      return;
    }
    var state := hdr.View().state;
    CachedSound(codec, o, shared.entries, state, props);
    var found := shared.Find(state, props);
    if found.None? {
      data := hdr.NextObjectBytes(codec, o, props);
      shared.Keep(state, props, data);
    } else {
      data := found.value;
      hdr.Advance(o.id);
    }
  }

  /** send_nowait() on the open stream: `takes` is whether the transport takes
      the bytes now. A refusal leaves the header as it was. */
  method SendNowait(codec: Codec, hdr: SubgroupHeader, o: Published, props: Props, shared: EncodingList?, takes: bool)
    returns (sent: Option<Bytes>)
    requires Resolved(hdr.View())
    requires shared != null ==> Sound(codec, o, shared.entries)
    modifies hdr, shared
    ensures Resolved(hdr.View())
    ensures sent.Some? <==> takes && old(hdr.last).Some?
    ensures sent.Some? ==>
              && sent.value == Encoded(codec, old(hdr.View()).state, o, props)
              && hdr.View() == Advanced(old(hdr.View()), o.id)
    ensures sent.None? ==> hdr.View() == old(hdr.View())
    ensures shared != null ==>
              && shared.entries == (if old(hdr.last).None? then old(shared.entries)
                                    else Shared(codec, o, old(shared.entries), old(hdr.View()).state, props))
              && Sound(codec, o, shared.entries)
  {
    if hdr.last.None? { return None; }
    var last := hdr.last.value;
    var data := ObjectBytes(codec, hdr, o, props, shared);
    if !takes {
      hdr.Advance(last);
      return None;
    }
    return Some(data);
  }

  /** The list after a peer in `state` has encoded the object through it. */
  function Shared(codec: Codec, o: Published, entries: seq<Entry>, state: State, props: Props): seq<Entry>
  {
    if Cached(entries, state, props).Some? then entries
    else Cache(entries, state, props, Encoded(codec, state, o, props))
  }

  // ---- whole runs ------------------------------------------------------------

  /** A peer's stream: its first header, what is written on it and as which
      bytes, its header now, and what the session makes of each object's props. */
  datatype Peer = Peer(first: Header, written: seq<Published>, sent: seq<Bytes>, header: Header,
                       props: Published -> Props)

  /** Peers, and the objects going out, each with the list its peers share. */
  datatype Room = Room(peers: seq<Peer>, objects: seq<Published>, lists: seq<Option<seq<Entry>>>)

  datatype Event =
    | Publish(o: Published, shared: bool)
    | OpenStream(p: nat, first: Header)
    | Write(p: nat, k: nat)
    | TryNow(p: nat, k: nat, takes: bool)

  predicate Enabled(r: Room, ev: Event)
  {
    match ev
    case Publish(_, _) => true
    case OpenStream(p, _) => p < |r.peers|
    case Write(p, k) => p < |r.peers| && k < |r.objects| == |r.lists|
    case TryNow(p, k, _) => p < |r.peers| && k < |r.objects| == |r.lists|
  }

  /** What the peer is given for the object: the list's bytes, or its own. */
  function Given(codec: Codec, p: Peer, o: Published, list: Option<seq<Entry>>): Bytes
  {
    var kept := if list.Some? then Cached(list.value, p.header.state, p.props(o)) else None;
    if kept.Some? then kept.value else Encoded(codec, p.header.state, o, p.props(o))
  }

  function Listed(codec: Codec, p: Peer, o: Published, list: Option<seq<Entry>>): Option<seq<Entry>>
  {
    if list.None? then None else Some(Shared(codec, o, list.value, p.header.state, p.props(o)))
  }

  function Wrote(codec: Codec, p: Peer, o: Published, list: Option<seq<Entry>>): Peer
  {
    p.(written := p.written + [o], sent := p.sent + [Given(codec, p, o, list)], header := Advanced(p.header, o.id))
  }

  function Step(codec: Codec, r: Room, ev: Event): Room
    requires Enabled(r, ev)
  {
    match ev
    case Publish(o, shared) =>
      r.(objects := r.objects + [o], lists := r.lists + [if shared then Some([]) else None])
    case OpenStream(p, first) => r.(peers := r.peers[p := Peer(first, [], [], first, r.peers[p].props)])
    case Write(p, k) =>
      var peer, o, list := r.peers[p], r.objects[k], r.lists[k];
      r.(peers := r.peers[p := Wrote(codec, peer, o, list)], lists := r.lists[k := Listed(codec, peer, o, list)])
    case TryNow(p, k, takes) =>
      var peer, o, list := r.peers[p], r.objects[k], r.lists[k];
      if peer.header.state.last.None? then r
      else
        var tried := Wrote(codec, peer, o, list);
        var undone := peer.(header := Advanced(tried.header, peer.header.state.last.value));
        r.(peers := r.peers[p := if takes then tried else undone], lists := r.lists[k := Listed(codec, peer, o, list)])
  }

  /** The header after the objects of `os`, and their bytes, from a peer alone. */
  function HeaderAlone(h: Header, os: seq<Published>): Header
  {
    if os == [] then h else Advanced(HeaderAlone(h, os[..|os| - 1]), os[|os| - 1].id)
  }

  function Alone(codec: Codec, h: Header, os: seq<Published>, props: Published -> Props): seq<Bytes>
  {
    if os == [] then []
    else
      var init, o := os[..|os| - 1], os[|os| - 1];
      Alone(codec, h, init, props) + [Encoded(codec, HeaderAlone(h, init).state, o, props(o))]
  }

  ghost predicate PeerOk(codec: Codec, p: Peer)
  {
    && p.header == HeaderAlone(p.first, p.written) && p.sent == Alone(codec, p.first, p.written, p.props)
    && Resolved(p.header)
  }

  ghost predicate ListOk(codec: Codec, o: Published, list: Option<seq<Entry>>)
  {
    list.Some? ==> Sound(codec, o, list.value)
  }

  ghost predicate RoomOk(codec: Codec, r: Room)
  {
    && |r.lists| == |r.objects|
    && (forall p :: 0 <= p < |r.peers| ==> PeerOk(codec, r.peers[p]))
    && (forall k :: 0 <= k < |r.objects| ==> ListOk(codec, r.objects[k], r.lists[k]))
  }

  lemma WroteOk(codec: Codec, p: Peer, o: Published, list: Option<seq<Entry>>)
    requires PeerOk(codec, p) && ListOk(codec, o, list)
    ensures PeerOk(codec, Wrote(codec, p, o, list)) && ListOk(codec, o, Listed(codec, p, o, list))
  {
    if list.Some? { CachedSound(codec, o, list.value, p.header.state, p.props(o)); }
    assert (p.written + [o])[..|p.written|] == p.written;
  }

  predicate Fresh(ev: Event) { ev.OpenStream? ==> ev.first.state.last.None? }

  lemma StepOk(codec: Codec, r: Room, ev: Event)
    requires RoomOk(codec, r) && Enabled(r, ev) && Fresh(ev)
    ensures RoomOk(codec, Step(codec, r, ev))
  {
    hide PeerOk, ListOk, Wrote, Listed, Advanced;
    match ev
    case Write(p, k) => WroteOk(codec, r.peers[p], r.objects[k], r.lists[k]);
    case TryNow(p, k, _) =>
      WroteOk(codec, r.peers[p], r.objects[k], r.lists[k]);
      UndoneOk(codec, r.peers[p], r.objects[k], r.lists[k]);
    case OpenStream(p, first) => FirstOk(codec, first, r.peers[p].props);
    case Publish(o, shared) => NewListOk(codec, o, shared);
  }

  /** A refused write puts the header back. */
  lemma UndoneOk(codec: Codec, p: Peer, o: Published, list: Option<seq<Entry>>)
    requires PeerOk(codec, p)
    ensures var last := p.header.state.last;
            last.Some? ==> PeerOk(codec, p.(header := Advanced(Wrote(codec, p, o, list).header, last.value)))
  {
    hide Alone, HeaderAlone, Encoded;
  }

  lemma NewListOk(codec: Codec, o: Published, shared: bool)
    ensures ListOk(codec, o, if shared then Some([]) else None)
  {
  }

  lemma FirstOk(codec: Codec, first: Header, props: Published -> Props)
    requires first.state.last.None?
    ensures PeerOk(codec, Peer(first, [], [], first, props))
  {
  }

  ghost predicate Reaches(codec: Codec, r: Room, run: seq<Event>, r': Room)
    decreases run
  {
    if run == [] then r' == r
    else Enabled(r, run[0]) && Fresh(run[0]) && Reaches(codec, Step(codec, r, run[0]), run[1..], r')
  }

  lemma {:induction false} RunOk(codec: Codec, r: Room, run: seq<Event>, r': Room)
    requires RoomOk(codec, r) && Reaches(codec, r, run, r')
    ensures RoomOk(codec, r')
    decreases run
  {
    hide RoomOk, Step, Enabled;
    if run != [] {
      StepOk(codec, r, run[0]);
      RunOk(codec, Step(codec, r, run[0]), run[1..], r');
    }
  }

  predicate Starts(p: Peer) { p.written == [] && p.sent == [] && p.header == p.first && p.first.state.last.None? }

  /** Sharing encodings is transparent: whatever the peers share, in whatever
      order, and however often the transport refuses an inline write, each
      stream carries the bytes its peer would have encoded alone, and its header
      is where it would be alone. */
  lemma SharingIsTransparent(codec: Codec, peers: seq<Peer>, run: seq<Event>, r: Room, p: nat)
    requires forall i :: 0 <= i < |peers| ==> Starts(peers[i])
    requires Reaches(codec, Room(peers, [], []), run, r) && p < |r.peers|
    ensures var peer := r.peers[p];
            peer.sent == Alone(codec, peer.first, peer.written, peer.props)
            && peer.header == HeaderAlone(peer.first, peer.written)
  {
    forall i | 0 <= i < |peers|
      ensures PeerOk(codec, peers[i])
    {
      FirstOk(codec, peers[i].first, peers[i].props);
    }
    RunOk(codec, Room(peers, [], []), run, r);
  }

  // ---- what the lists and the bytes are for ----------------------------------------

  /** No two entries for one state and props. */
  ghost predicate Keyed(entries: seq<Entry>)
  {
    forall i, j :: 0 <= i < j < |entries| ==> entries[i].key != entries[j].key || entries[i].props != entries[j].props
  }

  lemma {:induction false} CachedIff(entries: seq<Entry>, key: State, props: Props)
    ensures Cached(entries, key, props).Some?
            <==> exists i :: 0 <= i < |entries| && entries[i].key == key && entries[i].props == props
  {
    if entries != [] {
      CachedIff(entries[1..], key, props);
      assert entries == [entries[0]] + entries[1..];
    }
  }

  /** An object is encoded once for all that share its state and props: the encoding
      made is found from then on, while four at most are kept, each once. */
  lemma SharedOnce(codec: Codec, o: Published, entries: seq<Entry>, state: State, props: Props)
    requires Sound(codec, o, entries) && Keyed(entries)
    ensures var r := Shared(codec, o, entries, state, props);
            && Sound(codec, o, r) && Keyed(r) && |entries| <= |r| && r[..|entries|] == entries
            && (Cached(entries, state, props).Some? ==> r == entries)
            && (Cached(r, state, props) == Some(Encoded(codec, state, o, props)) || |r| == ENCODINGS_MAX)
  {
    hide Encoded;
    var r := Shared(codec, o, entries, state, props);
    CachedIff(entries, state, props);
    CachedSound(codec, o, entries, state, props);
    if r != entries {
      assert r[|entries|].key == state;
      CachedIff(r, state, props);
      CachedSound(codec, o, r, state, props);
    }
  }

  /** Of what a stream carries: a write taken adds its object, a refused one nothing,
      and a new stream begins empty; another peer's stays as it was. Tried or taken, its
      encoding goes to the object's list. */
  lemma StepWrites(codec: Codec, r: Room, ev: Event, p: nat)
    requires Enabled(r, ev) && p < |r.peers|
    ensures p < |Step(codec, r, ev).peers|
    ensures Step(codec, r, ev).peers[p].written
            == if ev.OpenStream? && ev.p == p then []
               else if (ev.Write? || (ev.TryNow? && ev.takes && r.peers[p].header.state.last.Some?)) && ev.p == p
               then r.peers[p].written + [r.objects[ev.k]]
               else r.peers[p].written
    ensures var peer := r.peers[p];
            (ev.Write? || (ev.TryNow? && peer.header.state.last.Some?)) && ev.p == p && r.lists[ev.k].Some? ==>
              var o, list := r.objects[ev.k], r.lists[ev.k].value;
              Step(codec, r, ev).lists[ev.k] == Some(Shared(codec, o, list, peer.header.state, peer.props(o)))
  {
    hide Given, Shared, Advanced;
  }

  /** The Object IDs a receiver makes of a stream's bytes: `delta` is what it reads of
      each, added to one past the last. */
  ghost function IdsRead(delta: Bytes -> int, sent: seq<Bytes>): seq<int>
  {
    if sent == [] then []
    else
      var init := IdsRead(delta, sent[..|sent| - 1]);
      init + [(if init == [] then 0 else init[|init| - 1] + 1) + delta(sent[|sent| - 1])]
  }

  /** A receiver that reads back each delta has the ids written, of any stream. */
  lemma {:induction false} IdsComeBack(codec: Codec, delta: Bytes -> int, h: Header, os: seq<Published>,
                                       props: Published -> Props)
    requires h.state.last.None?
    requires forall v, k, e, d, x, y :: delta(codec(v, k, e, d, x, y)) == d
    ensures |Alone(codec, h, os, props)| == |os|
    ensures var ids := IdsRead(delta, Alone(codec, h, os, props));
            |ids| == |os| && forall i :: 0 <= i < |os| ==> ids[i] == os[i].id
  {
    if os != [] {
      var init := os[..|os| - 1];
      IdsComeBack(codec, delta, h, init, props);
      var sent := Alone(codec, h, os, props);
      assert sent[..|sent| - 1] == Alone(codec, h, init, props);
      LastAlone(h, init);
    }
  }

  lemma LastAlone(h: Header, os: seq<Published>)
    requires h.state.last.None?
    ensures HeaderAlone(h, os).state.last == if os == [] then None else Some(os[|os| - 1].id)
  {
  }
}
