/** Replies on one request stream: none names what it answers, so each is
    credited by its place among the messages sent. */
module ReplyQueue {
  /** What a reply can answer: the request itself, or one of its updates. */
  datatype Owner = Request | Update(id: nat)

  /** A message of the peer's: a reply to either, one to requests only
      (SUBSCRIBE_OK, FETCH_OK), or no reply. */
  datatype Incoming = Ok | Error | RequestOnlyOk | Other

  /** Our end of the stream. `unbound` holds the updates sent before the stream is
      open; `wire` is what went out on it and `sent` all we sent, in order. */
  datatype Stream = Stream(pending: seq<Owner>, open: bool, unbound: seq<Owner>, wire: seq<Owner>,
                           sent: seq<Owner>, credited: seq<Owner>)

  /** Sent on raw QUIC the stream is open at once; over WebTransport, later. */
  function Opened(webTransport: bool): Stream
  {
    if webTransport then Stream([Request], false, [], [], [Request], [])
    else Stream([Request], true, [], [Request], [Request], [])
  }

  function Updated(s: Stream, id: nat): Stream
  {
    var u := Update(id);
    if s.open then s.(pending := s.pending + [u], wire := s.wire + [u], sent := s.sent + [u])
    else s.(pending := s.pending + [u], unbound := s.unbound + [u], sent := s.sent + [u])
  }

  function Bound(s: Stream): Stream
  {
    if s.open then s else s.(open := true, wire := [Request] + s.unbound, unbound := [])
  }

  /** The message answers what is first still waiting. */
  predicate Answers(s: Stream, m: Incoming)
  {
    s.pending != [] && (m.Ok? || m.Error? || (m.RequestOnlyOk? && s.pending[0].Request?))
  }

  /** Whom the message is for: the update it answers, else the request. */
  function OwnerOf(s: Stream, m: Incoming): Owner { if Answers(s, m) then s.pending[0] else Request }

  function Received(s: Stream, m: Incoming): Stream
  {
    if Answers(s, m) then s.(pending := s.pending[1..], credited := s.credited + [s.pending[0]]) else s
  }

  datatype Event = SendUpdate(id: nat) | Bind | Receive(m: Incoming)

  /** The peer answers each message it was sent once, in order, and a reply to
      requests only where it answers the request; what else it sends is no reply. */
  predicate Enabled(s: Stream, ev: Event)
  {
    match ev
    case SendUpdate(_) => true
    case Bind => true
    case Receive(m) =>
      m.Other? || (|s.credited| < |s.wire| && (m.RequestOnlyOk? ==> s.wire[|s.credited|].Request?))
  }

  function Step(s: Stream, ev: Event): Stream
  {
    match ev
    case SendUpdate(id) => Updated(s, id)
    case Bind => Bound(s)
    case Receive(m) => Received(s, m)
  }

  predicate Reaches(s: Stream, run: seq<Event>, s': Stream)
    decreases run
  {
    if run == [] then s' == s else Enabled(s, run[0]) && Reaches(Step(s, run[0]), run[1..], s')
  }

  /** What waits is what was sent past the replies; what went out is all of it, or
      none of it yet. */
  ghost predicate StreamOk(s: Stream)
  {
    && |s.credited| <= |s.sent| && s.credited == s.sent[..|s.credited|] && s.pending == s.sent[|s.credited|..]
    && s.sent != [] && s.sent[0] == Request
    && (if s.open then s.wire == s.sent && s.unbound == []
        else s.wire == [] && s.unbound == s.sent[1..] && s.credited == [])
  }

  lemma StepOk(s: Stream, ev: Event)
    requires StreamOk(s) && Enabled(s, ev)
    ensures StreamOk(Step(s, ev))
    ensures ev.Receive? && !ev.m.Other? ==> Answers(s, ev.m)
  {
    match ev
    case SendUpdate(id) => SentMore(s.sent, s.credited, s.pending, Update(id));
    case Bind => FirstAndRest(s.sent);
    case Receive(m) =>
      if !m.Other? { CreditedMore(s.sent, s.credited, s.pending); }
  }

  lemma SentMore(sent: seq<Owner>, credited: seq<Owner>, pending: seq<Owner>, o: Owner)
    requires |credited| <= |sent| && credited == sent[..|credited|] && pending == sent[|credited|..] && sent != []
    ensures credited == (sent + [o])[..|credited|] && pending + [o] == (sent + [o])[|credited|..]
    ensures (sent + [o])[1..] == sent[1..] + [o]
  {
  }

  lemma FirstAndRest(sent: seq<Owner>)
    requires sent != []
    ensures [sent[0]] + sent[1..] == sent
  {
  }

  lemma CreditedMore(sent: seq<Owner>, credited: seq<Owner>, pending: seq<Owner>)
    requires |credited| <= |sent| && credited == sent[..|credited|] && pending == sent[|credited|..] && pending != []
    ensures credited + [pending[0]] == sent[..|credited| + 1] && pending[1..] == sent[|credited| + 1..]
    ensures pending[0] == sent[|credited|]
  {
  }

  lemma {:induction false} RunOk(s: Stream, run: seq<Event>, s': Stream)
    requires StreamOk(s) && Reaches(s, run, s')
    ensures StreamOk(s')
    decreases run
  {
    hide StreamOk, Step, Enabled;
    if run != [] {
      StepOk(s, run[0]);
      RunOk(Step(s, run[0]), run[1..], s');
    }
  }

  /** The i-th reply is credited to the i-th message we sent, whatever comes between
      and though updates went into the queue before the stream was open; and every
      reply to come has someone to be credited to. */
  lemma RepliesCreditedInOrder(webTransport: bool, run: seq<Event>, s: Stream)
    requires Reaches(Opened(webTransport), run, s)
    ensures |s.credited| <= |s.sent| && s.credited == s.sent[..|s.credited|]
    ensures forall m :: Enabled(s, Receive(m)) && !m.Other? ==>
              |s.credited| < |s.sent| && OwnerOf(s, m) == s.sent[|s.credited|]
    ensures forall m :: Enabled(s, Receive(m)) && m.Other? ==> Received(s, m) == s
  {
    assert [Request][1..] == [];
    RunOk(Opened(webTransport), run, s);
  }

  class RequestStream {
    var pending: seq<Owner>
    var open: bool
    var unbound: seq<Owner>
    ghost var wire: seq<Owner>
    ghost var sent: seq<Owner>
    ghost var credited: seq<Owner>

    ghost function View(): Stream
      reads this
    {
      Stream(pending, open, unbound, wire, sent, credited)
    }

    constructor (webTransport: bool)
      ensures View() == Opened(webTransport)
    {
      pending, open, unbound := [Request], !webTransport, [];
      wire, sent, credited := if webTransport then [] else [Request], [Request], [];
    }

    method Update(id: nat)
      modifies this
      ensures View() == Updated(old(View()), id)
    {
      var u := Owner.Update(id);
      pending, sent := pending + [u], sent + [u];
      if open { wire := wire + [u]; } else { unbound := unbound + [u]; }
    }

    method OnOpened()
      modifies this
      ensures View() == Bound(old(View()))
    {
      if open { return; }
      open, wire := true, [Request];
      wire, unbound := wire + unbound, [];
    }

    method NextReplyOwner(m: Incoming) returns (owner: Owner)
      modifies this
      ensures owner == OwnerOf(old(View()), m) && View() == Received(old(View()), m)
    {
      if pending == [] { return Request; }
      if !(m.Ok? || m.Error?) && (pending[0] != Request || !m.RequestOnlyOk?) { return Request; }
      owner := pending[0];
      credited := credited + [owner];
      pending := pending[1..];
    }
  }
}
