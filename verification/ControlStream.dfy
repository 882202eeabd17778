/** A peer's control or request stream, whatever chunks it comes in: the whole
    messages, what is retained and the verdicts depend on its bytes only. */
module ControlStream {
  import opened Basics

  type byte = x: int | 0 <= x < 256

  /** RFC9000: section 16 of RFC 9000, 1 to 8 bytes by the top two bits.
      Vi64: from draft 18 on, 1 to 9 bytes by the leading ones. */
  datatype Flavor = Rfc9000 | Vi64

  const SETUP: nat := 0x2F00

  /** The bytes an integer starting with `first` takes. */
  function Width(f: Flavor, first: byte): (n: nat)
    ensures 1 <= n <= 9 && (f.Rfc9000? ==> n <= 8)
  {
    match f
    case Rfc9000 => if first < 0x40 then 1 else if first < 0x80 then 2 else if first < 0xC0 then 4 else 8
    case Vi64 =>
      if first < 0x80 then 1 else if first < 0xC0 then 2 else if first < 0xE0 then 3 else if first < 0xF0 then 4
      else if first < 0xF8 then 5 else if first < 0xFC then 6 else if first < 0xFE then 7 else if first < 0xFF then 8
      else 9
  }

  /** The value bits of the first byte. */
  function Lead(f: Flavor, first: byte): nat
  {
    match f
    case Rfc9000 => first % 64
    case Vi64 =>
      if first < 0x80 then first else if first < 0xC0 then first - 0x80 else if first < 0xE0 then first - 0xC0
      else if first < 0xF0 then first - 0xE0 else if first < 0xF8 then first - 0xF0
      else if first < 0xFC then first - 0xF8
      else if first < 0xFE then first - 0xFC else 0
  }

  function Big(lead: nat, s: seq<byte>): nat
  {
    if s == [] then lead else 256 * Big(lead, s[..|s| - 1]) + s[|s| - 1]
  }

  /** An integer at the head of `s` and its width, None when it is cut short. */
  function Pull(f: Flavor, s: seq<byte>): Option<(nat, nat)>
  {
    if s == [] then None
    else
      var n := Width(f, s[0]);
      if |s| < n then None else Some((Big(Lead(f, s[0]), s[1..n]), n))
  }

  datatype Message = Message(kind: nat, body: seq<byte>)

  /** A whole message at the head of `s`, type, 16-bit length and body, and the
      bytes it takes; None when it is cut short. */
  function Whole(f: Flavor, s: seq<byte>): (r: Option<(Message, nat)>)
    ensures r.Some? ==> 0 < r.value.1 <= |s|
  {
    var kind := Pull(f, s);
    if kind.None? || |s| < kind.value.1 + 2 then None
    else
      var at := kind.value.1;
      var end: nat := at + 2 + 256 * (s[at] as int) + s[at + 1];
      if |s| < end then None else Some((Message(kind.value.0, s[at + 2..end]), end))
  }

  /** What the session makes of a message after those before it: false closes. */
  type Judge = (seq<Message>, Message) -> bool

  /** The bytes retained and the messages taken; closing drops the bytes. */
  datatype Chain = Chain(tail: seq<byte>, taken: seq<Message>, closed: bool)

  function Drain(f: Flavor, ok: Judge, c: Chain): Chain
    decreases |c.tail|
  {
    var w := Whole(f, c.tail);
    if c.closed || w.None? then c
    else if !ok(c.taken, w.value.0) then Chain([], c.taken, true)
    else Drain(f, ok, Chain(c.tail[w.value.1..], c.taken + [w.value.0], false))
  }

  function Ingest(f: Flavor, ok: Judge, c: Chain, data: seq<byte>): Chain
  {
    if c.closed then c else Drain(f, ok, c.(tail := c.tail + data))
  }

  const FRESH := Chain([], [], false)

  // ---- integers -------------------------------------------------------------

  /** `k` digits to base 256, and what is left of `v` above them. */
  function Digits(v: nat, k: nat): (s: seq<byte>)
    ensures |s| == k
  {
    if k == 0 then [] else Digits(v / 256, k - 1) + [v % 256]
  }

  function Above(v: nat, k: nat): nat { if k == 0 then v else Above(v / 256, k - 1) }

  /** The first bytes of integers `n` bytes wide: from `tag`, `space` of them. */
  function Tag(f: Flavor, n: nat): Option<(nat, nat)>
  {
    match f
    case Rfc9000 =>
      if n == 1 then Some((0x00, 64)) else if n == 2 then Some((0x40, 64)) else if n == 4 then Some((0x80, 64))
      else if n == 8 then Some((0xC0, 64)) else None
    case Vi64 =>
      if n == 1 then Some((0x00, 128)) else if n == 2 then Some((0x80, 64)) else if n == 3 then Some((0xC0, 32))
      else if n == 4 then Some((0xE0, 16)) else if n == 5 then Some((0xF0, 8)) else if n == 6 then Some((0xF8, 4))
      else if n == 7 then Some((0xFC, 2)) else if n == 8 then Some((0xFE, 1)) else if n == 9 then Some((0xFF, 1))
      else None
  }

  /** `v` written `n` bytes wide, where it fits. */
  function Written(f: Flavor, v: nat, n: nat): Option<seq<byte>>
  {
    var tag := Tag(f, n);
    if tag.None? || Above(v, n - 1) >= tag.value.1 then None
    else
      var first: nat := tag.value.0 + Above(v, n - 1);
      if first < 256 then Some([first] + Digits(v, n - 1)) else None
  }

  lemma {:induction false} BigDigits(v: nat, k: nat)
    ensures Big(Above(v, k), Digits(v, k)) == v
  {
    if k > 0 {
      BigDigits(v / 256, k - 1);
      BigStep(Above(v, k), Digits(v / 256, k - 1), v % 256);
    }
  }

  lemma BigStep(lead: nat, s: seq<byte>, last: byte)
    ensures Big(lead, s + [last]) == 256 * Big(lead, s) + last as int
  {
    assert (s + [last])[..|s|] == s;
  }

  /** Every integer, at every width it fits, is read back with its width. */
  lemma WrittenIsRead(f: Flavor, v: nat, n: nat, more: seq<byte>)
    requires Written(f, v, n).Some?
    ensures Pull(f, Written(f, v, n).value + more) == Some((v, n))
  {
    var s, lead := Written(f, v, n).value, Above(v, n - 1);
    FirstByte(f, n, lead);
    BigDigits(v, n - 1);
    hide Big, Digits, Above, Width, Lead, Tag;
    assert s[1..n] == Digits(v, n - 1);
    PullStable(f, s, more);
  }

  lemma FirstByte(f: Flavor, n: nat, lead: nat)
    requires Tag(f, n).Some? && lead < Tag(f, n).value.1
    ensures var first := Tag(f, n).value.0 + lead;
            first < 256 && Width(f, first) == n && Lead(f, first) == lead
  {
  }

  // ---- more bytes change nothing already decided ------------------------------

  lemma PullStable(f: Flavor, s: seq<byte>, more: seq<byte>)
    requires Pull(f, s).Some?
    ensures Pull(f, s + more) == Pull(f, s)
  {
    var n := Width(f, s[0]);
    assert (s + more)[1..n] == s[1..n];
  }

  lemma WholeStable(f: Flavor, s: seq<byte>, more: seq<byte>)
    requires Whole(f, s).Some?
    ensures Whole(f, s + more) == Whole(f, s)
    ensures (s + more)[Whole(f, s).value.1..] == s[Whole(f, s).value.1..] + more
  {
    PullStable(f, s, more);
    var at := Pull(f, s).value.1;
    var end := Whole(f, s).value.1;
    assert (s + more)[at + 2..end] == s[at + 2..end];
  }

  lemma {:induction false} DrainMore(f: Flavor, ok: Judge, c: Chain, more: seq<byte>)
    ensures Ingest(f, ok, Drain(f, ok, c), more) == Ingest(f, ok, c, more)
    decreases |c.tail|
  {
    hide Whole;
    var w := Whole(f, c.tail);
    if !c.closed && w.Some? {
      WholeStable(f, c.tail, more);
      if ok(c.taken, w.value.0) {
        DrainMore(f, ok, Chain(c.tail[w.value.1..], c.taken + [w.value.0], false), more);
      }
    }
  }

  function Joined(chunks: seq<seq<byte>>): seq<byte>
  {
    if chunks == [] then [] else chunks[0] + Joined(chunks[1..])
  }

  function IngestAll(f: Flavor, ok: Judge, c: Chain, chunks: seq<seq<byte>>): Chain
    decreases chunks
  {
    if chunks == [] then c else IngestAll(f, ok, Ingest(f, ok, c, chunks[0]), chunks[1..])
  }

  lemma DrainTwice(f: Flavor, ok: Judge, c: Chain, a: seq<byte>, b: seq<byte>)
    ensures Ingest(f, ok, Ingest(f, ok, c, a), b) == Ingest(f, ok, c, a + b)
  {
    hide Drain, Whole;
    if !c.closed {
      DrainMore(f, ok, c.(tail := c.tail + a), b);
      assert (c.tail + a) + b == c.tail + (a + b);
    }
  }

  /** A chain at rest holds no whole message. */
  ghost predicate AtRest(f: Flavor, c: Chain) { c.closed || Whole(f, c.tail).None? }

  lemma {:induction false} DrainRests(f: Flavor, ok: Judge, c: Chain)
    ensures AtRest(f, Drain(f, ok, c))
    decreases |c.tail|
  {
    hide Whole;
    var w := Whole(f, c.tail);
    if !c.closed && w.Some? && ok(c.taken, w.value.0) {
      DrainRests(f, ok, Chain(c.tail[w.value.1..], c.taken + [w.value.0], false));
    }
  }

  /** However a stream is cut into chunks, the messages taken, the tail retained
      and the close come out as if it had come whole. */
  lemma {:induction false} ChunksDoNotMatter(f: Flavor, ok: Judge, c: Chain, chunks: seq<seq<byte>>)
    requires AtRest(f, c)
    ensures IngestAll(f, ok, c, chunks) == Ingest(f, ok, c, Joined(chunks))
    decreases chunks
  {
    hide Whole;
    if chunks == [] {
      assert c.tail + [] == c.tail;
    } else {
      var c' := Ingest(f, ok, c, chunks[0]);
      if !c.closed { DrainRests(f, ok, c.(tail := c.tail + chunks[0])); }
      ChunksDoNotMatter(f, ok, c', chunks[1..]);
      DrainTwice(f, ok, c, chunks[0], Joined(chunks[1..]));
    }
  }

  /** The FIN verdict: the stream ended inside a message. */
  predicate Truncated(c: Chain) { !c.closed && c.tail != [] }

  /** The chain of one stream, fed chunk by chunk. */
  class StreamReader {
    const flavor: Flavor
    const ok: Judge
    var chain: seq<byte>
    var taken: seq<Message>
    var closed: bool

    function View(): Chain
      reads this
    {
      Chain(chain, taken, closed)
    }

    constructor (flavor: Flavor, ok: Judge)
      ensures View() == FRESH && this.flavor == flavor && this.ok == ok
    {
      this.flavor, this.ok, chain, taken, closed := flavor, ok, [], [], false;
    }

    /** Take every whole message; a partial one waits, unless the stream has ended. */
    method OnControlData(data: seq<byte>, fin: bool) returns (truncated: bool)
      modifies this
      ensures View() == Ingest(flavor, ok, old(View()), data)
      ensures truncated <==> fin && Truncated(View())
    {
      if closed { return false; }
      chain := chain + data;
      ghost var all := View();
      while chain != []
        invariant !closed && Drain(flavor, ok, View()) == Drain(flavor, ok, all)
        decreases |chain|
      {
        var w := Whole(flavor, chain);
        if w.None? { return fin; }
        if !ok(taken, w.value.0) {
          chain, closed := [], true;
          return false;
        }
        chain, taken := chain[w.value.1..], taken + [w.value.0];
      }
      return false;
    }
  }

  // ---- frames ------------------------------------------------------------------------

  /** A message as it is written: its type `width` bytes wide, the length of its
      body in two bytes, the greater first, and the body. */
  function Frame(f: Flavor, m: Message, width: nat): Option<seq<byte>>
  {
    var kind := Written(f, m.kind, width);
    if kind.None? || |m.body| >= 0x10000 then None
    else Some(kind.value + [|m.body| / 256, |m.body| % 256] + m.body)
  }

  /** What is read of an integer is all that was written of it. */
  lemma {:induction false} DigitsBig(lead: nat, s: seq<byte>)
    ensures Above(Big(lead, s), |s|) == lead && Digits(Big(lead, s), |s|) == s
  {
    if s != [] {
      var init, last := s[..|s| - 1], s[|s| - 1];
      DigitsBig(lead, init);
      assert s == init + [last];
      assert Big(lead, s) / 256 == Big(lead, init) && Big(lead, s) % 256 == last;
    }
  }

  lemma FirstIs(f: Flavor, first: byte)
    ensures var tag := Tag(f, Width(f, first));
            tag.Some? && Lead(f, first) < tag.value.1 && tag.value.0 + Lead(f, first) == first
  {
  }

  lemma ReadIsWritten(f: Flavor, s: seq<byte>)
    requires Pull(f, s).Some?
    ensures var r := Pull(f, s).value; r.1 <= |s| && Written(f, r.0, r.1) == Some(s[..r.1])
  {
    hide Width, Lead, Tag, Big, Digits, Above;
    var n := Width(f, s[0]);
    FirstIs(f, s[0]);
    DigitsBig(Lead(f, s[0]), s[1..n]);
    assert s[..n] == [s[0]] + s[1..n];
  }

  lemma WrittenLength(f: Flavor, v: nat, n: nat)
    ensures Written(f, v, n).Some? ==> n > 0 && |Written(f, v, n).value| == n
  {
  }

  /** A frame, whatever follows it, is read as its message and its own length. */
  lemma FrameIsRead(f: Flavor, m: Message, width: nat, more: seq<byte>)
    requires Frame(f, m, width).Some?
    ensures var s := Frame(f, m, width).value; Whole(f, s + more) == Some((m, |s|)) && (s + more)[|s|..] == more
  {
    hide Written, Pull;
    var kind, s := Written(f, m.kind, width).value, Frame(f, m, width).value;
    var len := [|m.body| / 256, |m.body| % 256];
    WrittenLength(f, m.kind, width);
    WrittenIsRead(f, m.kind, width, len + m.body + more);
    FrameParts(kind, len, m.body, more);
  }

  lemma FrameParts(kind: seq<byte>, len: seq<byte>, body: seq<byte>, more: seq<byte>)
    requires |len| == 2
    ensures var s, n := kind + len + body, |kind|;
            && s + more == kind + (len + body + more) && (s + more)[n] == len[0] && (s + more)[n + 1] == len[1]
            && (s + more)[n + 2..|s|] == body && (s + more)[|s|..] == more
  {
  }

  /** And what is read as a message is a frame of it. */
  lemma ReadIsFrame(f: Flavor, s: seq<byte>) returns (width: nat)
    requires Whole(f, s).Some?
    ensures var w := Whole(f, s).value; w.1 <= |s| && Frame(f, w.0, width) == Some(s[..w.1])
  {
    hide Written, Pull;
    width := Pull(f, s).value.1;
    ReadIsWritten(f, s);
    var m, end := Whole(f, s).value.0, Whole(f, s).value.1;
    assert m.body == s[width + 2..end] && |m.body| == 256 * (s[width] as int) + s[width + 1];
    assert s[..end] == s[..width] + [s[width], s[width + 1]] + m.body;
  }

  /** The bytes begin with no frame. */
  ghost predicate Unframed(f: Flavor, s: seq<byte>)
  {
    forall m, width, k: nat :: k <= |s| ==> Frame(f, m, width) != Some(s[..k])
  }

  lemma UnframedIff(f: Flavor, s: seq<byte>)
    ensures Unframed(f, s) <==> Whole(f, s).None?
  {
    hide Frame, Whole;
    if Whole(f, s).Some? {
      var width := ReadIsFrame(f, s);
    }
    forall m, width, k: nat | k <= |s| && Frame(f, m, width) == Some(s[..k])
      ensures Whole(f, s).Some?
    {
      FrameIsRead(f, m, width, s[k..]);
      assert s[..k] + s[k..] == s;
    }
  }

  // ---- what parsing makes of a stream ---------------------------------------------

  /** The bytes are frames of these messages, and then `tail`. */
  ghost predicate Spells(f: Flavor, s: seq<byte>, messages: seq<Message>, tail: seq<byte>)
    decreases |messages|
  {
    if messages == [] then s == tail
    else
      exists width, k: nat ::
        k <= |s| && Frame(f, messages[0], width) == Some(s[..k]) && Spells(f, s[k..], messages[1..], tail)
  }

  /** The messages up to the first that the session refuses. */
  function Accepted(ok: Judge, taken: seq<Message>, messages: seq<Message>): seq<Message>
    decreases messages
  {
    if messages == [] || !ok(taken, messages[0]) then taken
    else Accepted(ok, taken + [messages[0]], messages[1..])
  }

  /** Frames in a row come out as just their messages, up to one refused, which
      closes; what follows them, when no frame begins it, is retained. */
  lemma {:induction false} FramesAreTaken(f: Flavor, ok: Judge, taken: seq<Message>, s: seq<byte>,
                                          messages: seq<Message>, tail: seq<byte>)
    requires Spells(f, s, messages, tail) && Unframed(f, tail)
    ensures var all := Accepted(ok, taken, messages);
            Drain(f, ok, Chain(s, taken, false))
            == if all == taken + messages then Chain(tail, all, false) else Chain([], all, true)
    decreases |messages|
  {
    hide Whole, Frame, Unframed;
    if messages == [] {
      UnframedIff(f, tail);
      assert taken + [] == taken;
    } else {
      var width, k: nat :| k <= |s| && Frame(f, messages[0], width) == Some(s[..k])
                           && Spells(f, s[k..], messages[1..], tail);
      FrameIsRead(f, messages[0], width, s[k..]);
      assert s[..k] + s[k..] == s;
      if ok(taken, messages[0]) {
        FramesAreTaken(f, ok, taken + [messages[0]], s[k..], messages[1..], tail);
        assert taken + [messages[0]] + messages[1..] == taken + messages;
      } else {
        assert |taken| < |taken + messages|;
      }
    }
  }

  /** So what a peer frames is what the session takes, however it arrives. */
  lemma ReceivedIsSent(f: Flavor, ok: Judge, chunks: seq<seq<byte>>, messages: seq<Message>, tail: seq<byte>)
    requires Spells(f, Joined(chunks), messages, tail) && Unframed(f, tail)
    ensures var all := Accepted(ok, [], messages);
            IngestAll(f, ok, FRESH, chunks) == if all == messages then Chain(tail, all, false) else Chain([], all, true)
    ensures Truncated(IngestAll(f, ok, FRESH, chunks)) <==> Accepted(ok, [], messages) == messages && tail != []
  {
    hide Whole, Drain, Spells, Unframed, IngestAll, Joined, Accepted;
    EmptyRests(f);
    ChunksDoNotMatter(f, ok, FRESH, chunks);
    assert [] + Joined(chunks) == Joined(chunks) && [] + messages == messages;
    FramesAreTaken(f, ok, [], Joined(chunks), messages, tail);
  }

  lemma EmptyRests(f: Flavor)
    ensures AtRest(f, FRESH)
  {
  }

  /** Every byte is accounted for: the stream is frames of the messages taken, in
      order, and a tail that no frame begins. */
  lemma {:induction false} NothingSkipped(f: Flavor, ok: Judge, c: Chain)
    requires !c.closed && !Drain(f, ok, c).closed
    ensures var r := Drain(f, ok, c);
            && |c.taken| <= |r.taken| && r.taken[..|c.taken|] == c.taken
            && Spells(f, c.tail, r.taken[|c.taken|..], r.tail) && Unframed(f, r.tail)
    decreases |c.tail|
  {
    hide Whole, Frame, Unframed;
    var w, r := Whole(f, c.tail), Drain(f, ok, c);
    if w.Some? && ok(c.taken, w.value.0) {
      var next := Chain(c.tail[w.value.1..], c.taken + [w.value.0], false);
      NothingSkipped(f, ok, next);
      assert r.taken[..|c.taken|] == r.taken[..|next.taken|][..|c.taken|];
      var more := r.taken[|c.taken|..];
      assert more[0] == r.taken[..|next.taken|][|c.taken|];
      assert more[1..] == r.taken[|next.taken|..];
      var width := ReadIsFrame(f, c.tail);
    } else {
      assert r.taken[|c.taken|..] == [];
      UnframedIff(f, c.tail);
    }
  }

  // ---- which stream it is -------------------------------------------------------------

  /** SETUP or not, by the leading bytes; None while the type is cut short. */
  function Peek(s: seq<byte>): Option<bool>
  {
    var kind := Pull(Vi64, s);
    if kind.None? then None else Some(kind.value.0 == SETUP)
  }

  /** A uni stream: undecided with what it sent so far, the control stream, or a
      data stream with the bytes handed on. */
  datatype Uni = Undecided(stash: seq<byte>) | Control(chain: Chain) | Data(bytes: seq<byte>)

  function First9(s: seq<byte>): seq<byte> { if |s| <= 9 then s else s[..9] }

  function Classify(ok: Judge, u: Uni, data: seq<byte>): Uni
  {
    match u
    case Control(chain) => Control(Ingest(Vi64, ok, chain, data))
    case Data(bytes) => Data(bytes + data)
    case Undecided(stash) =>
      var head := stash + First9(data);
      var verdict := Peek(head);
      if verdict.None? then Undecided(head)
      else if verdict.value then Control(Ingest(Vi64, ok, Ingest(Vi64, ok, FRESH, stash), data))
      else Data(stash + data)
  }

  function ClassifyAll(ok: Judge, u: Uni, chunks: seq<seq<byte>>): Uni
    decreases chunks
  {
    if chunks == [] then u else ClassifyAll(ok, Classify(ok, u, chunks[0]), chunks[1..])
  }

  /** Nine bytes always decide, so an undecided stash is all that was sent. */
  lemma UndecidedIsAll(stash: seq<byte>, data: seq<byte>)
    requires Peek(stash + First9(data)).None?
    ensures |stash + data| < 9 && stash + First9(data) == stash + data
  {
    var head := stash + First9(data);
    if head != [] { assert Width(Vi64, head[0]) <= 9; }
  }

  /** The verdict on the leading bytes is the verdict on all of them. */
  lemma PeekStable(stash: seq<byte>, data: seq<byte>)
    ensures Peek(stash + First9(data)).Some? ==> Peek(stash + data) == Peek(stash + First9(data))
  {
    var head := stash + First9(data);
    if Peek(head).Some? && |data| > 9 {
      assert stash + data == head + data[9..];
      PullStable(Vi64, head, data[9..]);
    }
  }

  /** A stream that came whole. */
  function Arrived(ok: Judge, all: seq<byte>): Uni
  {
    var verdict := Peek(all);
    if verdict.None? then Undecided(all)
    else if verdict.value then Control(Ingest(Vi64, ok, FRESH, all))
    else Data(all)
  }

  lemma ClassifyMore(ok: Judge, all: seq<byte>, data: seq<byte>)
    ensures Classify(ok, Arrived(ok, all), data) == Arrived(ok, all + data)
  {
    hide Drain;
    if Peek(all).Some? {
      PullStable(Vi64, all, data);
      DrainTwice(Vi64, ok, FRESH, all, data);
    } else {
      if Peek(all + First9(data)).None? {
        UndecidedIsAll(all, data);
      } else {
        PeekStable(all, data);
      }
      DrainTwice(Vi64, ok, FRESH, all, data);
    }
  }

  lemma {:induction false} ClassifyAllWhole(ok: Judge, all: seq<byte>, chunks: seq<seq<byte>>)
    ensures ClassifyAll(ok, Arrived(ok, all), chunks) == Arrived(ok, all + Joined(chunks))
    decreases chunks
  {
    hide Arrived, Classify;
    if chunks == [] {
      assert all + [] == all;
    } else {
      ClassifyMore(ok, all, chunks[0]);
      ClassifyAllWhole(ok, all + chunks[0], chunks[1..]);
      assert (all + chunks[0]) + Joined(chunks[1..]) == all + Joined(chunks);
    }
  }

  /** Control or data, the messages, the tail and the bytes handed to the data
      plane depend on a uni stream's bytes only. */
  lemma UniChunksDoNotMatter(ok: Judge, chunks: seq<seq<byte>>)
    ensures ClassifyAll(ok, Undecided([]), chunks) == Arrived(ok, Joined(chunks))
  {
    ClassifyAllWhole(ok, [], chunks);
    assert [] + Joined(chunks) == Joined(chunks);
  }

  /** Which it is goes by the type it begins with, however that is written and cut up:
      SETUP's is the control stream, any other's goes to the data plane whole. */
  lemma UniGoesByType(ok: Judge, chunks: seq<seq<byte>>, kind: nat, width: nat, more: seq<byte>)
    requires Written(Vi64, kind, width).Some? && Joined(chunks) == Written(Vi64, kind, width).value + more
    ensures ClassifyAll(ok, Undecided([]), chunks)
            == if kind == SETUP then Control(Ingest(Vi64, ok, FRESH, Joined(chunks))) else Data(Joined(chunks))
  {
    hide Written, Pull, Joined, ClassifyAll, Ingest;
    UniChunksDoNotMatter(ok, chunks);
    WrittenIsRead(Vi64, kind, width, more);
  }

  /** And it is undecided just while no whole type has come. */
  lemma UniUndecidedIff(ok: Judge, chunks: seq<seq<byte>>)
    ensures ClassifyAll(ok, Undecided([]), chunks).Undecided?
            <==> forall kind, width, k: nat :: k <= |Joined(chunks)| ==>
                   Written(Vi64, kind, width) != Some(Joined(chunks)[..k])
  {
    hide Written, Pull, Joined, ClassifyAll, Ingest;
    UniChunksDoNotMatter(ok, chunks);
    var s := Joined(chunks);
    if Pull(Vi64, s).Some? { ReadIsWritten(Vi64, s); }
    forall kind, width, k: nat | k <= |s| && Written(Vi64, kind, width) == Some(s[..k])
      ensures Pull(Vi64, s).Some?
    {
      WrittenIsRead(Vi64, kind, width, s[k..]);
      assert s[..k] + s[k..] == s;
    }
  }

  // ---- before the draft is known ----------------------------------------------------------

  /** Held while the draft is unsettled, or routed under the settled one. */
  datatype Stream = Held(bytes: seq<byte>, fin: bool) | Routed(u: Uni, fin: bool)

  datatype Event = Chunk(data: seq<byte>, fin: bool) | Settle

  function Arrive(ok: Judge, s: Stream, ev: Event): Stream
  {
    match s
    case Held(bytes, fin) =>
      (match ev
       case Chunk(data, end) => Held(bytes + data, fin || end)
       case Settle => Routed(Classify(ok, Undecided([]), bytes), fin))
    case Routed(u, fin) =>
      (match ev
       case Chunk(data, end) => Routed(Classify(ok, u, data), fin || end)
       case Settle => s)
  }

  function ArriveAll(ok: Judge, s: Stream, evs: seq<Event>): Stream
    decreases evs
  {
    if evs == [] then s else ArriveAll(ok, Arrive(ok, s, evs[0]), evs[1..])
  }

  function Sent(evs: seq<Event>): seq<byte>
  {
    if evs == [] then [] else (if evs[0].Chunk? then evs[0].data else []) + Sent(evs[1..])
  }

  function Finned(evs: seq<Event>): bool { exists i :: 0 <= i < |evs| && evs[i].Chunk? && evs[i].fin }

  /** Where a stream with these bytes is. */
  function Placed(ok: Judge, settled: bool, all: seq<byte>, fin: bool): Stream
  {
    if settled then Routed(Arrived(ok, all), fin) else Held(all, fin)
  }

  lemma {:induction false} ArriveAllPlaced(ok: Judge, settled: bool, all: seq<byte>, fin: bool, evs: seq<Event>)
    ensures ArriveAll(ok, Placed(ok, settled, all, fin), evs)
            == Placed(ok, settled || Settle in evs, all + Sent(evs), fin || Finned(evs))
    decreases evs
  {
    hide Arrived, Classify;
    if evs == [] {
      assert all + [] == all;
    } else {
      var ev, rest := evs[0], evs[1..];
      assert evs == [ev] + rest;
      var data, end := if ev.Chunk? then ev.data else [], ev.Chunk? && ev.fin;
      var settled' := settled || ev.Settle?;
      if settled { ClassifyMore(ok, all, data); } else { FromHeld(ok, all); }
      assert all + [] == all;
      assert Arrive(ok, Placed(ok, settled, all, fin), ev) == Placed(ok, settled', all + data, fin || end);
      ArriveAllPlaced(ok, settled', all + data, fin || end, rest);
      assert (all + data) + Sent(rest) == all + Sent(evs);
      assert Finned(evs) <==> end || Finned(rest) by {
        if Finned(rest) {
          var i :| 0 <= i < |rest| && rest[i].Chunk? && rest[i].fin;
          assert evs[i + 1].fin;
        }
        if end { assert evs[0].fin; }
      }
    }
  }

  lemma FromHeld(ok: Judge, all: seq<byte>)
    ensures Classify(ok, Undecided([]), all) == Arrived(ok, all)
  {
    hide Drain, Ingest, Classify, Width, Big, Lead;
    assert Arrived(ok, []) == Undecided([]);
    ClassifyMore(ok, [], all);
    assert [] + all == all;
  }

  /** Whatever of a stream came before the draft was settled, and however it was
      cut up, once settled the stream is what its bytes and its FIN make it. */
  lemma HoldDoesNotMatter(ok: Judge, evs: seq<Event>)
    requires Settle in evs
    ensures ArriveAll(ok, Held([], false), evs) == Routed(Arrived(ok, Sent(evs)), Finned(evs))
  {
    ArriveAllPlaced(ok, false, [], false, evs);
    assert [] + Sent(evs) == Sent(evs);
  }

  // ---- bidi streams ---------------------------------------------------------------------------

  /** A control or request stream of either encoding: held, or read message by
      message once the draft is settled. */
  datatype Bidi = Waiting(bytes: seq<byte>, fin: bool) | Reading(chain: Chain, fin: bool)

  function Read(f: Flavor, ok: Judge, s: Bidi, ev: Event): Bidi
  {
    match s
    case Waiting(bytes, fin) =>
      (match ev
       case Chunk(data, end) => Waiting(bytes + data, fin || end)
       case Settle => Reading(Ingest(f, ok, FRESH, bytes), fin))
    case Reading(chain, fin) =>
      (match ev
       case Chunk(data, end) => Reading(Ingest(f, ok, chain, data), fin || end)
       case Settle => s)
  }

  function ReadAll(f: Flavor, ok: Judge, s: Bidi, evs: seq<Event>): Bidi
    decreases evs
  {
    if evs == [] then s else ReadAll(f, ok, Read(f, ok, s, evs[0]), evs[1..])
  }

  function Stands(f: Flavor, ok: Judge, settled: bool, all: seq<byte>, fin: bool): Bidi
  {
    if settled then Reading(Ingest(f, ok, FRESH, all), fin) else Waiting(all, fin)
  }

  lemma ReadMore(f: Flavor, ok: Judge, settled: bool, all: seq<byte>, fin: bool, ev: Event)
    ensures var data, end := if ev.Chunk? then ev.data else [], ev.Chunk? && ev.fin;
            Read(f, ok, Stands(f, ok, settled, all, fin), ev)
            == Stands(f, ok, settled || ev.Settle?, all + data, fin || end)
  {
    hide Drain, Ingest;
    assert all + [] == all;
    if ev.Chunk? { DrainTwice(f, ok, FRESH, all, ev.data); }
  }

  lemma FinnedStep(evs: seq<Event>)
    requires evs != []
    ensures Finned(evs) <==> (evs[0].Chunk? && evs[0].fin) || Finned(evs[1..])
    ensures Settle in evs <==> evs[0].Settle? || Settle in evs[1..]
  {
    assert evs == [evs[0]] + evs[1..];
    if Finned(evs[1..]) {
      var i :| 0 <= i < |evs[1..]| && evs[1..][i].Chunk? && evs[1..][i].fin;
      assert evs[i + 1].fin;
    }
  }

  lemma {:induction false} ReadAllStands(f: Flavor, ok: Judge, settled: bool, all: seq<byte>, fin: bool,
                                         evs: seq<Event>)
    ensures ReadAll(f, ok, Stands(f, ok, settled, all, fin), evs)
            == Stands(f, ok, settled || Settle in evs, all + Sent(evs), fin || Finned(evs))
    decreases evs
  {
    hide Stands, Read, Finned, Sent;
    if evs == [] {
      NothingSent(all);
    } else {
      var ev := evs[0];
      var data, end := if ev.Chunk? then ev.data else [], ev.Chunk? && ev.fin;
      ReadMore(f, ok, settled, all, fin, ev);
      FinnedStep(evs);
      SentStep(all, evs);
      ReadAllStands(f, ok, settled || ev.Settle?, all + data, fin || end, evs[1..]);
    }
  }

  lemma NothingSent(all: seq<byte>)
    ensures all + Sent([]) == all && !Finned([])
  {
  }

  lemma SentStep(all: seq<byte>, evs: seq<Event>)
    requires evs != []
    ensures (all + if evs[0].Chunk? then evs[0].data else []) + Sent(evs[1..]) == all + Sent(evs)
  {
    Regroup(all, if evs[0].Chunk? then evs[0].data else [], Sent(evs[1..]));
  }

  /** The same for bidi control and request streams, in either encoding: the
      messages, the tail and the truncated-at-FIN verdict are those of the bytes. */
  lemma HoldDoesNotMatterForBidi(f: Flavor, ok: Judge, evs: seq<Event>)
    requires Settle in evs
    ensures ReadAll(f, ok, Waiting([], false), evs) == Reading(Ingest(f, ok, FRESH, Sent(evs)), Finned(evs))
  {
    hide Finned, Ingest;
    ReadAllStands(f, ok, false, [], false, evs);
    assert [] + Sent(evs) == Sent(evs);
  }
}
