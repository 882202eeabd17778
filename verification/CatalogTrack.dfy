/** The catalog track: what the emitter appends to an open group, and what a
    subscriber makes of the objects, duplicates and all. */
module CatalogTrack {
  import opened Basics
  import opened Catalogs

  /** One catalog object: a whole catalog as Object 0 of a group, else a delta. */
  datatype Object = Object(group: nat, id: nat, payload: Catalog)

  predicate Before(a: Object, b: Object) { a.group < b.group || (a.group == b.group && a.id < b.id) }

  /** What a parser takes: a delta, or a catalog of a version it knows. */
  predicate Parses(c: Catalog, known: set<string>) { IsDelta(c) || (c.version.Some? && c.version.value in known) }

  // ---- the emitter -------------------------------------------------------------

  datatype Update = Resume | Publish(c: Catalog)

  /** The publisher and its one emitter; `failed` once an update did not apply,
      `from` the place of the last Object 0 among those sent. */
  datatype Emitter = Emitter(catalog: Catalog, serving: bool, forward: bool, canAppend: bool, failed: bool,
                             nextGroup: nat, nextId: nat, queue: seq<Update>, sent: seq<Object>, from: nat)

  /** The update becomes part of the current catalog. */
  function Fold(e: Emitter, u: Catalog): Emitter
  {
    if IsDelta(u) then
      var (c, ok) := Apply(e.catalog, u);
      e.(catalog := c, failed := !ok)
    else e.(catalog := u)
  }

  /** The current catalog opens a group. */
  function EmitCatalog(e: Emitter): Emitter
  {
    e.(sent := e.sent + [Object(e.nextGroup, 0, e.catalog)], nextGroup := e.nextGroup + 1, nextId := 1,
       canAppend := true, from := |e.sent|)
  }

  function EmitDelta(e: Emitter, u: Catalog): Emitter
  {
    if e.nextGroup == 0 then e
    else e.(sent := e.sent + [Object(e.nextGroup - 1, e.nextId, u)], nextId := e.nextId + 1)
  }

  /** The emitter ends when an update fails to apply. */
  function Stopped(e: Emitter): Emitter { e.(serving := false, canAppend := false) }

  /** One turn of the emitter, with `u` off the queue. */
  function Turn(e: Emitter, u: Update): Emitter
  {
    match u
    case Resume => if e.forward then EmitCatalog(e) else e
    case Publish(c) =>
      if !e.forward then
        var f := Fold(e, c);
        if f.failed then Stopped(f) else f.(canAppend := false)
      else if IsDelta(c) && e.canAppend then
        var f := Fold(EmitDelta(e, c), c);
        if f.failed then Stopped(f) else f
      else
        var f := Fold(e, c);
        if f.failed then Stopped(f) else EmitCatalog(f)
  }

  datatype Event = Queue(c: Catalog) | SetForward(forward: bool) | Serve | Take | Cancel

  /** Catalogs handed over are ones a subscriber can parse. */
  predicate Enabled(e: Emitter, ev: Event, known: set<string>)
  {
    match ev
    case Queue(c) => Parses(c, known)
    case Take => e.serving && e.queue != []
    case _ => true
  }

  function Step(e: Emitter, ev: Event): Emitter
  {
    match ev
    case Queue(c) =>
      if e.serving || IsDelta(c) then e.(queue := e.queue + [Publish(c)]) else e.(queue := [], catalog := c)
    case SetForward(forward) =>
      var resumed := forward && !e.forward && e.serving;
      e.(forward := forward, queue := if resumed then e.queue + [Resume] else e.queue)
    case Serve =>
      var s := e.(serving := true, canAppend := false, failed := false);
      if e.forward then EmitCatalog(s) else s
    case Take =>
      if e.serving && e.queue != [] then Turn(e.(queue := e.queue[1..]), e.queue[0]) else e
    case Cancel => Stopped(e)
  }

  // ---- a subscriber ---------------------------------------------------------------

  datatype Subscriber = Subscriber(catalog: Option<Catalog>, at: Option<(nat, nat)>)

  predicate Past(at: Option<(nat, nat)>, o: Object)
  {
    at.None? || at.value.0 < o.group || (at.value.0 == o.group && at.value.1 < o.id)
  }

  function Receive(s: Subscriber, o: Object, known: set<string>): Subscriber
  {
    if !Past(s.at, o) || !Parses(o.payload, known) then s
    else if !IsDelta(o.payload) then Subscriber(Some(o.payload), Some((o.group, o.id)))
    else if s.catalog.None? then s
    else
      var (c, ok) := Apply(s.catalog.value, o.payload);
      if ok then Subscriber(Some(c), Some((o.group, o.id))) else s.(catalog := Some(c))
  }

  function ReceiveAll(s: Subscriber, os: seq<Object>, known: set<string>): Subscriber
  {
    if os == [] then s else Receive(ReceiveAll(s, os[..|os| - 1], known), os[|os| - 1], known)
  }

  // ---- convergence -------------------------------------------------------------------

  /** The catalog a group's objects make: Object 0 with the deltas after it. */
  function Replay(os: seq<Object>): Option<Catalog>
  {
    if os == [] then None
    else if |os| == 1 then Some(os[0].payload)
    else
      var init := Replay(os[..|os| - 1]);
      if init.None? then None
      else
        var (c, ok) := Apply(init.value, os[|os| - 1].payload);
        if ok then Some(c) else None
  }

  ghost predicate Ascends(os: seq<Object>) { forall i, j :: 0 <= i < j < |os| ==> Before(os[i], os[j]) }

  /** From `from` on, `os` is one group: a whole catalog and deltas that apply. */
  ghost predicate OneGroup(os: seq<Object>, from: nat, known: set<string>)
  {
    && from < |os| && !IsDelta(os[from].payload) && os[from].id == 0
    && (forall i :: from <= i < |os| ==> Parses(os[i].payload, known) && os[i].group == os[from].group)
    && (forall i :: from < i < |os| ==> IsDelta(os[i].payload))
    && Replay(os[from..]).Some?
  }

  ghost predicate EmitterOk(e: Emitter, known: set<string>)
  {
    && !IsDelta(e.catalog) && Parses(e.catalog, known) && Ascends(e.sent)
    && (forall u :: u in e.queue && u.Publish? ==> Parses(u.c, known))
    && (forall o :: o in e.sent ==> o.group < e.nextGroup && (o.group == e.nextGroup - 1 ==> o.id < e.nextId))
    && (e.canAppend ==>
          && e.serving && OneGroup(e.sent, e.from, known) && e.sent[e.from].group == e.nextGroup - 1
          && Replay(e.sent[e.from..]) == Some(e.catalog))
  }

  lemma ApplyKeepsRoot(c: Catalog, u: Catalog)
    ensures var r := Apply(c, u).0; r.delta == c.delta && r.version == c.version
  {
    hide Ops;
  }

  lemma EmitCatalogOk(e: Emitter, known: set<string>)
    requires EmitterOk(e, known) && e.serving
    ensures EmitterOk(EmitCatalog(e), known)
  {
    var r := EmitCatalog(e);
    hide Apply, Parses;
    var o := Object(e.nextGroup, 0, e.catalog);
    assert r.sent[r.from..] == [o];
    assert Replay([o]) == Some(e.catalog);
    hide Replay;
    assert forall i :: 0 <= i < |e.sent| ==> e.sent[i] in e.sent;
  }

  lemma FoldOk(e: Emitter, u: Catalog, known: set<string>)
    requires EmitterOk(e, known) && Parses(u, known)
    ensures EmitterOk(Fold(e, u).(canAppend := false), known)
  {
    hide Apply, Replay, Ascends;
    ApplyKeepsRoot(e.catalog, u);
  }

  /** One delta more of a group. */
  lemma OneGroupMore(os: seq<Object>, from: nat, o: Object, c: Catalog, known: set<string>)
    requires OneGroup(os, from, known) && Replay(os[from..]) == Some(c)
    requires IsDelta(o.payload) && o.group == os[from].group && Apply(c, o.payload).1
    ensures OneGroup(os + [o], from, known) && Replay((os + [o])[from..]) == Some(Apply(c, o.payload).0)
  {
    hide Apply;
    var was, now := os[from..], (os + [o])[from..];
    assert now == was + [o] && now[..|now| - 1] == was;
  }

  /** A delta the catalog takes, appended to the group that made the catalog. */
  lemma AppendOk(e: Emitter, u: Catalog, known: set<string>)
    requires EmitterOk(e, known) && e.canAppend && IsDelta(u) && Apply(e.catalog, u).1
    ensures EmitterOk(Fold(EmitDelta(e, u), u), known)
  {
    hide Apply, Replay, OneGroup;
    ApplyKeepsRoot(e.catalog, u);
    GroupStarts(e.sent, e.from, known);
    assert e.sent[e.from] in e.sent;
    OneGroupMore(e.sent, e.from, Object(e.nextGroup - 1, e.nextId, u), e.catalog, known);
    assert forall i :: 0 <= i < |e.sent| ==> e.sent[i] in e.sent;
  }

  lemma GroupStarts(os: seq<Object>, from: nat, known: set<string>)
    requires OneGroup(os, from, known)
    ensures from < |os|
  {
  }

  lemma AppendFails(e: Emitter, u: Catalog, known: set<string>)
    requires EmitterOk(e, known) && e.canAppend && IsDelta(u)
    ensures EmitterOk(Fold(EmitDelta(e, u), u).(canAppend := false), known)
  {
    hide Apply, Replay, OneGroup;
    ApplyKeepsRoot(e.catalog, u);
    assert forall i :: 0 <= i < |e.sent| ==> e.sent[i] in e.sent;
  }

  lemma TurnOk(e: Emitter, u: Update, known: set<string>)
    requires EmitterOk(e, known) && e.serving && (u.Publish? ==> Parses(u.c, known))
    ensures EmitterOk(Turn(e, u), known)
  {
    FieldsOk(e, known);
    hide EmitterOk, Apply, EmitCatalog, EmitDelta, Parses;
    match u
    case Resume => EmitCatalogOk(e, known);
    case Publish(c) =>
      FoldOk(e, c, known);
      var f := Fold(e, c);
      FieldsOk(f.(canAppend := false), known);
      if e.forward && IsDelta(c) && e.canAppend {
        AppendFails(e, c, known);
        FieldsOk(Fold(EmitDelta(e, c), c).(canAppend := false), known);
        if Apply(e.catalog, c).1 { AppendOk(e, c, known); }
        EmitDeltaCatalog(e, c);
      } else {
        EmitCatalogOk(f.(canAppend := false), known);
        SameEmit(f);
      }
  }

  lemma EmitDeltaCatalog(e: Emitter, u: Catalog)
    ensures EmitDelta(e, u).catalog == e.catalog
  {
  }

  lemma SameEmit(e: Emitter)
    ensures EmitCatalog(e.(canAppend := false)) == EmitCatalog(e)
  {
  }

  /** Fields the invariant does not look at, and appending given up. */
  lemma FieldsOk(e: Emitter, known: set<string>)
    requires EmitterOk(e, known)
    ensures EmitterOk(Stopped(e), known) && EmitterOk(e.(canAppend := false), known)
    ensures !e.canAppend ==>
              forall serving, failed :: EmitterOk(e.(serving := serving, failed := failed), known)
    ensures e.canAppend ==> e.serving
  {
    hide Replay, OneGroup, Ascends, Parses;
  }

  lemma StepOk(e: Emitter, ev: Event, known: set<string>)
    requires EmitterOk(e, known) && Enabled(e, ev, known)
    ensures EmitterOk(Step(e, ev), known)
  {
    FieldsOk(e, known);
    match ev
    case Queue(c) => QueueOk(e, c, known);
    case SetForward(forward) => ForwardOk(e, forward, known);
    case Serve =>
      hide EmitterOk, EmitCatalog;
      FieldsOk(e.(canAppend := false), known);
      EmitCatalogOk(e.(canAppend := false).(serving := true, failed := false), known);
    case Take =>
      DequeueOk(e, known);
      TurnOk(e.(queue := e.queue[1..]), e.queue[0], known);
    case Cancel =>
  }

  lemma QueueOk(e: Emitter, c: Catalog, known: set<string>)
    requires EmitterOk(e, known) && Parses(c, known)
    ensures EmitterOk(e.(queue := e.queue + [Publish(c)]), known)
    ensures !IsDelta(c) && !e.canAppend ==> EmitterOk(e.(queue := [], catalog := c), known)
  {
    hide Replay, OneGroup, Ascends, Parses;
  }

  lemma ForwardOk(e: Emitter, forward: bool, known: set<string>)
    requires EmitterOk(e, known)
    ensures EmitterOk(e.(forward := forward, queue := e.queue + [Resume]), known)
    ensures EmitterOk(e.(forward := forward, queue := e.queue), known)
  {
    hide Replay, OneGroup, Ascends, Parses;
  }

  lemma DequeueOk(e: Emitter, known: set<string>)
    requires EmitterOk(e, known) && e.queue != []
    ensures EmitterOk(e.(queue := e.queue[1..]), known)
    ensures e.queue[0].Publish? ==> Parses(e.queue[0].c, known)
  {
    hide Replay, OneGroup, Ascends, Parses;
    assert e.queue[0] in e.queue;
    assert forall u :: u in e.queue[1..] ==> u in e.queue;
  }

  predicate Reaches(e: Emitter, run: seq<Event>, e': Emitter, known: set<string>)
    decreases run
  {
    if run == [] then e' == e else Enabled(e, run[0], known) && Reaches(Step(e, run[0]), run[1..], e', known)
  }

  lemma {:induction false} RunOk(e: Emitter, run: seq<Event>, e': Emitter, known: set<string>)
    requires EmitterOk(e, known) && Reaches(e, run, e', known)
    ensures EmitterOk(e', known)
    decreases run
  {
    hide EmitterOk, Step, Enabled;
    if run != [] {
      StepOk(e, run[0], known);
      RunOk(Step(e, run[0]), run[1..], e', known);
    }
  }

  function New(catalog: Catalog, forward: bool): Emitter
  {
    Emitter(catalog, false, forward, false, false, 0, 0, [], [], 0)
  }

  lemma NewOk(catalog: Catalog, forward: bool, known: set<string>)
    requires !IsDelta(catalog) && Parses(catalog, known)
    ensures EmitterOk(New(catalog, forward), known)
  {
  }

  // ---- an emitter with nothing left to do ------------------------------------------------

  /** An emitter that serves and forwards either may append or is about to send the
      whole catalog. */
  predicate Forwarding(e: Emitter) { e.serving && e.forward && !e.canAppend ==> Resume in e.queue }

  lemma TurnForwards(e: Emitter, u: Update)
    requires e.serving && (e.forward && !e.canAppend ==> u.Resume? || Resume in e.queue)
    ensures Forwarding(Turn(e, u))
  {
    hide Apply;
  }

  lemma StepForwards(e: Emitter, ev: Event)
    requires Forwarding(e)
    ensures Forwarding(Step(e, ev))
  {
    hide Turn, Apply;
    if ev.Take? && e.serving && e.queue != [] {
      assert e.queue == [e.queue[0]] + e.queue[1..];
      TurnForwards(e.(queue := e.queue[1..]), e.queue[0]);
    }
  }

  lemma {:induction false} RunForwards(e: Emitter, run: seq<Event>, e': Emitter, known: set<string>)
    requires Forwarding(e) && Reaches(e, run, e', known)
    ensures Forwarding(e')
    decreases run
  {
    hide Forwarding, Step, Enabled;
    if run != [] {
      StepForwards(e, run[0]);
      RunForwards(Step(e, run[0]), run[1..], e', known);
    }
  }

  /** An emitter that serves and forwards, with nothing queued, may append. */
  lemma IdleMayAppend(catalog: Catalog, forward: bool, run: seq<Event>, e: Emitter, known: set<string>)
    requires Reaches(New(catalog, forward), run, e, known)
    requires e.serving && e.forward && e.queue == []
    ensures e.canAppend
  {
    hide Reaches;
    RunForwards(New(catalog, forward), run, e, known);
  }

  /** However the peer pauses and resumes, and whatever is folded meanwhile: when
      the emitter may append to the open group, the group's objects make the
      publisher's current catalog. */
  lemma OpenGroupMakesCatalog(catalog: Catalog, forward: bool, run: seq<Event>, e: Emitter, known: set<string>)
    requires !IsDelta(catalog) && Parses(catalog, known) && Reaches(New(catalog, forward), run, e, known)
    ensures e.canAppend ==>
              && e.from < |e.sent| && e.sent[e.from].id == 0 && !IsDelta(e.sent[e.from].payload)
              && Replay(e.sent[e.from..]) == Some(e.catalog)
    ensures Ascends(e.sent)
  {
    NewOk(catalog, forward, known);
    RunOk(New(catalog, forward), run, e, known);
    hide Replay;
  }

  // ---- what becomes of each update -----------------------------------------------------

  /** A catalog after an update: replaced, or as far as a delta applies. */
  ghost function With(c: Catalog, u: Catalog): Catalog { if IsDelta(u) then Apply(c, u).0 else u }

  ghost function WithAll(c: Catalog, us: seq<Catalog>): Catalog
  {
    if us == [] then c else With(WithAll(c, us[..|us| - 1]), us[|us| - 1])
  }

  /** The catalogs handed to the publisher, and those of them still queued. */
  ghost function Handed(run: seq<Event>): seq<Catalog>
  {
    if run == [] then [] else Handed(run[..|run| - 1]) + if Last(run).Queue? then [Last(run).c] else []
  }

  ghost function Last<T>(s: seq<T>): T
    requires s != []
  {
    s[|s| - 1]
  }

  ghost function Waiting(queue: seq<Update>): seq<Catalog>
  {
    if queue == [] then [] else (if queue[0].Publish? then [queue[0].c] else []) + Waiting(queue[1..])
  }

  /** What the catalog is once the queue is worked off. */
  ghost function Settled(e: Emitter): Catalog { WithAll(e.catalog, Waiting(e.queue)) }

  lemma {:induction false} WaitingMore(queue: seq<Update>, u: Update)
    ensures Waiting(queue + [u]) == Waiting(queue) + if u.Publish? then [u.c] else []
  {
    if queue == [] {
      assert queue + [u] == [u] && [u][1..] == [];
    } else {
      assert (queue + [u])[0] == queue[0] && (queue + [u])[1..] == queue[1..] + [u];
      WaitingMore(queue[1..], u);
    }
  }

  lemma {:induction false} WithFirst(c: Catalog, us: seq<Catalog>)
    requires us != []
    ensures WithAll(c, us) == WithAll(With(c, us[0]), us[1..])
  {
    var n := |us| - 1;
    if n > 0 {
      WithFirst(c, us[..n]);
      assert us[..n][1..] == us[1..][..n - 1] && us[1..][n - 1] == us[n];
    } else {
      assert us[..n] == [] && us[1..] == [];
    }
  }

  lemma WithLast(c: Catalog, us: seq<Catalog>, u: Catalog)
    ensures WithAll(c, us + [u]) == With(WithAll(c, us), u)
  {
    assert (us + [u])[..|us|] == us;
  }

  lemma TurnCatalog(e: Emitter, u: Update)
    ensures Turn(e, u).catalog == (if u.Publish? then With(e.catalog, u.c) else e.catalog)
    ensures Turn(e, u).queue == e.queue && Turn(e, u).forward == e.forward
  {
    hide Apply;
  }

  lemma StepSettles(e: Emitter, ev: Event)
    ensures Settled(Step(e, ev)) == if ev.Queue? then With(Settled(e), ev.c) else Settled(e)
  {
    hide Turn, With, WithAll, Waiting;
    NoneWaiting();
    match ev
    case Queue(c) =>
      WaitingMore(e.queue, Publish(c));
      WithLast(e.catalog, Waiting(e.queue), c);
      WithWhole(Settled(e), c);
    case SetForward(_) =>
      WaitingMore(e.queue, Resume);
      assert Waiting(e.queue) + [] == Waiting(e.queue);
    case Take =>
      if e.serving && e.queue != [] {
        TurnCatalog(e.(queue := e.queue[1..]), e.queue[0]);
        TookOne(e.catalog, e.queue);
      }
    case _ =>
  }

  lemma NoneWaiting()
    ensures Waiting([]) == [] && forall c :: WithAll(c, []) == c
  {
  }

  lemma WithWhole(c: Catalog, u: Catalog)
    ensures !IsDelta(u) ==> With(c, u) == u
  {
  }

  lemma TookOne(c: Catalog, queue: seq<Update>)
    requires queue != []
    ensures WithAll(c, Waiting(queue))
            == WithAll(if queue[0].Publish? then With(c, queue[0].c) else c, Waiting(queue[1..]))
  {
    hide With, WithAll;
    var rest := Waiting(queue[1..]);
    if queue[0].Publish? {
      assert Waiting(queue)[0] == queue[0].c && Waiting(queue)[1..] == rest;
      WithFirst(c, Waiting(queue));
    } else {
      assert Waiting(queue) == rest;
    }
  }

  lemma {:induction false} ReachesLast(e: Emitter, run: seq<Event>, e': Emitter, known: set<string>)
    returns (m: Emitter)
    requires run != [] && Reaches(e, run, e', known)
    ensures Reaches(e, run[..|run| - 1], m, known) && e' == Step(m, Last(run)) && Enabled(m, Last(run), known)
    decreases run
  {
    hide Step, Enabled;
    var n := |run| - 1;
    if n == 0 {
      m := e;
      assert run[..n] == [];
    } else {
      m := ReachesLast(Step(e, run[0]), run[1..], e', known);
      assert run[..n][1..] == run[1..][..n - 1] && run[..n][0] == run[0] && Last(run[1..]) == Last(run);
    }
  }

  /** No update is lost, none counts twice and none comes before an earlier one: over
      any run the catalog, with what is still queued, is the first one with all that
      was handed over since. */
  lemma {:induction false} NothingIsLost(catalog: Catalog, forward: bool, run: seq<Event>, e: Emitter,
                                         known: set<string>)
    requires Reaches(New(catalog, forward), run, e, known)
    ensures WithAll(e.catalog, Waiting(e.queue)) == WithAll(catalog, Handed(run))
    decreases |run|
  {
    hide Step, Enabled, With;
    if run != [] {
      var m := ReachesLast(New(catalog, forward), run, e, known);
      NothingIsLost(catalog, forward, run[..|run| - 1], m, known);
      StepSettles(m, Last(run));
      var handed := Handed(run[..|run| - 1]);
      if Last(run).Queue? { WithLast(catalog, handed, Last(run).c); } else { assert handed + [] == handed; }
    }
  }

  /** An emitter ends just when it is cancelled or an update does not apply. */
  lemma StopsIff(catalog: Catalog, forward: bool, run: seq<Event>, e: Emitter, ev: Event, known: set<string>)
    requires Reaches(New(catalog, forward), run, e, known) && Enabled(e, ev, known)
    ensures var fails := ev.Take? && e.queue[0].Publish? && IsDelta(e.queue[0].c) && !Apply(e.catalog, e.queue[0].c).1;
            Step(e, ev).serving <==> ev.Serve? || (e.serving && !ev.Cancel? && !fails)
  {
    hide Apply;
    NotFailed(New(catalog, forward), run, e, known);
  }

  lemma {:induction false} NotFailed(e: Emitter, run: seq<Event>, e': Emitter, known: set<string>)
    requires (e.serving ==> !e.failed) && Reaches(e, run, e', known)
    ensures e'.serving ==> !e'.failed
    decreases run
  {
    hide Apply;
    if run != [] { NotFailed(Step(e, run[0]), run[1..], e', known); }
  }

  /** Objects go out only to a peer served at Forward State 1. */
  lemma SentOnlyForwarded(e: Emitter, ev: Event)
    ensures Step(e, ev).sent != e.sent ==> e.forward && (ev.Serve? || (ev.Take? && e.serving))
    ensures Step(e, ev).forward == if ev.SetForward? then ev.forward else e.forward
    ensures |e.sent| <= |Step(e, ev).sent| && Step(e, ev).sent[..|e.sent|] == e.sent
  {
    hide Apply;
  }

  /** What a new emitter sends begins with a whole catalog in a group of its own. */
  lemma {:induction false} ServedWhole(e: Emitter, run: seq<Event>, e': Emitter, known: set<string>, n: nat)
    requires EmitterOk(e, known) && Reaches(e, run, e', known) && forall ev :: ev in run ==> !ev.Serve?
    requires n <= |e.sent| && (|e.sent| == n ==> !e.canAppend)
    requires |e.sent| > n ==> e.sent[n].id == 0 && !IsDelta(e.sent[n].payload)
    ensures |e'.sent| > n ==> e'.sent[n].id == 0 && !IsDelta(e'.sent[n].payload)
    decreases run
  {
    hide EmitterOk, Enabled, Step;
    if run != [] {
      var next := Step(e, run[0]);
      assert run[0] in run && forall ev :: ev in run[1..] ==> ev in run;
      StepOk(e, run[0], known);
      SentOnlyForwarded(e, run[0]);
      if !e.canAppend { FirstWhole(e, run[0], known); }
      assert forall i :: 0 <= i < |e.sent| ==> next.sent[..|e.sent|][i] == next.sent[i];
      ServedWhole(next, run[1..], e', known, n);
    }
  }

  lemma FirstWhole(e: Emitter, ev: Event, known: set<string>)
    requires EmitterOk(e, known) && Enabled(e, ev, known) && !ev.Serve? && !e.canAppend
    ensures var r := Step(e, ev);
            && (|r.sent| == |e.sent| ==> !r.canAppend)
            && (|r.sent| > |e.sent| ==> r.sent[|e.sent|].id == 0 && !IsDelta(r.sent[|e.sent|].payload))
  {
    hide Apply, Replay, OneGroup, Ascends;
    if ev.Take? && e.queue[0].Publish? { ApplyKeepsRoot(e.catalog, e.queue[0].c); }
  }

  lemma ServeStartsWhole(catalog: Catalog, forward: bool, before: seq<Event>, e: Emitter, after: seq<Event>,
                         e': Emitter, known: set<string>)
    requires !IsDelta(catalog) && Parses(catalog, known) && Reaches(New(catalog, forward), before, e, known)
    requires Reaches(Step(e, Serve), after, e', known) && forall ev :: ev in after ==> !ev.Serve?
    ensures |e'.sent| > |e.sent| ==> e'.sent[|e.sent|].id == 0 && !IsDelta(e'.sent[|e.sent|].payload)
  {
    hide Reaches, Replay, Ascends, OneGroup, Parses;
    NewOk(catalog, forward, known);
    RunOk(New(catalog, forward), before, e, known);
    StepOk(e, Serve, known);
    ServedWhole(Step(e, Serve), after, e', known, |e.sent|);
  }

  /** Groups are numbered on end from 0, and the objects of each; next comes object
      `id` of the group before `group`, or `group`. */
  ghost predicate OnEnd(sent: seq<Object>, group: nat, id: nat)
  {
    && (forall i :: 0 < i < |sent| ==>
          var a, b := sent[i - 1], sent[i];
          (b.group == a.group && b.id == a.id + 1) || (b.group == a.group + 1 && b.id == 0))
    && (if sent == [] then group == 0
        else sent[0].group == 0 && sent[0].id == 0 && group == Last(sent).group + 1 && id == Last(sent).id + 1)
  }

  lemma OnEndMore(sent: seq<Object>, group: nat, id: nat, c: Catalog)
    requires OnEnd(sent, group, id)
    ensures OnEnd(sent + [Object(group, 0, c)], group + 1, 1)
    ensures group > 0 ==> OnEnd(sent + [Object(group - 1, id, c)], group, id + 1)
  {
  }

  lemma TurnOnEnd(e: Emitter, u: Update)
    requires OnEnd(e.sent, e.nextGroup, e.nextId)
    ensures var r := Turn(e, u); OnEnd(r.sent, r.nextGroup, r.nextId)
  {
    hide Apply, OnEnd;
    OnEndMore(e.sent, e.nextGroup, e.nextId, e.catalog);
    if u.Publish? {
      OnEndMore(e.sent, e.nextGroup, e.nextId, u.c);
      OnEndMore(e.sent, e.nextGroup, e.nextId, Fold(e, u.c).catalog);
    }
  }

  lemma StepOnEnd(e: Emitter, ev: Event)
    requires OnEnd(e.sent, e.nextGroup, e.nextId)
    ensures var r := Step(e, ev); OnEnd(r.sent, r.nextGroup, r.nextId)
  {
    hide Turn, OnEnd;
    OnEndMore(e.sent, e.nextGroup, e.nextId, e.catalog);
    if ev.Take? && e.serving && e.queue != [] { TurnOnEnd(e.(queue := e.queue[1..]), e.queue[0]); }
  }

  lemma {:induction false} RunOnEnd(e: Emitter, run: seq<Event>, e': Emitter, known: set<string>)
    requires OnEnd(e.sent, e.nextGroup, e.nextId) && Reaches(e, run, e', known)
    ensures OnEnd(e'.sent, e'.nextGroup, e'.nextId)
    decreases run
  {
    hide OnEnd, Step, Enabled;
    if run != [] {
      StepOnEnd(e, run[0]);
      RunOnEnd(Step(e, run[0]), run[1..], e', known);
    }
  }

  /** What is sent is numbered without a gap: the next of its group, or the first of the
      next group. */
  lemma SentOnEnd(catalog: Catalog, forward: bool, run: seq<Event>, e: Emitter, known: set<string>)
    requires Reaches(New(catalog, forward), run, e, known)
    ensures e.sent != [] ==> e.sent[0].group == 0 && e.sent[0].id == 0
    ensures forall i :: 0 < i < |e.sent| ==>
              var a, b := e.sent[i - 1], e.sent[i];
              (b.group == a.group && b.id == a.id + 1) || (b.group == a.group + 1 && b.id == 0)
  {
    RunOnEnd(New(catalog, forward), run, e, known);
  }

  // ---- what a subscriber ends with --------------------------------------------------------

  /** `fed` brings the first `n` of `os`, each for the first time in order, with
      any of them again at any time after. */
  ghost predicate Feeds(os: seq<Object>, fed: seq<Object>, n: nat)
    decreases |fed|
  {
    if fed == [] then n == 0
    else
      var last, init := fed[|fed| - 1], fed[..|fed| - 1];
      || (0 < n <= |os| && last == os[n - 1] && Feeds(os, init, n - 1))
      || (n <= |os| && last in os[..n] && Feeds(os, init, n))
  }

  ghost predicate Reached(s: Subscriber, o: Object) { s.at == Some((o.group, o.id)) }

  /** The subscriber has not passed the objects it was fed, and within the last
      group it has what the group makes. */
  ghost predicate Follows(s: Subscriber, os: seq<Object>, from: nat, n: nat)
    requires n <= |os|
  {
    && (s.at.Some? ==> n > 0 && (Reached(s, os[n - 1]) || Past(s.at, os[n - 1])))
    && (n > from ==> Reached(s, os[n - 1]) && s.catalog.Some? && s.catalog == Replay(os[from..n]))
  }

  lemma {:induction false} ReplayPrefix(os: seq<Object>, n: nat)
    requires 0 < n <= |os| && Replay(os).Some?
    ensures Replay(os[..n]).Some?
    ensures n < |os| ==>
              && Apply(Replay(os[..n]).value, os[n].payload).1
              && Replay(os[..n + 1]) == Some(Apply(Replay(os[..n]).value, os[n].payload).0)
  {
    hide Apply;
    if n < |os| {
      var init := os[..|os| - 1];
      assert os[..n + 1][..n] == os[..n] && os[..n + 1][n] == os[n];
      if n < |os| - 1 {
        ReplayPrefix(init, n);
        assert init[..n] == os[..n] && init[..n + 1] == os[..n + 1];
      } else {
        assert os[..n + 1] == os && init == os[..n];
      }
    } else {
      assert os[..n] == os;
    }
  }

  /** An object seen before changes nothing once the group is begun. */
  lemma AgainIgnored(s: Subscriber, os: seq<Object>, from: nat, n: nat, o: Object, known: set<string>)
    requires Ascends(os) && n <= |os| && Follows(s, os, from, n) && o in os[..n]
    ensures Follows(Receive(s, o, known), os, from, n)
  {
    hide Replay, Apply;
    var i :| 0 <= i < n && os[i] == o;
    assert i < n - 1 ==> Before(os[i], os[n - 1]);
  }

  lemma NextFollows(s: Subscriber, os: seq<Object>, from: nat, n: nat, known: set<string>)
    requires Ascends(os) && OneGroup(os, from, known) && n < |os| && Follows(s, os, from, n)
    ensures Follows(Receive(s, os[n], known), os, from, n + 1)
  {
    hide Apply, Replay;
    if n > 0 { assert Before(os[n - 1], os[n]); }
    if n == from {
      FirstMakes(os, from);
    } else if n > from {
      var group := os[from..];
      ReplayPrefix(group, n - from);
      assert group[..n - from] == os[from..n] && group[..n - from + 1] == os[from..n + 1] && group[n - from] == os[n];
    }
  }

  lemma FirstMakes(os: seq<Object>, from: nat)
    requires from < |os|
    ensures Replay(os[from..from + 1]) == Some(os[from].payload)
  {
  }

  lemma {:induction false} FedFollows(os: seq<Object>, from: nat, fed: seq<Object>, n: nat, known: set<string>)
    requires Ascends(os) && OneGroup(os, from, known) && Feeds(os, fed, n)
    ensures n <= |os| && Follows(ReceiveAll(Subscriber(None, None), fed, known), os, from, n)
    decreases |fed|
  {
    hide Receive, Ascends, OneGroup, Follows;
    if fed == [] {
      NothingFed(os, from, known);
    } else {
      var last, init := fed[|fed| - 1], fed[..|fed| - 1];
      var s := ReceiveAll(Subscriber(None, None), init, known);
      if 0 < n <= |os| && last == os[n - 1] && Feeds(os, init, n - 1) {
        FedFollows(os, from, init, n - 1, known);
        NextFollows(s, os, from, n - 1, known);
      } else {
        FedFollows(os, from, init, n, known);
        AgainIgnored(s, os, from, n, last, known);
      }
    }
  }

  lemma NothingFed(os: seq<Object>, from: nat, known: set<string>)
    ensures Follows(Subscriber(None, None), os, from, 0)
  {
  }

  lemma GroupTail(os: seq<Object>, from: nat, j: nat, known: set<string>)
    requires Ascends(os) && OneGroup(os, from, known) && j <= from
    ensures Ascends(os[j..]) && OneGroup(os[j..], from - j, known) && os[j..][from - j..] == os[from..]
  {
    hide Replay, Parses;
    assert os[j..][from - j..] == os[from..];
  }

  /** A subscriber that gets the objects from any group's on, duplicates and all,
      ends with the publisher's catalog, whenever the emitter may append. */
  lemma SubscriberConverges(catalog: Catalog, forward: bool, run: seq<Event>, e: Emitter, known: set<string>,
                            j: nat, fed: seq<Object>)
    requires !IsDelta(catalog) && Parses(catalog, known) && Reaches(New(catalog, forward), run, e, known)
    requires e.canAppend && j <= e.from && j <= |e.sent| && Feeds(e.sent[j..], fed, |e.sent| - j)
    ensures ReceiveAll(Subscriber(None, None), fed, known).catalog == Some(e.catalog)
  {
    hide Replay, Ascends, ReceiveAll, Apply, Feeds, Reaches, Parses;
    NewOk(catalog, forward, known);
    RunOk(New(catalog, forward), run, e, known);
    GroupTail(e.sent, e.from, j, known);
    var os, from := e.sent[j..], e.from - j;
    FedFollows(os, from, fed, |os|, known);
    assert os[from..|os|] == os[from..];
  }

  /** So a subscriber has the publisher's catalog once the emitter that serves it has
      nothing left to do and it got all that was sent. */
  lemma IdleConverges(catalog: Catalog, forward: bool, run: seq<Event>, e: Emitter, known: set<string>,
                      j: nat, fed: seq<Object>)
    requires !IsDelta(catalog) && Parses(catalog, known) && Reaches(New(catalog, forward), run, e, known)
    requires e.serving && e.forward && e.queue == []
    requires j <= e.from && j <= |e.sent| && Feeds(e.sent[j..], fed, |e.sent| - j)
    ensures ReceiveAll(Subscriber(None, None), fed, known).catalog == Some(e.catalog)
  {
    hide Reaches, Feeds, ReceiveAll, Parses;
    IdleMayAppend(catalog, forward, run, e, known);
    SubscriberConverges(catalog, forward, run, e, known, j, fed);
  }

  // ---- publisher and subscriber as objects ---------------------------------------------

  class CatalogPublisher {
    var catalog: CatalogObject
    var serving: bool
    var forward: bool
    var canAppend: bool
    var nextGroup: nat
    var nextId: nat
    var updates: seq<Update>
    ghost var failed: bool
    ghost var sent: seq<Object>
    ghost var from: nat

    ghost function View(): Emitter
      reads this, catalog
    {
      Emitter(catalog.root, serving, forward, canAppend, failed, nextGroup, nextId, updates, sent, from)
    }

    constructor (root: Catalog, forward: bool)
      ensures fresh(catalog) && View() == New(root, forward)
    {
      catalog := new CatalogObject(root);
      serving, this.forward, canAppend, nextGroup, nextId, updates := false, forward, false, 0, 0, [];
      failed, sent, from := false, [], 0;
    }

    /** Queued for the emitter, or, with none, current at once. */
    method PublishCatalog(c: Catalog)
      requires !IsDelta(c)
      modifies this
      ensures View() == Step(old(View()), Queue(c)) && (catalog == old(catalog) || fresh(catalog))
    {
      if serving {
        updates := updates + [Publish(c)];
      } else {
        updates := [];
        catalog := new CatalogObject(c);
      }
    }

    method PublishDelta(c: Catalog)
      requires IsDelta(c)
      modifies this
      ensures View() == Step(old(View()), Queue(c)) && catalog == old(catalog)
    {
      updates := updates + [Publish(c)];
    }

    method Forward(to: bool)
      modifies this
      ensures View() == Step(old(View()), SetForward(to)) && catalog == old(catalog)
    {
      if to && !forward && serving { updates := updates + [Resume]; }
      forward := to;
    }

    method Emit(payload: Catalog, newGroup: bool)
      requires newGroup || nextGroup > 0
      modifies this
      ensures catalog == old(catalog)
      ensures View() == if newGroup
                        then EmitCatalog(old(View()).(catalog := payload)).(catalog := old(catalog.root),
                                                                            canAppend := old(canAppend))
                        else EmitDelta(old(View()), payload)
    {
      if newGroup {
        sent, from := sent + [Object(nextGroup, 0, payload)], |sent|;
        nextGroup, nextId := nextGroup + 1, 1;
      } else {
        sent := sent + [Object(nextGroup - 1, nextId, payload)];
        nextId := nextId + 1;
      }
    }

    method EmitWhole()
      modifies this
      ensures catalog == old(catalog) && View() == EmitCatalog(old(View()))
    {
      Emit(catalog.root, true);
      canAppend := true;
    }

    /** False when the update does not apply, which ends the emitter. */
    method FoldIn(u: Catalog) returns (ok: bool)
      requires !failed
      modifies this, catalog
      ensures catalog == old(catalog) || fresh(catalog)
      ensures View() == Fold(old(View()), u) && ok == !View().failed
    {
      if IsDelta(u) {
        ok := catalog.ApplyUpdate(u);
        failed := !ok;
      } else {
        catalog := new CatalogObject(u);
        ok := true;
      }
    }

    method ServePeer()
      modifies this
      ensures catalog == old(catalog) && View() == Step(old(View()), Serve)
    {
      serving, canAppend, failed := true, false, false;
      if forward { EmitWhole(); }
    }

    /** One turn of the emitter's loop. */
    method EmitTurn()
      requires serving && updates != [] && !failed && (canAppend ==> nextGroup > 0)
      modifies this, catalog
      ensures catalog == old(catalog) || fresh(catalog)
      ensures View() == Step(old(View()), Take)
    {
      hide Apply;
      var update := updates[0];
      updates := updates[1..];
      if update.Resume? {
        if forward { EmitWhole(); }
        return;
      }
      var append := forward && IsDelta(update.c) && canAppend;
      if append { Emit(update.c, false); }
      var ok := FoldIn(update.c);
      if !ok {
        serving, canAppend := false, false;
      } else if !forward {
        canAppend := false;
      } else if !append {
        EmitWhole();
      }
    }
  }

  class MediaSubscriber {
    const known: set<string>
    var catalog: CatalogObject?
    var at: Option<(nat, nat)>

    ghost function View(): Subscriber
      reads this, catalog
    {
      Subscriber(if catalog == null then None else Some(catalog.root), at)
    }

    constructor (known: set<string>)
      ensures View() == Subscriber(None, None) && this.known == known && catalog == null
    {
      this.known, catalog, at := known, null, None;
    }

    method OnCatalogObject(o: Object)
      modifies this, catalog
      ensures catalog == old(catalog) || fresh(catalog)
      ensures View() == Receive(old(View()), o, known)
    {
      hide Apply;
      if !Past(at, o) || !Parses(o.payload, known) { return; }
      if IsDelta(o.payload) {
        if catalog == null { return; }
        var ok := catalog.ApplyUpdate(o.payload);
        if !ok { return; }
      } else {
        catalog := new CatalogObject(o.payload);
      }
      at := Some((o.group, o.id));
    }
  }
}
