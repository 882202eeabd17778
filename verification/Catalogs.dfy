/** The catalog delta engine: tracks added, removed, cloned and updated in place. */
module Catalogs {
  import opened Basics

  /** A track's fields as they are on the wire; None fields are absent. */
  type Track = map<string, string>

  datatype Kind = Add | Remove | Clone | Update | Unknown

  datatype Op = Op(kind: Kind, tracks: seq<Track>)

  /** A delta has operations; an independent catalog has a version and tracks. */
  datatype Catalog = Catalog(version: Option<string>, generatedAt: Option<nat>, tracks: seq<Track>,
                             delta: seq<Op>, inits: seq<string>, rest: map<string, string>)

  predicate IsDelta(c: Catalog) { c.delta != [] }

  function Field(t: Track, key: string): Option<string> { if key in t then Some(t[key]) else None }

  function Key(t: Track): (Option<string>, Option<string>) { (Field(t, "namespace"), Field(t, "name")) }

  /** Absent and empty alike. */
  predicate Blank(s: Option<string>) { s.None? || s.value == "" }

  predicate Matches(t: Track, name: Option<string>, namespace: Option<string>)
  {
    Field(t, "name") == name && (namespace.None? || Field(t, "namespace") == namespace)
  }

  /** The places of the tracks of that name. */
  function Places(tracks: seq<Track>, name: Option<string>, namespace: Option<string>): (at: seq<nat>)
    ensures forall i :: i in at ==> i < |tracks| && Matches(tracks[i], name, namespace)
  {
    if tracks == [] then []
    else
      var last := |tracks| - 1;
      Places(tracks[..last], name, namespace) + if Matches(tracks[last], name, namespace) then [last] else []
  }

  /** The one track of that name; None for none, or when the name is ambiguous. */
  function Find(tracks: seq<Track>, name: Option<string>, namespace: Option<string>): (at: Option<nat>)
    ensures at.Some? ==> at.value < |tracks| && Matches(tracks[at.value], name, namespace)
  {
    var at := Places(tracks, name, namespace);
    if |at| == 1 then (assert at[0] in at; Some(at[0])) else None
  }

  predicate Declared(tracks: seq<Track>, key: (Option<string>, Option<string>))
  {
    exists i :: 0 <= i < |tracks| && Key(tracks[i]) == key
  }

  /** The parent's fields with a track's own over them. */
  function Merged(parent: Track, t: Track): Track { parent + (t - {"parentName", "parentNamespace"}) }

  /** One track of an operation; None where it is refused. */
  function OpTrack(tracks: seq<Track>, kind: Kind, t: Track): Option<seq<Track>>
  {
    match kind
    case Add =>
      if Blank(Field(t, "name")) || Declared(tracks, Key(t)) then None else Some(tracks + [t])
    case Remove =>
      var at := Find(tracks, Field(t, "name"), Field(t, "namespace"));
      if at.None? then None else Some(tracks[..at.value] + tracks[at.value + 1..])
    case Update =>
      var parent := !Blank(Field(t, "parentName"));
      var name := if parent then Field(t, "parentName") else Field(t, "name");
      var namespace := if parent then Field(t, "parentNamespace") else Field(t, "namespace");
      if Blank(name) then None
      else
        var at := Find(tracks, name, namespace);
        if at.None? then None else Some(tracks[at.value := Merged(tracks[at.value], t)])
    case Clone =>
      if Blank(Field(t, "parentName")) then None
      else
        var at := Find(tracks, Field(t, "parentName"), Field(t, "parentNamespace"));
        if at.None? then None
        else
          var parent := tracks[at.value];
          var clone := Merged(parent, t);
          if Blank(Field(t, "name")) || Key(clone) == Key(parent) || Declared(tracks, Key(clone)) then None
          else Some(tracks + [clone])
    case Unknown => None
  }

  /** What is left of the tracks, and whether every operation was taken: one
      refused stops there, with those before it done. */
  function OpTracks(tracks: seq<Track>, kind: Kind, ts: seq<Track>): (seq<Track>, bool)
    decreases ts
  {
    if kind.Unknown? then (tracks, false)
    else if ts == [] then (tracks, true)
    else
      var next := OpTrack(tracks, kind, ts[0]);
      if next.None? then (tracks, false) else OpTracks(next.value, kind, ts[1..])
  }

  function Ops(tracks: seq<Track>, ops: seq<Op>): (seq<Track>, bool)
    decreases ops
  {
    if ops == [] then (tracks, true)
    else
      var (next, ok) := OpTracks(tracks, ops[0].kind, ops[0].tracks);
      if ok then Ops(next, ops[1..]) else (next, false)
  }

  function Apply(c: Catalog, u: Catalog): (Catalog, bool)
  {
    if !IsDelta(u) then (c, false)
    else
      var (tracks, ok) := Ops(c.tracks, u.delta);
      if !ok then (c.(tracks := tracks), false)
      else (c.(tracks := tracks, generatedAt := if u.generatedAt.Some? then u.generatedAt else c.generatedAt,
               inits := c.inits + u.inits), true)
  }

  // ---- a delta update as one list of steps ------------------------------------------

  /** An unknown operation is one step, never taken. */
  ghost function StepsOf(op: Op): seq<(Kind, Track)>
  {
    if op.kind.Unknown? then [(Unknown, map[])]
    else seq(|op.tracks|, i requires 0 <= i < |op.tracks| => (op.kind, op.tracks[i]))
  }

  ghost function Steps(ops: seq<Op>): seq<(Kind, Track)>
  {
    if ops == [] then [] else StepsOf(ops[0]) + Steps(ops[1..])
  }

  /** `k` steps are taken, each on the result of the one before, and make `r`; the
      next, if there is one, is refused. */
  ghost predicate Makes(tracks: seq<Track>, steps: seq<(Kind, Track)>, k: nat, r: seq<Track>)
    decreases steps
  {
    if steps == [] then k == 0 && r == tracks
    else
      var next := OpTrack(tracks, steps[0].0, steps[0].1);
      if next.None? then k == 0 && r == tracks else k > 0 && Makes(next.value, steps[1..], k - 1, r)
  }

  lemma {:induction false} MakesMore(tracks: seq<Track>, a: seq<(Kind, Track)>, b: seq<(Kind, Track)>, k: nat,
                                     r: seq<Track>)
    requires Makes(tracks, a, k, r)
    ensures k <= |a|
    ensures k < |a| ==> Makes(tracks, a + b, k, r)
    ensures k == |a| ==> forall n, r' :: Makes(r, b, n, r') ==> Makes(tracks, a + b, k + n, r')
    decreases a
  {
    hide OpTrack;
    if a == [] {
      assert a + b == b;
    } else {
      assert (a + b)[0] == a[0] && (a + b)[1..] == a[1..] + b;
      var next := OpTrack(tracks, a[0].0, a[0].1);
      if next.Some? { MakesMore(next.value, a[1..], b, k - 1, r); }
    }
  }

  lemma {:induction false} OpMakes(tracks: seq<Track>, op: Op) returns (k: nat)
    ensures var (r, ok) := OpTracks(tracks, op.kind, op.tracks);
            Makes(tracks, StepsOf(op), k, r) && (ok <==> k == |StepsOf(op)|)
    decreases op.tracks
  {
    hide OpTrack;
    if op.kind.Unknown? || op.tracks == [] {
      k := 0;
      UnknownRefused(tracks);
    } else {
      var rest := Op(op.kind, op.tracks[1..]);
      assert StepsOf(op)[1..] == StepsOf(rest);
      var next := OpTrack(tracks, op.kind, op.tracks[0]);
      k := 0;
      if next.Some? {
        var k' := OpMakes(next.value, rest);
        k := k' + 1;
      }
    }
  }

  lemma UnknownRefused(tracks: seq<Track>)
    ensures OpTrack(tracks, Unknown, map[]).None?
  {
  }

  lemma NothingMade(tracks: seq<Track>)
    ensures Makes(tracks, [], 0, tracks)
  {
  }

  lemma {:induction false} OpsMake(tracks: seq<Track>, ops: seq<Op>) returns (k: nat)
    ensures var (r, ok) := Ops(tracks, ops); Makes(tracks, Steps(ops), k, r) && (ok <==> k == |Steps(ops)|)
    decreases ops
  {
    hide OpTracks, StepsOf, Makes;
    NothingMade(tracks);
    k := 0;
    if ops != [] {
      var (next, ok) := OpTracks(tracks, ops[0].kind, ops[0].tracks);
      var own, more := StepsOf(ops[0]), Steps(ops[1..]);
      k := OpMakes(tracks, ops[0]);
      MakesMore(tracks, own, more, k, next);
      if ok {
        var n := OpsMake(next, ops[1..]);
        assert Makes(next, more, n, Ops(next, ops[1..]).0);
        assert Makes(tracks, own + more, k + n, Ops(next, ops[1..]).0);
        k := k + n;
      }
    }
  }

  /** A delta update takes its steps in their order up to the first refused, and
      keeps what those made; only one taken whole brings its time and its init data. */
  lemma ApplyMakes(c: Catalog, u: Catalog) returns (k: nat)
    ensures var (r, ok) := Apply(c, u);
            && Makes(c.tracks, Steps(u.delta), k, r.tracks)
            && (ok <==> u.delta != [] && k == |Steps(u.delta)|)
            && r == if !ok then c.(tracks := r.tracks)
                    else c.(tracks := r.tracks, inits := c.inits + u.inits,
                            generatedAt := if u.generatedAt.None? then c.generatedAt else u.generatedAt)
  {
    hide Ops;
    k := OpsMake(c.tracks, u.delta);
    NoOps(c.tracks);
  }

  lemma NoOps(tracks: seq<Track>)
    ensures Ops(tracks, []) == (tracks, true)
  {
  }

  // ---- what the operations keep and undo ------------------------------------------

  ghost predicate OwnKeys(tracks: seq<Track>)
  {
    forall i, j :: 0 <= i < j < |tracks| ==> Key(tracks[i]) != Key(tracks[j])
  }

  /** The track an update is for. */
  function Target(tracks: seq<Track>, t: Track): Option<nat>
  {
    var parent := !Blank(Field(t, "parentName"));
    Find(tracks, if parent then Field(t, "parentName") else Field(t, "name"),
         if parent then Field(t, "parentNamespace") else Field(t, "namespace"))
  }

  /** The update leaves its track a key no other has. */
  ghost predicate KeyFree(tracks: seq<Track>, t: Track)
  {
    var at := Target(tracks, t);
    at.Some? ==> forall i :: 0 <= i < |tracks| && i != at.value ==> Key(tracks[i]) != Key(Merged(tracks[at.value], t))
  }

  lemma MergedKey(parent: Track, t: Track)
    ensures "name" in t ==> Field(Merged(parent, t), "name") == Field(t, "name")
    ensures "name" !in t ==> Field(Merged(parent, t), "name") == Field(parent, "name")
    ensures "namespace" in t ==> Field(Merged(parent, t), "namespace") == Field(t, "namespace")
    ensures "namespace" !in t ==> Field(Merged(parent, t), "namespace") == Field(parent, "namespace")
  {
    assert "name" != "parentName" && "name" != "parentNamespace" by { assert |"name"| == 4; }
    assert "namespace" != "parentName" && "namespace" != "parentNamespace" by { assert |"namespace"| == 9; }
  }

  /** Laid over its parent, a track keeps what it says and has the parent's rest; the
      parent's name is not part of it. */
  lemma MergedFields(parent: Track, t: Track, key: string)
    ensures Field(Merged(parent, t), key)
            == if key in t && key != "parentName" && key != "parentNamespace" then Field(t, key) else Field(parent, key)
  {
  }

  /** The one track of the name, and of the namespace where one is given. */
  ghost predicate Only(tracks: seq<Track>, name: Option<string>, namespace: Option<string>, at: nat)
  {
    && at < |tracks| && Matches(tracks[at], name, namespace)
    && forall i :: 0 <= i < |tracks| && Matches(tracks[i], name, namespace) ==> i == at
  }

  lemma FindIsOnly(tracks: seq<Track>, name: Option<string>, namespace: Option<string>)
    ensures var at := Find(tracks, name, namespace);
            && (at.Some? ==> Only(tracks, name, namespace, at.value))
            && forall i: nat :: Only(tracks, name, namespace, i) ==> at == Some(i)
  {
    hide Matches;
    var at := Find(tracks, name, namespace);
    if i: nat :| Only(tracks, name, namespace, i) { FindOnly(tracks, i, name, namespace); }
    if at.Some? { PlacesIs(tracks, name, namespace); }
  }

  lemma {:induction false} PlacesIs(tracks: seq<Track>, name: Option<string>, namespace: Option<string>)
    ensures forall i :: 0 <= i < |tracks| && Matches(tracks[i], name, namespace) ==>
              i in Places(tracks, name, namespace)
  {
    hide Matches;
    if tracks != [] {
      var front := tracks[..|tracks| - 1];
      PlacesIs(front, name, namespace);
      assert forall i :: 0 <= i < |front| ==> front[i] == tracks[i];
    }
  }

  /** Each operation on a track: what it needs, and all that it changes. `m` is a
      track with the given one's fields over its parent's. */
  lemma OpChanges(tracks: seq<Track>, kind: Kind, t: Track)
    ensures var r := OpTrack(tracks, kind, t);
            match kind
            case Add =>
              if !Blank(Field(t, "name")) && !Declared(tracks, Key(t)) then r == Some(tracks + [t]) else r.None?
            case Remove =>
              && (r.Some? <==> exists i: nat :: Only(tracks, Field(t, "name"), Field(t, "namespace"), i))
              && forall i: nat :: Only(tracks, Field(t, "name"), Field(t, "namespace"), i) ==>
                   r == Some(tracks[..i] + tracks[i + 1..])
            case Update => Updates(tracks, t, r)
            case Clone => Clones(tracks, t, r)
            case Unknown => r.None?
  {
    hide Matches, Places, Merged, Only;
    FindIsOnly(tracks, Field(t, "name"), Field(t, "namespace"));
    FindIsOnly(tracks, Field(t, "parentName"), Field(t, "parentNamespace"));
    if kind.Update? { UpdateIs(tracks, t); }
  }

  lemma UpdateIs(tracks: seq<Track>, t: Track)
    ensures Updates(tracks, t, OpTrack(tracks, Update, t))
  {
    hide Matches, Places, Merged, Only, Find;
    FindIsOnly(tracks, UpdatedName(t), UpdatedNamespace(t));
  }

  /** Whom an update is for: by parentName, else by its own name. */
  ghost function UpdatedName(t: Track): Option<string>
  {
    if Blank(Field(t, "parentName")) then Field(t, "name") else Field(t, "parentName")
  }

  ghost function UpdatedNamespace(t: Track): Option<string>
  {
    if Blank(Field(t, "parentName")) then Field(t, "namespace") else Field(t, "parentNamespace")
  }

  /** The one track named has `t` laid over it, where it is. */
  ghost predicate Updates(tracks: seq<Track>, t: Track, r: Option<seq<Track>>)
  {
    && (r.Some? <==> !Blank(UpdatedName(t)) && exists i: nat :: Only(tracks, UpdatedName(t), UpdatedNamespace(t), i))
    && forall i: nat :: r.Some? && Only(tracks, UpdatedName(t), UpdatedNamespace(t), i) ==>
         r.value == tracks[i := Merged(tracks[i], t)]
  }

  /** A copy of the parent with `t` over it comes last, under a key of its own. */
  ghost predicate Clones(tracks: seq<Track>, t: Track, r: Option<seq<Track>>)
  {
    var name, namespace := Field(t, "parentName"), Field(t, "parentNamespace");
    && (r.Some? ==> !Blank(name) && exists i: nat :: Only(tracks, name, namespace, i))
    && forall i: nat :: Only(tracks, name, namespace, i) && !Blank(name) ==>
         var m := Merged(tracks[i], t);
         if !Blank(Field(t, "name")) && !Declared(tracks, Key(m)) then r == Some(tracks + [m]) else r.None?
  }

  /** An operation taken lets no two tracks share a key, if and only if it is no
      update that gives its track the key of another. */
  lemma KeysKeptIff(tracks: seq<Track>, kind: Kind, t: Track)
    requires OwnKeys(tracks) && OpTrack(tracks, kind, t).Some?
    ensures OwnKeys(OpTrack(tracks, kind, t).value) <==> (kind.Update? ==> KeyFree(tracks, t))
  {
    hide Places, Merged;
    if kind.Update? {
      var at := Target(tracks, t).value;
      KeyReplaced(tracks, at, Merged(tracks[at], t));
    }
  }

  lemma KeyReplaced(tracks: seq<Track>, at: nat, t: Track)
    requires OwnKeys(tracks) && at < |tracks|
    ensures OwnKeys(tracks[at := t]) <==> forall i :: 0 <= i < |tracks| && i != at ==> Key(tracks[i]) != Key(t)
  {
    var next := tracks[at := t];
    assert next[at] == t && forall i :: 0 <= i < |tracks| && i != at ==> next[i] == tracks[i];
    if OwnKeys(next) {
      forall i | 0 <= i < |tracks| && i != at
        ensures Key(tracks[i]) != Key(t)
      {
        assert if i < at then Key(next[i]) != Key(next[at]) else Key(next[at]) != Key(next[i]);
      }
    }
  }

  /** An update that names its track by the track's own name and namespace cannot
      take another's key. */
  lemma OwnNameIsFree(tracks: seq<Track>, t: Track)
    requires OwnKeys(tracks) && (Blank(Field(t, "parentName")) || ("name" !in t && "namespace" !in t))
    ensures KeyFree(tracks, t)
  {
    hide Places, Merged;
    var at := Target(tracks, t);
    if at.Some? {
      MergedKey(tracks[at.value], t);
      assert Key(Merged(tracks[at.value], t)) == Key(tracks[at.value]);
    }
  }

  lemma Lengths()
    ensures "parentName" != "name" && "parentName" != "namespace" && "parentNamespace" != "name"
    ensures "parentNamespace" != "parentName" && "namespace" != "name" && "a" != "b" && "a" != ""
  {
    assert |"name"| == 4 && |"namespace"| == 9 && |"parentName"| == 10 && |"parentNamespace"| == 15;
    assert "a"[0] != "b"[0] && |"a"| == 1;
  }

  /** Two tracks, and an update that renames the first to the second's name. */
  lemma RenameShares(a: Track, b: Track, t: Track)
    requires a == map["name" := "a"] && b == map["name" := "b"]
    requires t == map["parentName" := "a", "name" := "b"]
    ensures OwnKeys([a, b]) && OpTrack([a, b], Update, t).Some? && !OwnKeys(OpTrack([a, b], Update, t).value)
  {
    hide Places, Merged;
    Lengths();
    assert Field(t, "parentName") == Some("a") && Field(t, "parentNamespace") == None && Field(t, "name") == Some("b");
    assert Matches(a, Some("a"), None) && !Matches(b, Some("a"), None);
    FindOnly([a, b], 0, Some("a"), None);
    MergedKey(a, t);
    assert OpTrack([a, b], Update, t) == Some([a, b][0 := Merged(a, t)]);
    var next := [a, b][0 := Merged(a, t)];
    assert Key(next[0]) == Key(next[1]);
  }

  /** Every update on the way leaves its track a key no other has. */
  ghost predicate TracksFree(tracks: seq<Track>, kind: Kind, ts: seq<Track>)
    decreases ts
  {
    kind.Unknown? || ts == [] ||
    var next := OpTrack(tracks, kind, ts[0]);
    next.Some? ==> (kind.Update? ==> KeyFree(tracks, ts[0])) && TracksFree(next.value, kind, ts[1..])
  }

  ghost predicate OpsFree(tracks: seq<Track>, ops: seq<Op>)
    decreases ops
  {
    ops == [] ||
    (TracksFree(tracks, ops[0].kind, ops[0].tracks) &&
     var (next, ok) := OpTracks(tracks, ops[0].kind, ops[0].tracks);
     ok ==> OpsFree(next, ops[1..]))
  }

  /** No two tracks share a key at any point of the operations. */
  ghost predicate TracksOwn(tracks: seq<Track>, kind: Kind, ts: seq<Track>)
    decreases ts
  {
    && OwnKeys(tracks)
    && (kind.Unknown? || ts == [] ||
        var next := OpTrack(tracks, kind, ts[0]);
        next.Some? ==> TracksOwn(next.value, kind, ts[1..]))
  }

  ghost predicate OpsOwn(tracks: seq<Track>, ops: seq<Op>)
    decreases ops
  {
    && OwnKeys(tracks)
    && (ops == [] ||
        (TracksOwn(tracks, ops[0].kind, ops[0].tracks) &&
         var (next, ok) := OpTracks(tracks, ops[0].kind, ops[0].tracks);
         OwnKeys(next) && (ok ==> OpsOwn(next, ops[1..]))))
  }

  lemma {:induction false} TracksOwnIff(tracks: seq<Track>, kind: Kind, ts: seq<Track>)
    requires OwnKeys(tracks)
    ensures TracksOwn(tracks, kind, ts) <==> TracksFree(tracks, kind, ts)
    ensures TracksOwn(tracks, kind, ts) ==> OwnKeys(OpTracks(tracks, kind, ts).0)
    decreases ts
  {
    hide OwnKeys, OpTrack, KeyFree;
    if !kind.Unknown? && ts != [] && OpTrack(tracks, kind, ts[0]).Some? {
      var next := OpTrack(tracks, kind, ts[0]).value;
      KeysKeptIff(tracks, kind, ts[0]);
      if OwnKeys(next) { TracksOwnIff(next, kind, ts[1..]); } else { NotOwned(next, kind, ts[1..]); }
    }
  }

  lemma NotOwned(tracks: seq<Track>, kind: Kind, ts: seq<Track>)
    requires !OwnKeys(tracks)
    ensures !TracksOwn(tracks, kind, ts)
  {
  }

  lemma {:induction false} OpsOwnIff(tracks: seq<Track>, ops: seq<Op>)
    requires OwnKeys(tracks)
    ensures OpsOwn(tracks, ops) <==> OpsFree(tracks, ops)
    ensures OpsOwn(tracks, ops) ==> OwnKeys(Ops(tracks, ops).0)
    decreases ops
  {
    hide OwnKeys, OpTracks, TracksOwn, TracksFree;
    if ops != [] {
      TracksOwnIff(tracks, ops[0].kind, ops[0].tracks);
      var (next, ok) := OpTracks(tracks, ops[0].kind, ops[0].tracks);
      if OwnKeys(next) && ok { OpsOwnIff(next, ops[1..]); }
    }
  }

  /** Keys stay unique all through a delta update, and are so after it, if and only
      if none of its updates gives a track the key of another. */
  lemma ApplyKeepsKeysIff(c: Catalog, u: Catalog)
    requires OwnKeys(c.tracks) && IsDelta(u)
    ensures OpsOwn(c.tracks, u.delta) <==> OpsFree(c.tracks, u.delta)
    ensures OpsFree(c.tracks, u.delta) ==> OwnKeys(Apply(c, u).0.tracks)
  {
    hide OwnKeys, Ops, OpsOwn, OpsFree;
    OpsOwnIff(c.tracks, u.delta);
  }

  /** A name matched once is found. */
  lemma {:induction false} FindOnly(tracks: seq<Track>, k: nat, name: Option<string>, namespace: Option<string>)
    requires k < |tracks| && Matches(tracks[k], name, namespace)
    requires forall i :: 0 <= i < |tracks| && i != k ==> !Matches(tracks[i], name, namespace)
    ensures Places(tracks, name, namespace) == [k]
  {
    hide Matches;
    var last := |tracks| - 1;
    var front := tracks[..last];
    assert forall i :: 0 <= i < last ==> front[i] == tracks[i];
    if k == last { NoPlaces(front, name, namespace); } else { FindOnly(front, k, name, namespace); }
  }

  lemma {:induction false} NoPlaces(tracks: seq<Track>, name: Option<string>, namespace: Option<string>)
    requires forall i :: 0 <= i < |tracks| ==> !Matches(tracks[i], name, namespace)
    ensures Places(tracks, name, namespace) == []
  {
    if tracks != [] { NoPlaces(tracks[..|tracks| - 1], name, namespace); }
  }

  /** Removing a track undoes adding it, unless its name is someone else's too
      and it has no namespace to tell them apart. */
  lemma AddThenRemove(tracks: seq<Track>, t: Track)
    requires OpTrack(tracks, Add, t).Some?
    ensures var added := OpTrack(tracks, Add, t).value;
            OpTrack(added, Remove, t) == Some(tracks)
            <==> ("namespace" in t || forall i :: 0 <= i < |tracks| ==> Field(tracks[i], "name") != Field(t, "name"))
  {
    var added, name, namespace := tracks + [t], Field(t, "name"), Field(t, "namespace");
    var k := |tracks|;
    if "namespace" in t || forall i :: 0 <= i < |tracks| ==> Field(tracks[i], "name") != name {
      forall i | 0 <= i < |added| && i != k
        ensures !Matches(added[i], name, namespace)
      {
        assert added[i] == tracks[i] && Key(tracks[i]) != Key(t);
      }
      FindOnly(added, k, name, namespace);
      assert added[..k] + added[k + 1..] == tracks;
    } else {
      var i :| 0 <= i < |tracks| && Field(tracks[i], "name") == name;
      assert added[i] == tracks[i] && added[k] == t;
      TwoPlaces(added, i, k, name, namespace);
    }
  }

  lemma {:induction false} TwoPlaces(tracks: seq<Track>, i: nat, j: nat, name: Option<string>,
                                     namespace: Option<string>)
    requires i < j < |tracks| && Matches(tracks[i], name, namespace) && Matches(tracks[j], name, namespace)
    ensures |Places(tracks, name, namespace)| >= 2
  {
    hide Matches;
    var last := |tracks| - 1;
    if j < last {
      TwoPlaces(tracks[..last], i, j, name, namespace);
    } else {
      OnePlace(tracks[..last], i, name, namespace);
    }
  }

  lemma {:induction false} OnePlace(tracks: seq<Track>, i: nat, name: Option<string>, namespace: Option<string>)
    requires i < |tracks| && Matches(tracks[i], name, namespace)
    ensures |Places(tracks, name, namespace)| >= 1
  {
    hide Matches;
    var last := |tracks| - 1;
    if i < last { OnePlace(tracks[..last], i, name, namespace); }
  }

  // ---- the catalog as an object ---------------------------------------------------

  class CatalogObject {
    var root: Catalog

    constructor (root: Catalog)
      ensures this.root == root
    {
      this.root := root;
    }

    /** Apply one track of an operation in place. */
    method Operate(kind: Kind, t: Track) returns (ok: bool)
      modifies this
      ensures var next := OpTrack(old(root.tracks), kind, t);
              ok == next.Some? && root == if ok then old(root).(tracks := next.value) else old(root)
    {
      var next := OpTrack(root.tracks, kind, t);
      if next.None? { return false; }
      root := root.(tracks := next.value);
      return true;
    }

    /** Operations run in turn, each against the result of the one before. */
    method ApplyUpdate(u: Catalog) returns (ok: bool)
      modifies this
      ensures (root, ok) == Apply(old(root), u)
    {
      if !IsDelta(u) { return false; }
      ghost var was := root;
      var ops := u.delta;
      while ops != []
        invariant root == was.(tracks := root.tracks) && Ops(root.tracks, ops) == Ops(was.tracks, u.delta)
        decreases ops
      {
        var op := ops[0];
        if op.kind.Unknown? { return false; }
        var ts := op.tracks;
        while ts != []
          invariant root == was.(tracks := root.tracks)
          invariant OpTracks(root.tracks, op.kind, ts).1 ==>
                      Ops(OpTracks(root.tracks, op.kind, ts).0, ops[1..]) == Ops(was.tracks, u.delta)
          invariant !OpTracks(root.tracks, op.kind, ts).1 ==>
                      (OpTracks(root.tracks, op.kind, ts).0, false) == Ops(was.tracks, u.delta)
          decreases ts
        {
          var taken := Operate(op.kind, ts[0]);
          if !taken { return false; }
          ts := ts[1..];
        }
        ops := ops[1..];
      }
      root := root.(generatedAt := if u.generatedAt.Some? then u.generatedAt else root.generatedAt,
                    inits := root.inits + u.inits);
      return true;
    }
  }
}
