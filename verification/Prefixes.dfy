/** The peer's admitted subscriptions: names once each, and namespace prefixes of
    which none contains another of its kind. */
module Prefixes {
  import opened Basics

  type Tuple = seq<string>

  /** A SUBSCRIBE by full name, or a SUBSCRIBE_NAMESPACE or SUBSCRIBE_TRACKS by prefix. */
  datatype Held = Name(namespace: Tuple, track: string) | Namespaces(prefix: Tuple) | Tracks(prefix: Tuple)

  predicate IsPrefix(a: Tuple, b: Tuple) { |a| <= |b| && b[..|a|] == a }

  predicate SameKind(a: Held, b: Held)
  {
    (a.Namespaces? && b.Namespaces?) || (a.Tracks? && b.Tracks?)
  }

  /** Two of the table that may not be there together. */
  predicate Clashes(a: Held, b: Held)
  {
    if a.Name? || b.Name? then a == b
    else SameKind(a, b) && (IsPrefix(a.prefix, b.prefix) || IsPrefix(b.prefix, a.prefix))
  }

  type Table = map<nat, Held>

  ghost predicate Apart(t: Table) { forall a, b :: a in t && b in t && a != b ==> !Clashes(t[a], t[b]) }

  // ---- the table as an object -------------------------------------------------

  class PeerTable {
    var held: Table
    var order: seq<nat>      // the dict's order

    ghost predicate Valid()
      reads this
    {
      Apart(held) && (forall id :: id in held <==> id in order)
    }

    constructor ()
      ensures Valid() && held == map[]
    {
      held, order := map[], [];
    }

    /** Whether an entry other than `but` stands against `h`. */
    method Taken(h: Held, but: nat) returns (yes: bool)
      requires Valid()
      ensures yes <==> exists id :: id in held && id != but && Clashes(held[id], h)
    {
      for i := 0 to |order|
        invariant forall j :: 0 <= j < i && order[j] != but ==> !Clashes(held[order[j]], h)
      {
        if order[i] != but && Clashes(held[order[i]], h) { return true; }
      }
      return false;
    }

    /** Admit a request unless it clashes or is refused for another reason. */
    method Admit(id: nat, h: Held, refused: bool) returns (ok: bool)
      requires Valid() && id !in held
      modifies this
      ensures Valid()
      ensures ok <==> !refused && forall other :: other in old(held) ==> !Clashes(old(held)[other], h)
      ensures held == if ok then old(held)[id := h] else old(held)
    {
      ClashesBothWays();
      var taken := Taken(h, id);
      ok := !taken && !refused;
      if ok { held, order := held[id := h], order + [id]; }
    }

    /** A REQUEST_UPDATE moves a prefix, unless it lands on another's. */
    method Move(id: nat, prefix: Tuple) returns (ok: bool)
      requires Valid()
      modifies this
      ensures Valid()
      ensures var moved := if id in old(held) then Moved(old(held)[id], prefix) else None;
              && (ok <==> moved.None? || forall other :: other in old(held) && other != id
                                           ==> !Clashes(old(held)[other], moved.value))
              && held == if ok && moved.Some? then old(held)[id := moved.value] else old(held)
    {
      if id !in held || held[id].Name? { return true; }
      ClashesBothWays();
      var h := Moved(held[id], prefix).value;
      var taken := Taken(h, id);
      if taken { return false; }
      held := held[id := h];
      return true;
    }

    method Drop(id: nat)
      requires Valid()
      modifies this
      ensures Valid() && held == old(held) - {id}
    {
      var kept := [];
      for i := 0 to |order|
        invariant forall x :: x in kept <==> x in order[..i] && x != id
      {
        if order[i] != id { kept := kept + [order[i]]; }
      }
      assert order[..|order|] == order;
      held, order := held - {id}, kept;
    }

    /** The SUBSCRIBE_TRACKS that covers a namespace: whatever order the table is
        gone through in, the one found is the only one there is. */
    method Covering(namespace: Tuple) returns (found: Option<nat>)
      requires Valid()
      ensures forall id :: found == Some(id) <==> id in held && Covers(held[id], namespace)
    {
      found := None;
      for i := 0 to |order|
        invariant forall j :: 0 <= j < i ==> !Covers(held[order[j]], namespace)
      {
        if Covers(held[order[i]], namespace) {
          AtMostOneCovers(held, namespace);
          return Some(order[i]);
        }
      }
    }
  }

  function Moved(h: Held, prefix: Tuple): Option<Held>
  {
    match h
    case Name(_, _) => None
    case Namespaces(_) => Some(Namespaces(prefix))
    case Tracks(_) => Some(Tracks(prefix))
  }

  lemma ClashesBothWays()
    ensures forall a, b :: Clashes(a, b) <==> Clashes(b, a)
  {
  }

  predicate Covers(h: Held, namespace: Tuple) { h.Tracks? && IsPrefix(h.prefix, namespace) }

  /** Two prefixes of one namespace are one within the other. */
  lemma PrefixesMeet(a: Tuple, b: Tuple, whole: Tuple)
    requires IsPrefix(a, whole) && IsPrefix(b, whole)
    ensures IsPrefix(a, b) || IsPrefix(b, a)
  {
    if |a| <= |b| { assert b[..|a|] == whole[..|a|]; } else { assert a[..|b|] == whole[..|b|]; }
  }

  /** At most one SUBSCRIBE_TRACKS covers a namespace. */
  lemma AtMostOneCovers(t: Table, namespace: Tuple)
    requires Apart(t)
    ensures forall a, b :: a in t && b in t && Covers(t[a], namespace) && Covers(t[b], namespace) ==> a == b
  {
    forall a, b | a in t && b in t && Covers(t[a], namespace) && Covers(t[b], namespace)
      ensures a == b
    {
      PrefixesMeet(t[a].prefix, t[b].prefix, namespace);
    }
  }

  /** What an entry can be found for: a track by its full name, or what is announced,
      or what is published, under a namespace. */
  datatype Subject = Track(namespace: Tuple, track: string) | Announced(under: Tuple) | Published(under: Tuple)

  predicate Claims(h: Held, x: Subject)
  {
    match h
    case Name(namespace, track) => x == Track(namespace, track)
    case Namespaces(prefix) => x.Announced? && IsPrefix(prefix, x.under)
    case Tracks(prefix) => x.Published? && IsPrefix(prefix, x.under)
  }

  /** Two entries clash just when something could be found for both. */
  lemma ClashIffShared(a: Held, b: Held)
    ensures Clashes(a, b) <==> exists x :: Claims(a, x) && Claims(b, x)
  {
    if Clashes(a, b) {
      var x := if a.Name? then Track(a.namespace, a.track)
               else
                 var whole := if |a.prefix| >= |b.prefix| then a.prefix else b.prefix;
                 if a.Namespaces? then Announced(whole) else Published(whole);
      if !a.Name? { assert x.under[..|x.under|] == x.under; }
      assert Claims(a, x) && Claims(b, x);
    }
    if x :| Claims(a, x) && Claims(b, x) {
      if !x.Track? { PrefixesMeet(a.prefix, b.prefix, x.under); }
    }
  }

  /** So the table kept apart is the one where every lookup has one answer at most. */
  lemma ApartIff(t: Table)
    ensures Apart(t) <==> forall x, a, b :: a in t && b in t && Claims(t[a], x) && Claims(t[b], x) ==> a == b
  {
    hide Clashes, Claims;
    forall a, b | a in t && b in t
      ensures Clashes(t[a], t[b]) <==> exists x :: Claims(t[a], x) && Claims(t[b], x)
    {
      ClashIffShared(t[a], t[b]);
    }
  }

  /** Conversely, two prefixes that clash both cover some namespace: were the table
      to hold them, a lookup could answer either. */
  lemma ClashIsAmbiguous(a: Held, b: Held)
    requires a.Tracks? && b.Tracks?
    ensures Clashes(a, b) <==> exists namespace :: Covers(a, namespace) && Covers(b, namespace)
  {
    if Clashes(a, b) {
      var whole := if |a.prefix| >= |b.prefix| then a.prefix else b.prefix;
      assert whole[..|whole|] == whole;
      assert Covers(a, whole) && Covers(b, whole);
    }
    if namespace :| Covers(a, namespace) && Covers(b, namespace) {
      PrefixesMeet(a.prefix, b.prefix, namespace);
    }
  }
}
