/**
 The part catalogue: `ListParts` answers a list of UUIDs in request order, or lists the parts of one type
 sorted by name. The catalogue map never changes after construction; the order in which a map is walked is
 not determined, and the library's sort is known only by its contract.
 */
module Inventory {
  import opened Base
  import opened Uuids

  type PartType = int
  const PART_TYPE_UNSPECIFIED: PartType := 0

  datatype Part = Part(
    uuid: string, name: string, description: string, price: int64,
    partType: PartType, stockQuantity: int64, createdAt: int)

  type Catalogue = map<Uuid, Part>

  /** Every part carries the text of the UUID it is filed under. */
  ghost predicate Keyed(t: UuidText, parts: Catalogue) {
    forall k :: k in parts ==> parts[k].uuid == t.format(k)
  }

  // ---- Lookup by UUIDs ----

  function Lookup(t: UuidText, parts: Catalogue, id: string): Result<Part, RpcError> {
    match t.parse(id)
    case None => Err(InvalidArgument(id))
    case Some(u) => if u in parts then Ok(parts[u]) else Err(NotFound(id))
  }

  /** The answer after the given ids were looked up from left to right, stopping at the first failure. */
  function ListByUuids(t: UuidText, parts: Catalogue, ids: seq<string>): Result<seq<Part>, RpcError> {
    if ids == [] then Ok([]) else
      var n := |ids| - 1;
      match ListByUuids(t, parts, ids[..n])
      case Err(e) => Err(e)
      case Ok(found) =>
        match Lookup(t, parts, ids[n])
        case Err(e) => Err(e)
        case Ok(part) => Ok(found + [part])
  }

  /** A success has a part for each id, as found by itself, in request order, duplicates included. */
  lemma {:induction false} FoundByLookup(t: UuidText, parts: Catalogue, ids: seq<string>, found: seq<Part>)
    ensures ListByUuids(t, parts, ids) == Ok(found) <==>
            |found| == |ids| && forall i :: 0 <= i < |ids| ==> Lookup(t, parts, ids[i]) == Ok(found[i])
  {
    if ids != [] {
      var n := |ids| - 1;
      match ListByUuids(t, parts, ids[..n]) {
        case Ok(first) =>
          FoundByLookup(t, parts, ids[..n], first);
          if |found| == |ids| {
            FoundByLookup(t, parts, ids[..n], found[..n]);
            assert found == found[..n] + [found[n]];
          }
        case Err(_) =>
          if |found| == |ids| {
            FoundByLookup(t, parts, ids[..n], found[..n]);
          }
      }
    }
  }

  /** A failure is that of the first id that cannot be looked up. */
  lemma {:induction false} FailsByLookup(t: UuidText, parts: Catalogue, ids: seq<string>, e: RpcError)
    ensures ListByUuids(t, parts, ids) == Err(e) <==>
            exists i :: 0 <= i < |ids| && Lookup(t, parts, ids[i]) == Err(e)
                     && forall j :: 0 <= j < i ==> Lookup(t, parts, ids[j]).Ok?
  {
    if ids != [] {
      var n := |ids| - 1;
      FailsByLookup(t, parts, ids[..n], e);
      match ListByUuids(t, parts, ids[..n]) {
        case Ok(first) =>
          FoundByLookup(t, parts, ids[..n], first);
          assert forall j :: 0 <= j < n ==> Lookup(t, parts, ids[j]) == Ok(first[j]) by {
            forall j | 0 <= j < n ensures Lookup(t, parts, ids[j]) == Ok(first[j]) {
              assert ids[..n][j] == ids[j];
            }
          }
        case Err(f) =>
          FailsByLookup(t, parts, ids[..n], f);
          var i :| 0 <= i < n && Lookup(t, parts, ids[..n][i]) == Err(f)
            && forall j :: 0 <= j < i ==> Lookup(t, parts, ids[..n][j]).Ok?;
          assert forall j :: 0 <= j < n ==> ids[..n][j] == ids[j];
      }
    }
  }

  /** A lookup succeeds with one part per id, in request order and duplicates included, iff each is a key's text. */
  lemma FoundInOrder(t: UuidText, parts: Catalogue, ids: seq<string>, found: seq<Part>)
    ensures ListByUuids(t, parts, ids) == Ok(found) <==>
            |found| == |ids| && forall i :: 0 <= i < |ids| ==>
              t.parse(ids[i]).Some? && t.parse(ids[i]).value in parts && found[i] == parts[t.parse(ids[i]).value]
  {
    FoundByLookup(t, parts, ids, found);
    hide ListByUuids;
    if |found| == |ids| {
      assert forall i :: 0 <= i < |ids| ==>
        (Lookup(t, parts, ids[i]) == Ok(found[i]) <==>
           t.parse(ids[i]).Some? && t.parse(ids[i]).value in parts && found[i] == parts[t.parse(ids[i]).value]);
    }
  }

  /** The text parses to a key of the catalogue. */
  predicate IsKeyText(t: UuidText, parts: Catalogue, id: string) {
    t.parse(id).Some? && t.parse(id).value in parts
  }

  /**
   A lookup fails exactly with what is wrong with the first id that is no key's text: InvalidArgument if it does not
   parse, and else NotFound.
   */
  lemma FirstFailure(t: UuidText, parts: Catalogue, ids: seq<string>, e: RpcError)
    ensures ListByUuids(t, parts, ids) == Err(e) <==>
            exists i :: 0 <= i < |ids| && !IsKeyText(t, parts, ids[i])
                     && (forall j :: 0 <= j < i ==> IsKeyText(t, parts, ids[j]))
                     && e == if t.parse(ids[i]).None? then InvalidArgument(ids[i]) else NotFound(ids[i])
  {
    FailsByLookup(t, parts, ids, e);
    assert forall id :: Lookup(t, parts, id).Ok? <==> IsKeyText(t, parts, id);
    assert forall id :: !IsKeyText(t, parts, id) ==>
      Lookup(t, parts, id) == Err(if t.parse(id).None? then InvalidArgument(id) else NotFound(id));
    hide ListByUuids, Lookup, IsKeyText;
  }

  // ---- Names, compared character by character ----

  predicate Before(a: string, b: string) {
    b != "" && (a == "" || a[0] < b[0] || (a[0] == b[0] && Before(a[1..], b[1..])))
  }

  /** One name is before another if it is a proper beginning of it, or smaller at the first difference. */
  lemma {:induction false} BeforeIsLexicographic(a: string, b: string)
    ensures Before(a, b) <==>
            exists n :: 0 <= n <= |a| && n < |b| && a[..n] == b[..n] && (n == |a| || a[n] < b[n])
  {
    if b != "" && a != "" {
      if a[0] == b[0] {
        BeforeIsLexicographic(a[1..], b[1..]);
        if n :| 0 <= n <= |a[1..]| && n < |b[1..]| && a[1..][..n] == b[1..][..n] && (n == |a[1..]| || a[1..][n] < b[1..][n]) {
          assert a[..n + 1] == [a[0]] + a[1..][..n] && b[..n + 1] == [b[0]] + b[1..][..n];
        }
        if n :| 0 <= n <= |a| && n < |b| && a[..n] == b[..n] && (n == |a| || a[n] < b[n]) {
          assert n > 0;
          assert a[1..][..n - 1] == a[..n][1..] && b[1..][..n - 1] == b[..n][1..];
        }
      } else {
        assert a[0] < b[0] ==> a[..0] == b[..0];
      }
    } else if b != "" {
      assert a[..0] == b[..0];
    }
  }

  lemma {:induction false} BeforeIsTotal(a: string, b: string)
    ensures Before(a, b) || Before(b, a) || a == b
    ensures !(Before(a, b) && Before(b, a))
  {
    if a != "" && b != "" {
      BeforeIsTotal(a[1..], b[1..]);
      assert a == [a[0]] + a[1..] && b == [b[0]] + b[1..];
    }
  }

  lemma {:induction false} BeforeIsTransitive(a: string, b: string, c: string)
    requires !Before(b, a) && !Before(c, b)
    ensures !Before(c, a)
  {
    if a != "" && b != "" && c != "" && a[0] == b[0] == c[0] {
      BeforeIsTransitive(a[1..], b[1..], c[1..]);
    }
  }

  ghost predicate Sorted(names: seq<string>) {
    forall i, j :: 0 <= i < j < |names| ==> !Before(names[j], names[i])
  }

  function Names(ps: seq<Part>): (ns: seq<string>)
    ensures |ns| == |ps| && forall i :: 0 <= i < |ps| ==> ns[i] == ps[i].name
  {
    seq(|ps|, i requires 0 <= i < |ps| => ps[i].name)
  }

  lemma PlaceInBag<T>(s: seq<T>, bag: multiset<T>, x: T) returns (j: nat)
    requires multiset(s) == bag && x in bag
    ensures j < |s| && s[j] == x
  {
    assert x in s;
    j :| 0 <= j < |s| && s[j] == x;
  }

  lemma SameHead(a: seq<string>, b: seq<string>)
    requires Sorted(a) && Sorted(b) && multiset(a) == multiset(b) && a != [] && b != []
    ensures a[0] == b[0]
  {
    var i := PlaceInBag(a, multiset(b), b[0]);
    var j := PlaceInBag(b, multiset(a), a[0]);
    BeforeIsTotal(a[0], b[0]);
    assert i != 0 ==> !Before(a[i], a[0]);
    assert j != 0 ==> !Before(b[j], b[0]);
  }

  function Without<T>(s: seq<T>, j: nat): seq<T>
    requires j < |s|
  {
    s[..j] + s[j + 1..]
  }

  lemma BagWithout<T>(s: seq<T>, j: nat)
    requires j < |s|
    ensures multiset(s) == multiset(Without(s, j)) + multiset{s[j]}
  {
    assert s == s[..j] + [s[j]] + s[j + 1..];
  }

  lemma CancelOne<T>(a: multiset<T>, b: multiset<T>, x: T)
    requires a + multiset{x} == b + multiset{x}
    ensures a == b
  {
    forall y ensures a[y] == b[y] {
      assert (a + multiset{x})[y] == (b + multiset{x})[y];
    }
  }

  lemma EqualBags<T>(a: seq<T>, i: nat, b: seq<T>, j: nat)
    requires i < |a| && j < |b| && a[i] == b[j]
    ensures multiset(Without(a, i)) == multiset(Without(b, j)) <==> multiset(a) == multiset(b)
  {
    BagWithout(a, i);
    BagWithout(b, j);
    if multiset(a) == multiset(b) {
      CancelOne(multiset(Without(a, i)), multiset(Without(b, j)), a[i]);
    }
  }

  lemma EqualLengths<T>(a: seq<T>, b: seq<T>)
    requires multiset(a) == multiset(b)
    ensures |a| == |b|
  {
    assert |multiset(a)| == |a| && |multiset(b)| == |b|;
  }

  lemma SortedTail(names: seq<string>)
    requires Sorted(names) && names != []
    ensures Sorted(names[1..])
  {}

  /** Two sorted sequences with the same elements are the same sequence. */
  lemma {:induction false} SortedIsUnique(a: seq<string>, b: seq<string>)
    requires Sorted(a) && Sorted(b) && multiset(a) == multiset(b)
    ensures a == b
  {
    hide Sorted, Before;
    EqualLengths(a, b);
    if a != [] {
      SameHead(a, b);
      SortedTail(a);
      SortedTail(b);
      assert multiset(a[1..]) == multiset(b[1..]) by {
        EqualBags(a, 0, b, 0);
        assert Without(a, 0) == a[1..] && Without(b, 0) == b[1..];
      }
      SortedIsUnique(a[1..], b[1..]);
      assert a == [a[0]] + a[1..] && b == [b[0]] + b[1..];
    }
  }

  lemma {:induction false} NamesOfEqualBags(a: seq<Part>, b: seq<Part>)
    requires multiset(a) == multiset(b)
    ensures multiset(Names(a)) == multiset(Names(b))
  {
    EqualLengths(a, b);
    if a != [] {
      var j := PlaceInBag(b, multiset(a), a[0]);
      EqualBags(a, 0, b, j);
      NamesOfEqualBags(Without(a, 0), Without(b, j));
      assert Names(Without(a, 0)) == Without(Names(a), 0);
      assert Names(Without(b, j)) == Without(Names(b), j);
      EqualBags(Names(a), 0, Names(b), j);
    }
  }

  // ---- Listing by type ----

  predicate Requested(p: Part, wanted: PartType) {
    wanted == PART_TYPE_UNSPECIFIED || p.partType == wanted
  }

  function OfType(ps: seq<Part>, wanted: PartType): seq<Part> {
    if ps == [] then [] else
      var n := |ps| - 1;
      OfType(ps[..n], wanted) + (if Requested(ps[n], wanted) then [ps[n]] else [])
  }

  /** Filtering keeps the order: it works part by part. */
  lemma {:induction false} OfTypeInOrder(a: seq<Part>, b: seq<Part>, wanted: PartType)
    ensures OfType(a + b, wanted) == OfType(a, wanted) + OfType(b, wanted)
  {
    hide OfType;
    if b == [] {
      assert a + b == a;
      OfTypeNone(wanted);
    } else {
      var first, p := b[..|b| - 1], b[|b| - 1];
      assert b == first + [p] && a + b == (a + first) + [p];
      OfTypeInOrder(a, first, wanted);
      OfTypeOneMore(a + first, p, wanted);
      OfTypeOneMore(first, p, wanted);
    }
  }

  lemma OfTypeNone(wanted: PartType)
    ensures OfType([], wanted) == []
  {}

  lemma OfTypeOneMore(ps: seq<Part>, p: Part, wanted: PartType)
    ensures OfType(ps + [p], wanted) == OfType(ps, wanted) + if wanted == 0 || p.partType == wanted then [p] else []
  {
    assert (ps + [p])[..|ps|] == ps;
  }

  lemma {:induction false} OfTypeCounts(ps: seq<Part>, wanted: PartType, p: Part)
    ensures multiset(OfType(ps, wanted))[p] == if Requested(p, wanted) then multiset(ps)[p] else 0
  {
    if ps != [] {
      var n := |ps| - 1;
      OfTypeCounts(ps[..n], wanted, p);
      assert ps == ps[..n] + [ps[n]];
    }
  }

  /** The keys among `keys` under which the part p is filed. */
  ghost function Filed(parts: Catalogue, keys: set<Uuid>, p: Part): set<Uuid>
    requires keys <= parts.Keys
  {
    set k | k in keys && parts[k] == p
  }

  ghost predicate Collects(parts: Catalogue, keys: set<Uuid>, ps: seq<Part>)
    requires keys <= parts.Keys
  {
    forall p :: multiset(ps)[p] == |Filed(parts, keys, p)|
  }

  lemma FiledOneMore(parts: Catalogue, keys: set<Uuid>, p: Part, k: Uuid)
    requires keys <= parts.Keys && k in parts && k !in keys
    ensures |Filed(parts, keys + {k}, p)| == |Filed(parts, keys, p)| + if parts[k] == p then 1 else 0
  {
    if parts[k] == p {
      assert Filed(parts, keys + {k}, p) == Filed(parts, keys, p) + {k};
    } else {
      assert Filed(parts, keys + {k}, p) == Filed(parts, keys, p);
    }
  }

  lemma CollectsOneMore(parts: Catalogue, keys: set<Uuid>, ps: seq<Part>, k: Uuid)
    requires keys <= parts.Keys && Collects(parts, keys, ps) && k in parts && k !in keys
    ensures Collects(parts, keys + {k}, ps + [parts[k]])
  {
    forall p ensures multiset(ps + [parts[k]])[p] == |Filed(parts, keys + {k}, p)| {
      FiledOneMore(parts, keys, p, k);
      hide Filed;
      assert multiset(ps)[p] == |Filed(parts, keys, p)|;
      assert multiset(ps + [parts[k]]) == multiset(ps) + multiset{parts[k]};
    }
  }

  /**
   What a listing promises: it is sorted by name and holds each part of the requested type (every part when the
   type is unspecified) once for each key it is filed under, and nothing else.
   */
  ghost predicate Lists(parts: Catalogue, wanted: PartType, listed: seq<Part>) {
    && Sorted(Names(listed))
    && forall p :: multiset(listed)[p] == if Requested(p, wanted) then |Filed(parts, parts.Keys, p)| else 0
  }

  /** The order in which the map is walked shows at most in how parts of equal name are arranged. */
  lemma ListingIsDetermined(parts: Catalogue, wanted: PartType, l1: seq<Part>, l2: seq<Part>)
    requires Lists(parts, wanted, l1) && Lists(parts, wanted, l2)
    ensures Names(l1) == Names(l2)
    ensures (forall i, j :: 0 <= i < j < |l1| ==> l1[i].name != l1[j].name) ==> l1 == l2
  {
    assert multiset(l1) == multiset(l2);
    NamesOfEqualBags(l1, l2);
    SortedIsUnique(Names(l1), Names(l2));
    if forall i, j :: 0 <= i < j < |l1| ==> l1[i].name != l1[j].name {
      forall i | 0 <= i < |l1| ensures l1[i] == l2[i] {
        var k := PlaceInBag(l1, multiset(l2), l2[i]);
        assert Names(l2)[i] == Names(l1)[i];
        assert l1[k].name == l1[i].name;
      }
      assert |Names(l1)| == |Names(l2)|;
    }
  }

  /** A part is listed iff it is filed and of the requested type, and then once for each key it is filed under. */
  lemma ListingIsComplete(parts: Catalogue, wanted: PartType, listed: seq<Part>)
    requires Lists(parts, wanted, listed)
    ensures forall p :: p in listed <==> (wanted == 0 || p.partType == wanted) && exists k :: k in parts && parts[k] == p
    ensures forall p :: p in listed ==> multiset(listed)[p] == |set k | k in parts && parts[k] == p|
  {
    forall p
      ensures p in listed <==> (wanted == 0 || p.partType == wanted) && exists k :: k in parts && parts[k] == p
      ensures p in listed ==> multiset(listed)[p] == |set k | k in parts && parts[k] == p|
    {
      assert Filed(parts, parts.Keys, p) == set k | k in parts && parts[k] == p;
      assert p in listed <==> multiset(listed)[p] > 0;
      if k :| k in parts && parts[k] == p {
        assert k in Filed(parts, parts.Keys, p);
      }
      if |Filed(parts, parts.Keys, p)| > 0 {
        var k :| k in Filed(parts, parts.Keys, p);
      }
    }
  }

  /** Stands for the library sort: callers know its contract only, which leaves equal names in any order. */
  method SortByName(parts: seq<Part>) returns (sorted: seq<Part>)
    ensures multiset(sorted) == multiset(parts)
    ensures Sorted(Names(sorted))
  {
    sorted := [];
    for i := 0 to |parts|
      invariant multiset(sorted) == multiset(parts[..i])
      invariant Sorted(Names(sorted))
    {
      sorted := InsertByName(sorted, parts[i]);
      assert parts[..i + 1] == parts[..i] + [parts[i]];
    }
    assert parts[..|parts|] == parts;
  }

  method InsertByName(sorted: seq<Part>, p: Part) returns (longer: seq<Part>)
    requires Sorted(Names(sorted))
    ensures multiset(longer) == multiset(sorted) + multiset{p}
    ensures Sorted(Names(longer))
  {
    var at := 0;
    while at < |sorted| && !Before(p.name, sorted[at].name)
      invariant at <= |sorted|
      invariant forall i :: 0 <= i < at ==> !Before(p.name, Names(sorted)[i])
    {
      at := at + 1;
    }
    longer := sorted[..at] + [p] + sorted[at..];
    assert sorted == sorted[..at] + sorted[at..];
    assert Names(longer) == Names(sorted)[..at] + [p.name] + Names(sorted)[at..];
    InsertedStaysSorted(Names(sorted), at, p.name);
  }

  lemma InsertedStaysSorted(names: seq<string>, at: nat, name: string)
    requires Sorted(names) && at <= |names|
    requires forall i :: 0 <= i < at ==> !Before(name, names[i])
    requires at < |names| ==> Before(name, names[at])
    ensures Sorted(names[..at] + [name] + names[at..])
  {
    forall k | at <= k < |names| ensures !Before(names[k], name) {
      BeforeIsTotal(name, names[at]);
      if at < k {
        BeforeIsTransitive(name, names[at], names[k]);
      }
    }
  }

  class InventoryServer {
    const text: UuidText
    const parts: Catalogue

    constructor (text: UuidText, parts: Catalogue)
      ensures this.text == text && this.parts == parts
    {
      this.text, this.parts := text, parts;
    }

    /** Answers a request that names `uuids`, whatever type it also names; otherwise lists by type. */
    method ListParts(wanted: PartType, uuids: seq<string>) returns (r: Result<seq<Part>, RpcError>)
      ensures uuids != [] ==> r == ListByUuids(text, parts, uuids)
      ensures uuids == [] ==> r.Ok? && Lists(parts, wanted, r.value)
    {
      if |uuids| > 0 {
        r := FindParts(uuids);
      } else {
        var listed := AllParts();
        if wanted != PART_TYPE_UNSPECIFIED {
          forall p {
            OfTypeCounts(listed, wanted, p);
          }
          listed := FilterByType(listed, wanted);
        }
        listed := SortByName(listed);
        r := Ok(listed);
      }
    }

    method FindParts(uuids: seq<string>) returns (r: Result<seq<Part>, RpcError>)
      ensures r == ListByUuids(text, parts, uuids)
    {
      var result: seq<Part> := [];
      for i := 0 to |uuids|
        invariant ListByUuids(text, parts, uuids[..i]) == Ok(result)
      {
        assert uuids[..i + 1][..i] == uuids[..i];
        var u := text.parse(uuids[i]);
        if u.None? {
          StopsAt(text, parts, uuids, i);
          return Err(InvalidArgument(uuids[i]));
        }
        if u.value !in parts {
          StopsAt(text, parts, uuids, i);
          return Err(NotFound(uuids[i]));
        }
        result := result + [parts[u.value]];
      }
      assert uuids[..|uuids|] == uuids;
      r := Ok(result);
    }

    /** Walks the whole map, in whatever order. */
    method AllParts() returns (all: seq<Part>)
      ensures Collects(parts, parts.Keys, all)
    {
      all := [];
      var pending := parts.Keys;
      while pending != {}
        invariant pending <= parts.Keys
        invariant Collects(parts, parts.Keys - pending, all)
        decreases |pending|
      {
        var k :| k in pending;
        CollectsOneMore(parts, parts.Keys - pending, all, k);
        assert parts.Keys - pending + {k} == parts.Keys - (pending - {k});
        all, pending := all + [parts[k]], pending - {k};
      }
      assert parts.Keys - pending == parts.Keys;
    }
  }

  method FilterByType(ps: seq<Part>, wanted: PartType) returns (filtered: seq<Part>)
    requires wanted != PART_TYPE_UNSPECIFIED
    ensures filtered == OfType(ps, wanted)
  {
    filtered := [];
    for i := 0 to |ps|
      invariant filtered == OfType(ps[..i], wanted)
    {
      assert ps[..i + 1][..i] == ps[..i];
      if ps[i].partType == wanted {
        filtered := filtered + [ps[i]];
      }
    }
    assert ps[..|ps|] == ps;
  }

  lemma {:induction false} StopsAt(t: UuidText, parts: Catalogue, ids: seq<string>, i: nat)
    requires i < |ids| && ListByUuids(t, parts, ids[..i]).Ok? && Lookup(t, parts, ids[i]).Err?
    ensures ListByUuids(t, parts, ids) == Err(Lookup(t, parts, ids[i]).error)
    decreases |ids|
  {
    var n := |ids| - 1;
    if i < n {
      assert ids[..n][..i] == ids[..i];
      StopsAt(t, parts, ids[..n], i);
    }
  }
}
