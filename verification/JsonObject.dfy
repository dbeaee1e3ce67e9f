/**
 The template of the generated JSON codecs. An object is a sequence of members (section 4 of RFC 8259) whose names
 need not differ; a member's value is a scalar, or something that only skipping understands. A schema lists the field
 names in declaration order, the masks of the required ones, and how a field is read, stored and printed.
 */
module JsonObject {
  import opened Base
  import opened RequiredFields

  datatype Scalar = Null | Text(s: string) | Number(n: int) | Other(raw: string)

  datatype Member = Member(key: string, value: Scalar)

  datatype Schema<!T> = Schema(
    names: seq<string>, masks: seq<bv8>,
    decodes: (nat, Scalar) -> bool,
    put: (T, nat, Scalar) -> T,          // the struct with a field set to what a value decodes to
    get: (T, nat) -> Option<Scalar>)     // how a field is printed, if it is

  ghost predicate Distinct(names: seq<string>) {
    forall i, j :: 0 <= i < j < |names| ==> names[i] != names[j]
  }

  ghost predicate WellFormed<T>(sc: Schema<T>) {
    Distinct(sc.names) && forall f: nat :: Required(sc.masks, f) ==> f < |sc.names|
  }

  /** The field that a key names. */
  function IndexOf(names: seq<string>, key: string): (i: Option<nat>)
    ensures i.Some? ==> i.value < |names| && names[i.value] == key
    ensures i.None? ==> key !in names
  {
    if names == [] then None
    else if names[|names| - 1] == key then Some(|names| - 1)
    else IndexOf(names[..|names| - 1], key)
  }

  lemma IndexIsExact(names: seq<string>, key: string, i: nat)
    requires Distinct(names)
    ensures IndexOf(names, key) == Some(i) <==> i < |names| && names[i] == key
  {}

  datatype DecodeError = BadField(name: string) | MissingFields(names: seq<string>)

  /** The members read one after the other into the receiver, stopping at the first that does not decode. */
  function Scan<T>(sc: Schema<T>, receiver: T, members: seq<Member>): Result<T, string> {
    if members == [] then Ok(receiver) else
      var n := |members| - 1;
      match Scan(sc, receiver, members[..n])
      case Err(name) => Err(name)
      case Ok(t) =>
        match IndexOf(sc.names, members[n].key)
        case None => Ok(t)
        case Some(i) => if sc.decodes(i, members[n].value) then Ok(sc.put(t, i, members[n].value))
                        else Err(members[n].key)
  }

  /** The required-field bits after the members: each occurrence of a required field sets its bit. */
  function SeenBytes<T>(sc: Schema<T>, members: seq<Member>): (seen: seq<bv8>)
    ensures |seen| == |sc.masks|
  {
    if members == [] then seq(|sc.masks|, _ => 0) else
      var n := |members| - 1;
      MarkSeen(sc, SeenBytes(sc, members[..n]), members[n].key)
  }

  function MarkSeen<T>(sc: Schema<T>, seen: seq<bv8>, key: string): (r: seq<bv8>)
    requires |seen| == |sc.masks|
    ensures |r| == |seen|
  {
    match IndexOf(sc.names, key)
    case None => seen
    case Some(i) => if Required(sc.masks, i) then seen[i / 8 := seen[i / 8] | BitOf(i % 8)] else seen
  }

  function DecodeOf<T>(sc: Schema<T>, receiver: T, members: seq<Member>): Result<T, DecodeError> {
    match Scan(sc, receiver, members)
    case Err(name) => Err(BadField(name))
    case Ok(t) =>
      var missing := Missing(SeenBytes(sc, members), sc.masks);
      if missing == [] then Ok(t) else Err(MissingFields(NamesOf(sc.names, missing)))
  }

  /** The decoder itself. */
  method Decode<T>(sc: Schema<T>, receiver: T, members: seq<Member>) returns (r: Result<T, DecodeError>)
    ensures r == DecodeOf(sc, receiver, members)
  {
    hide Missing, NamesOf, Required, BitOf;
    var t := receiver;
    var requiredBitSet: seq<bv8> := seq(|sc.masks|, _ => 0);
    for i := 0 to |members|
      invariant Scan(sc, receiver, members[..i]) == Ok(t)
      invariant requiredBitSet == SeenBytes(sc, members[..i])
    {
      assert members[..i + 1][..i] == members[..i];
      requiredBitSet := MarkSeen(sc, requiredBitSet, members[i].key);
      var field := IndexOf(sc.names, members[i].key);
      if field.Some? {
        if !sc.decodes(field.value, members[i].value) {
          ScanStops(sc, receiver, members, i + 1);
          return Err(BadField(members[i].key));
        }
        t := sc.put(t, field.value, members[i].value);
      }
    }
    assert members[..|members|] == members;
    var failures := RequiredFailures(requiredBitSet, sc.masks, sc.names);
    NamesMatchFields(sc.names, Missing(requiredBitSet, sc.masks));
    if |failures| > 0 {
      return Err(MissingFields(failures));
    }
    return Ok(t);
  }

  lemma NamesMatchFields(names: seq<string>, fields: seq<nat>)
    ensures |NamesOf(names, fields)| == |fields|
  {}

  lemma {:induction false} ScanStops<T>(sc: Schema<T>, receiver: T, members: seq<Member>, i: nat)
    requires i <= |members| && Scan(sc, receiver, members[..i]).Err?
    ensures Scan(sc, receiver, members) == Scan(sc, receiver, members[..i])
    decreases |members|
  {
    if i == |members| {
      assert members[..i] == members;
    } else {
      assert members[..|members| - 1][..i] == members[..i];
      ScanStops(sc, receiver, members[..|members| - 1], i);
    }
  }

  // ---- When decoding succeeds ----

  predicate MemberDecodes<T>(sc: Schema<T>, m: Member) {
    var field := IndexOf(sc.names, m.key);
    field.Some? ==> sc.decodes(field.value, m.value)
  }

  /** Every occurrence of a known key decodes, also one that a later occurrence overrides. */
  ghost predicate AllDecode<T>(sc: Schema<T>, members: seq<Member>) {
    forall i :: 0 <= i < |members| ==> MemberDecodes(sc, members[i])
  }

  predicate Occurs(members: seq<Member>, key: string) {
    exists i :: 0 <= i < |members| && members[i].key == key
  }

  ghost predicate RequiredOccur<T>(sc: Schema<T>, members: seq<Member>) {
    forall f: nat :: Required(sc.masks, f) && f < |sc.names| ==> Occurs(members, sc.names[f])
  }

  lemma {:induction false} ScanSucceeds<T>(sc: Schema<T>, receiver: T, members: seq<Member>)
    ensures Scan(sc, receiver, members).Ok? <==> AllDecode(sc, members)
  {
    if members != [] {
      var n := |members| - 1;
      ScanSucceeds(sc, receiver, members[..n]);
      assert members == members[..n] + [members[n]];
      assert AllDecode(sc, members) <==> AllDecode(sc, members[..n]) && MemberDecodes(sc, members[n]);
    }
  }

  lemma SamePlace(f: nat, i: nat)
    ensures f == i <==> f / 8 == i / 8 && f % 8 == i % 8
  {
    assert f == 8 * (f / 8) + f % 8 && i == 8 * (i / 8) + i % 8;
  }

  lemma MarkedBit<T>(sc: Schema<T>, seen: seq<bv8>, i: nat, f: nat)
    requires |seen| == |sc.masks| && Required(sc.masks, i)
    ensures Required(seen[i / 8 := seen[i / 8] | BitOf(i % 8)], f) <==> Required(seen, f) || f == i
  {
    hide HasBit, BitOf;
    SamePlace(f, i);
    if f / 8 == i / 8 {
      SetBit(seen[i / 8], i % 8, f % 8);
    }
  }

  lemma OccursOneMore(members: seq<Member>, m: Member, key: string)
    ensures Occurs(members + [m], key) <==> Occurs(members, key) || m.key == key
  {
    var longer := members + [m];
    assert longer[|members|] == m;
    if Occurs(members, key) {
      var i :| 0 <= i < |members| && members[i].key == key;
      assert longer[i].key == key;
    }
  }

  lemma MarkSeenIsExact<T>(sc: Schema<T>, seen: seq<bv8>, key: string, f: nat)
    requires WellFormed(sc) && |seen| == |sc.masks|
    ensures Required(MarkSeen(sc, seen, key), f) <==>
            Required(seen, f) || (Required(sc.masks, f) && key == sc.names[f])
  {
    hide HasBit, BitOf, Distinct;
    IndexIsExact(sc.names, key, f);
    match IndexOf(sc.names, key)
    case None =>
    case Some(i) =>
      if Required(sc.masks, i) {
        MarkedBit(sc, seen, i, f);
      }
  }

  lemma {:induction false} SeenIsExact<T>(sc: Schema<T>, members: seq<Member>, f: nat)
    requires WellFormed(sc)
    ensures Required(SeenBytes(sc, members), f) <==> Required(sc.masks, f) && Occurs(members, sc.names[f])
  {
    hide HasBit, BitOf, Distinct, Occurs, MarkSeen;
    if members == [] {
      NoBitsSet(|sc.masks|, f);
      NothingOccurs();
      hide Required;
    } else {
      var n := |members| - 1;
      SeenIsExact(sc, members[..n], f);
      MarkSeenIsExact(sc, SeenBytes(sc, members[..n]), members[n].key, f);
      assert members == members[..n] + [members[n]];
      if f < |sc.names| {
        OccursOneMore(members[..n], members[n], sc.names[f]);
      }
      hide Required;
    }
  }

  lemma NothingOccurs()
    ensures forall key :: !Occurs([], key)
  {}

  lemma NoBitsSet(n: nat, f: nat)
    ensures !Required(seq(n, _ => 0), f)
  {
    if f / 8 < n {
      ZeroHasNoBits(0);
    }
  }

  /** Decoding succeeds if and only if every known member decodes and every required field occurs. */
  lemma DecodesExactlyWhen<T>(sc: Schema<T>, receiver: T, members: seq<Member>)
    requires WellFormed(sc)
    ensures DecodeOf(sc, receiver, members).Ok? <==> AllDecode(sc, members) && RequiredOccur(sc, members)
  {
    hide HasBit, Distinct, Scan, SeenBytes, Missing, NamesOf, AllDecode;
    ScanSucceeds(sc, receiver, members);
    var missing := Missing(SeenBytes(sc, members), sc.masks);
    MissingIsExact(SeenBytes(sc, members), sc.masks);
    forall f: nat ensures f in missing <==> Required(sc.masks, f) && !Occurs(members, sc.names[f]) {
      SeenIsExact(sc, members, f);
    }
    hide Required, Occurs, Ascending;
    if missing != [] {
      assert missing[0] in missing;
    }
  }

  lemma {:induction false} ScanFailsAt<T>(sc: Schema<T>, receiver: T, members: seq<Member>, i: nat)
    requires i < |members| && !MemberDecodes(sc, members[i]) && forall j :: 0 <= j < i ==> MemberDecodes(sc, members[j])
    ensures Scan(sc, receiver, members) == Err(members[i].key)
  {
    ScanSucceeds(sc, receiver, members[..i]);
    assert members[..i + 1][..i] == members[..i];
    ScanStops(sc, receiver, members, i + 1);
  }

  lemma {:induction false} FirstBadMember<T>(sc: Schema<T>, members: seq<Member>) returns (i: nat)
    requires !AllDecode(sc, members)
    ensures i < |members| && !MemberDecodes(sc, members[i]) && forall j :: 0 <= j < i ==> MemberDecodes(sc, members[j])
  {
    var n := |members| - 1;
    if AllDecode(sc, members[..n]) {
      i := n;
      assert forall j :: 0 <= j < n ==> members[..n][j] == members[j];
    } else {
      i := FirstBadMember(sc, members[..n]);
      assert forall j :: 0 <= j < n ==> members[..n][j] == members[j];
    }
  }

  /** The fields are those that are required and do not occur, in ascending order. */
  ghost predicate AreMissing<T>(sc: Schema<T>, members: seq<Member>, fields: seq<nat>)
    requires WellFormed(sc)
  {
    Ascending(fields) && forall f: nat :: f in fields <==> Required(sc.masks, f) && !Occurs(members, sc.names[f])
  }

  /** A failure names the first member that does not decode, or if all do, the required fields that do not occur. */
  lemma FailsExactlyWith<T>(sc: Schema<T>, receiver: T, members: seq<Member>, e: DecodeError)
    requires WellFormed(sc)
    ensures DecodeOf(sc, receiver, members) == Err(e) <==>
            match e
            case BadField(name) =>
              (exists i :: 0 <= i < |members| && !MemberDecodes(sc, members[i]) && name == members[i].key
                        && forall j :: 0 <= j < i ==> MemberDecodes(sc, members[j]))
            case MissingFields(names) =>
              AllDecode(sc, members)
              && exists fields :: fields != [] && AreMissing(sc, members, fields) && names == NamesOf(sc.names, fields)
  {
    hide HasBit, Scan, SeenBytes, Missing, NamesOf, MemberDecodes;
    ScanSucceeds(sc, receiver, members);
    if !AllDecode(sc, members) {
      var i := FirstBadMember(sc, members);
      ScanFailsAt(sc, receiver, members, i);
    }
    MissingIsMissing(sc, members);
    var missing := Missing(SeenBytes(sc, members), sc.masks);
    hide AllDecode, AreMissing, WellFormed;
    forall fields | AreMissing(sc, members, fields) ensures fields == missing {
      OneListOfMissing(sc, members, fields, missing);
    }
  }

  lemma MissingIsMissing<T>(sc: Schema<T>, members: seq<Member>)
    requires WellFormed(sc)
    ensures AreMissing(sc, members, Missing(SeenBytes(sc, members), sc.masks))
  {
    hide HasBit, Distinct, SeenBytes, Missing, Required, Occurs;
    MissingIsExact(SeenBytes(sc, members), sc.masks);
    forall f: nat { SeenIsExact(sc, members, f); }
  }

  /** There is one ascending list of the same numbers. */
  lemma OneListOfMissing<T>(sc: Schema<T>, members: seq<Member>, a: seq<nat>, b: seq<nat>)
    requires WellFormed(sc) && AreMissing(sc, members, a) && AreMissing(sc, members, b)
    ensures a == b
  {
    hide Required, Occurs;
    AscendingIsUnique(a, b);
  }

  lemma {:induction false} AscendingIsUnique(a: seq<nat>, b: seq<nat>)
    requires Ascending(a) && Ascending(b) && forall f: nat :: f in a <==> f in b
    ensures a == b
  {
    if a == [] || b == [] {
      SameEmptiness(a, b);
    } else {
      assert a[|a| - 1] in b && b[|b| - 1] in a;
      var x, p, q := a[|a| - 1], a[..|a| - 1], b[..|b| - 1];
      assert b[|b| - 1] == x;
      assert a == p + [x] && b == q + [x];
      ButTheLast(p, x);
      ButTheLast(q, x);
      AscendingIsUnique(p, q);
    }
  }

  lemma ButTheLast(p: seq<nat>, x: nat)
    requires Ascending(p + [x])
    ensures Ascending(p) && forall f: nat :: f in p <==> f in p + [x] && f != x
  {
    assert forall i :: 0 <= i < |p| ==> (p + [x])[i] == p[i] && p[i] < (p + [x])[|p|];
  }

  lemma SameEmptiness(a: seq<nat>, b: seq<nat>)
    requires forall f: nat :: f in a <==> f in b
    ensures a == [] <==> b == []
  {
    assert a != [] ==> a[0] in a;
    assert b != [] ==> b[0] in b;
  }

  // ---- What decoding yields ----

  /** The value of the last member with a key. */
  function Last(members: seq<Member>, key: string): Option<Scalar> {
    if members == [] then None else
      var n := |members| - 1;
      if members[n].key == key then Some(members[n].value) else Last(members[..n], key)
  }

  ghost predicate Overwrites<T>(sc: Schema<T>, t: T, i: nat, v: Scalar, w: Scalar) {
    sc.put(sc.put(t, i, v), i, w) == sc.put(t, i, w)
  }

  ghost predicate Commutes<T>(sc: Schema<T>, t: T, i: nat, v: Scalar, j: nat, w: Scalar) {
    sc.put(sc.put(t, i, v), j, w) == sc.put(sc.put(t, j, w), i, v)
  }

  /** Fields are stored independently of each other, and storing one forgets what it held. */
  ghost predicate Independent<T(!new)>(sc: Schema<T>) {
    && (forall t, i: nat, v, w :: Overwrites(sc, t, i, v, w))
    && (forall t, i: nat, v, j: nat, w :: i != j ==> Commutes(sc, t, i, v, j, w))
  }

  /** The receiver with the first n fields set from the last value of their keys, where there is one. */
  function FromLast<T>(sc: Schema<T>, receiver: T, members: seq<Member>, n: nat): T
    requires n <= |sc.names|
  {
    if n == 0 then receiver else
      var t := FromLast(sc, receiver, members, n - 1);
      match Last(members, sc.names[n - 1])
      case None => t
      case Some(v) => sc.put(t, n - 1, v)
  }

  lemma {:induction false} OneMoreMember<T(!new)>(sc: Schema<T>, receiver: T, members: seq<Member>, m: Member, n: nat)
    requires WellFormed(sc) && Independent(sc) && n <= |sc.names|
    ensures FromLast(sc, receiver, members + [m], n) ==
            match IndexOf(sc.names, m.key)
            case Some(i) => if i < n then sc.put(FromLast(sc, receiver, members, n), i, m.value)
                            else FromLast(sc, receiver, members, n)
            case None => FromLast(sc, receiver, members, n)
  {
    if n > 0 {
      OneMoreMember(sc, receiver, members, m, n - 1);
      assert (members + [m])[..|members|] == members;
      IndexIsExact(sc.names, m.key, n - 1);
      var t := FromLast(sc, receiver, members, n - 1);
      match IndexOf(sc.names, m.key)
      case None =>
      case Some(i) =>
        if v: Scalar :| Last(members, sc.names[n - 1]) == Some(v) {
          if i < n - 1 {
            assert Commutes(sc, t, i, m.value, n - 1, v);
          } else if i == n - 1 {
            assert Overwrites(sc, t, i, v, m.value);
          }
        }
    }
  }

  lemma {:induction false} NoMembers<T>(sc: Schema<T>, receiver: T, n: nat)
    requires n <= |sc.names|
    ensures FromLast(sc, receiver, [], n) == receiver
  {
    if n > 0 {
      NoMembers(sc, receiver, n - 1);
    }
  }

  lemma {:induction false} ScanYieldsLast<T(!new)>(sc: Schema<T>, receiver: T, members: seq<Member>)
    requires WellFormed(sc) && Independent(sc) && Scan(sc, receiver, members).Ok?
    ensures Scan(sc, receiver, members) == Ok(FromLast(sc, receiver, members, |sc.names|))
  {
    hide Independent, WellFormed, FromLast;
    if members == [] {
      NoMembers(sc, receiver, |sc.names|);
    } else {
      var n := |members| - 1;
      ScanYieldsLast(sc, receiver, members[..n]);
      OneMoreMember(sc, receiver, members[..n], members[n], |sc.names|);
      assert members == members[..n] + [members[n]];
    }
  }

  /** A successful decoder yields each known key's last value. */
  lemma DecodeYieldsLast<T(!new)>(sc: Schema<T>, receiver: T, members: seq<Member>)
    requires WellFormed(sc) && Independent(sc) && DecodeOf(sc, receiver, members).Ok?
    ensures DecodeOf(sc, receiver, members) == Ok(FromLast(sc, receiver, members, |sc.names|))
  {
    hide Independent, WellFormed, Scan;
    ScanYieldsLast(sc, receiver, members);
  }

  // ---- What does not matter ----

  lemma {:induction false} ScanSkips<T>(sc: Schema<T>, receiver: T, before: seq<Member>, m: Member, after: seq<Member>)
    requires m.key !in sc.names
    ensures Scan(sc, receiver, before + [m] + after) == Scan(sc, receiver, before + after)
  {
    hide IndexOf;
    var long, short := before + [m] + after, before + after;
    if after == [] {
      assert long[..|long| - 1] == before && short == before;
    } else {
      var n := |after| - 1;
      ScanSkips(sc, receiver, before, m, after[..n]);
      assert long[..|long| - 1] == before + [m] + after[..n];
      assert short[..|short| - 1] == before + after[..n];
    }
  }

  lemma SeenOneMore<T>(sc: Schema<T>, members: seq<Member>, m: Member)
    ensures SeenBytes(sc, members + [m]) == MarkSeen(sc, SeenBytes(sc, members), m.key)
    ensures m.key !in sc.names ==> SeenBytes(sc, members + [m]) == SeenBytes(sc, members)
  {
    hide Required, BitOf;
    assert (members + [m])[..|members|] == members;
  }

  lemma {:induction false} SeenSkips<T>(sc: Schema<T>, before: seq<Member>, m: Member, after: seq<Member>)
    requires m.key !in sc.names
    ensures SeenBytes(sc, before + [m] + after) == SeenBytes(sc, before + after)
  {
    hide SeenBytes, MarkSeen;
    if after == [] {
      SeenOneMore(sc, before, m);
      assert before + [m] + [] == before + [m] && before + [] == before;
    } else {
      var n := |after| - 1;
      SeenSkips(sc, before, m, after[..n]);
      SeenOneMore(sc, before + [m] + after[..n], after[n]);
      SeenOneMore(sc, before + after[..n], after[n]);
      assert before + [m] + after == before + [m] + after[..n] + [after[n]];
      assert before + after == before + after[..n] + [after[n]];
    }
  }

  /** A member with an unknown key, wherever it stands, changes neither result nor error. */
  lemma UnknownMembersDoNotMatter<T>(sc: Schema<T>, receiver: T, before: seq<Member>, m: Member, after: seq<Member>)
    requires m.key !in sc.names
    ensures DecodeOf(sc, receiver, before + [m] + after) == DecodeOf(sc, receiver, before + after)
  {
    ScanSkips(sc, receiver, before, m, after);
    SeenSkips(sc, before, m, after);
    hide Scan, SeenBytes, Missing, NamesOf;
  }

  ghost predicate KeysDiffer(members: seq<Member>) {
    forall i, j :: 0 <= i < j < |members| ==> members[i].key != members[j].key
  }

  lemma {:induction false} LastOfDistinct(members: seq<Member>, key: string, v: Scalar)
    requires KeysDiffer(members)
    ensures Last(members, key) == Some(v) <==> Member(key, v) in members
  {
    if members != [] {
      var n := |members| - 1;
      LastOfDistinct(members[..n], key, v);
      assert members == members[..n] + [members[n]];
      if members[n].key == key && Member(key, v) in members {
        var i :| 0 <= i < |members| && members[i] == Member(key, v);
        assert i == n;
      }
    }
  }

  lemma SameLast(a: seq<Member>, b: seq<Member>, key: string)
    requires KeysDiffer(a) && KeysDiffer(b) && forall m :: m in a <==> m in b
    ensures Last(a, key) == Last(b, key)
  {
    if v :| Last(a, key) == Some(v) {
      LastOfDistinct(a, key, v);
      LastOfDistinct(b, key, v);
    } else if v :| Last(b, key) == Some(v) {
      LastOfDistinct(a, key, v);
      LastOfDistinct(b, key, v);
    }
  }

  lemma {:induction false} SameFromLast<T>(sc: Schema<T>, receiver: T, a: seq<Member>, b: seq<Member>, n: nat)
    requires n <= |sc.names| && forall key :: Last(a, key) == Last(b, key)
    ensures FromLast(sc, receiver, a, n) == FromLast(sc, receiver, b, n)
  {
    if n > 0 {
      SameFromLast(sc, receiver, a, b, n - 1);
    }
  }

  /**
   Objects with the same members decode alike, repeated keys included, when each key's last value is the same in both.
   */
  lemma OrderDoesNotMatter<T(!new)>(sc: Schema<T>, receiver: T, a: seq<Member>, b: seq<Member>)
    requires WellFormed(sc) && Independent(sc)
    requires (forall m :: m in a <==> m in b) && forall key :: Last(a, key) == Last(b, key)
    ensures DecodeOf(sc, receiver, a).Ok? <==> DecodeOf(sc, receiver, b).Ok?
    ensures DecodeOf(sc, receiver, a).Ok? ==> DecodeOf(sc, receiver, a) == DecodeOf(sc, receiver, b)
  {
    hide Independent, WellFormed, DecodeOf, MemberDecodes, Required, FromLast, Last;
    SameFromLast(sc, receiver, a, b, |sc.names|);
    DecodesExactlyWhen(sc, receiver, a);
    DecodesExactlyWhen(sc, receiver, b);
    SameDecodability(sc, a, b);
    if DecodeOf(sc, receiver, a).Ok? {
      DecodeYieldsLast(sc, receiver, a);
      DecodeYieldsLast(sc, receiver, b);
    }
  }

  lemma {:induction false} LastOfSum(a: seq<Member>, b: seq<Member>, key: string)
    ensures Last(a + b, key) == if Last(b, key).Some? then Last(b, key) else Last(a, key)
  {
    if b == [] {
      assert a + b == a;
    } else {
      LastOfSum(a, b[..|b| - 1], key);
      assert (a + b)[..|a + b| - 1] == a + b[..|b| - 1];
    }
  }

  lemma LastOfTwo(m: Member, n: Member, key: string)
    ensures Last([m, n], key) ==
            if n.key == key then Some(n.value) else if m.key == key then Some(m.value) else None
  {
    assert [m, n][..1] == [m] && [m][..0] == [];
    assert Last([m], key) == if m.key == key then Some(m.value) else None;
  }

  /** Neighbours with different keys may change places, anywhere in any object: only a key's own values are ordered. */
  lemma NeighboursMaySwap<T(!new)>(sc: Schema<T>, receiver: T, p: seq<Member>, m: Member, n: Member, q: seq<Member>)
    requires WellFormed(sc) && Independent(sc) && m.key != n.key
    ensures var a, b := p + [m, n] + q, p + [n, m] + q;
      && (DecodeOf(sc, receiver, a).Ok? <==> DecodeOf(sc, receiver, b).Ok?)
      && (DecodeOf(sc, receiver, a).Ok? ==> DecodeOf(sc, receiver, a) == DecodeOf(sc, receiver, b))
  {
    hide Independent, WellFormed, DecodeOf, Last;
    var a, b := p + [m, n] + q, p + [n, m] + q;
    forall key ensures Last(a, key) == Last(b, key) {
      LastOfSum(p + [m, n], q, key);
      LastOfSum(p + [n, m], q, key);
      LastOfSum(p, [m, n], key);
      LastOfSum(p, [n, m], key);
      LastOfTwo(m, n, key);
      LastOfTwo(n, m, key);
    }
    assert forall x :: x in a <==> x in p || x == m || x == n || x in q;
    assert forall x :: x in b <==> x in p || x == m || x == n || x in q;
    OrderDoesNotMatter(sc, receiver, a, b);
  }

  /** So members whose keys all differ may come in any order. */
  lemma DistinctKeysMayBePermuted<T(!new)>(sc: Schema<T>, receiver: T, a: seq<Member>, b: seq<Member>)
    requires WellFormed(sc) && Independent(sc)
    requires multiset(a) == multiset(b) && KeysDiffer(a) && KeysDiffer(b)
    ensures DecodeOf(sc, receiver, a).Ok? <==> DecodeOf(sc, receiver, b).Ok?
    ensures DecodeOf(sc, receiver, a).Ok? ==> DecodeOf(sc, receiver, a) == DecodeOf(sc, receiver, b)
  {
    hide Independent, WellFormed, DecodeOf, KeysDiffer;
    forall m ensures m in a <==> m in b {
      assert (m in a <==> m in multiset(a)) && (m in b <==> m in multiset(b));
    }
    forall key ensures Last(a, key) == Last(b, key) {
      SameLast(a, b, key);
    }
    OrderDoesNotMatter(sc, receiver, a, b);
  }

  lemma SameDecodability<T>(sc: Schema<T>, a: seq<Member>, b: seq<Member>)
    requires forall m :: m in a <==> m in b
    ensures AllDecode(sc, a) <==> AllDecode(sc, b)
    ensures RequiredOccur(sc, a) <==> RequiredOccur(sc, b)
  {
    hide MemberDecodes, Required;
    assert forall i :: 0 <= i < |a| ==> a[i] in b;
    assert forall i :: 0 <= i < |b| ==> b[i] in a;
    assert AllDecode(sc, a) <==> forall m :: m in a ==> MemberDecodes(sc, m);
    assert AllDecode(sc, b) <==> forall m :: m in b ==> MemberDecodes(sc, m);
    forall key ensures Occurs(a, key) <==> Occurs(b, key) {
      if i :| 0 <= i < |a| && a[i].key == key { assert a[i] in b; }
      if i :| 0 <= i < |b| && b[i].key == key { assert b[i] in a; }
    }
  }

  // ---- Encoding ----

  /** The printed fields among the first n, in declaration order. */
  function EncodeOf<T>(sc: Schema<T>, t: T, n: nat): seq<Member>
    requires n <= |sc.names|
  {
    if n == 0 then [] else
      EncodeOf(sc, t, n - 1)
      + (match sc.get(t, n - 1) case None => [] case Some(v) => [Member(sc.names[n - 1], v)])
  }

  /** What printing a struct and reading it back into `zero` stores. */
  function Reread<T>(sc: Schema<T>, zero: T, t: T, n: nat): T {
    if n == 0 then zero else
      var r := Reread(sc, zero, t, n - 1);
      match sc.get(t, n - 1) case None => r case Some(v) => sc.put(r, n - 1, v)
  }

  /** What is printed: one member for each field that is, under its name. */
  lemma {:induction false} PrintedIsExact<T>(sc: Schema<T>, t: T, n: nat, m: Member)
    requires n <= |sc.names|
    ensures m in EncodeOf(sc, t, n) <==> exists i: nat :: i < n && m.key == sc.names[i] && sc.get(t, i) == Some(m.value)
  {
    if n > 0 {
      PrintedIsExact(sc, t, n - 1, m);
    }
  }

  lemma ScanNothing<T>(sc: Schema<T>, receiver: T)
    ensures Scan(sc, receiver, []) == Ok(receiver)
  {}

  lemma ScanField<T>(sc: Schema<T>, receiver: T, members: seq<Member>, i: nat, v: Scalar)
    requires Distinct(sc.names) && i < |sc.names| && Scan(sc, receiver, members).Ok? && sc.decodes(i, v)
    ensures Scan(sc, receiver, members + [Member(sc.names[i], v)]) ==
            Ok(sc.put(Scan(sc, receiver, members).value, i, v))
  {
    hide Distinct, IndexOf;
    IndexIsExact(sc.names, sc.names[i], i);
    assert (members + [Member(sc.names[i], v)])[..|members|] == members;
  }

  lemma {:induction false} ScanOfEncoded<T>(sc: Schema<T>, zero: T, t: T, n: nat)
    requires WellFormed(sc) && n <= |sc.names|
    requires forall i: nat :: i < n && sc.get(t, i).Some? ==> sc.decodes(i, sc.get(t, i).value)
    ensures Scan(sc, zero, EncodeOf(sc, t, n)) == Ok(Reread(sc, zero, t, n))
  {
    hide Distinct, Required, Scan;
    if n == 0 {
      ScanNothing(sc, zero);
    } else {
      ScanOfEncoded(sc, zero, t, n - 1);
      var before := EncodeOf(sc, t, n - 1);
      match sc.get(t, n - 1)
      case None => assert before + [] == before;
      case Some(v) => ScanField(sc, zero, before, n - 1, v);
    }
  }

  lemma {:induction false} PrintedOccurs<T>(sc: Schema<T>, t: T, n: nat, f: nat)
    requires f < n <= |sc.names| && sc.get(t, f).Some?
    ensures Occurs(EncodeOf(sc, t, n), sc.names[f])
  {
    hide Occurs;
    var before := EncodeOf(sc, t, n - 1);
    if f < n - 1 {
      PrintedOccurs(sc, t, n - 1, f);
    }
    match sc.get(t, n - 1) {
      case Some(v) => OccursOneMore(before, Member(sc.names[n - 1], v), sc.names[f]);
      case None => assert before + [] == before;
    }
  }

  /** Decoding what was encoded succeeds when every printed field decodes and the required ones are printed. */
  lemma RoundTrip<T>(sc: Schema<T>, zero: T, t: T)
    requires WellFormed(sc)
    requires forall i: nat :: i < |sc.names| && sc.get(t, i).Some? ==> sc.decodes(i, sc.get(t, i).value)
    requires forall f: nat :: Required(sc.masks, f) ==> sc.get(t, f).Some?
    ensures DecodeOf(sc, zero, EncodeOf(sc, t, |sc.names|)) == Ok(Reread(sc, zero, t, |sc.names|))
  {
    hide Scan, Reread, EncodeOf, AllDecode, Occurs, HasBit;
    ScanOfEncoded(sc, zero, t, |sc.names|);
    var members := EncodeOf(sc, t, |sc.names|);
    forall f: nat | Required(sc.masks, f) && f < |sc.names| ensures Occurs(members, sc.names[f]) {
      PrintedOccurs(sc, t, |sc.names|, f);
    }
    ScanSucceeds(sc, zero, members);
    DecodesExactlyWhen(sc, zero, members);
  }
}
