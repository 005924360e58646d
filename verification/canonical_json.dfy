/** The canonical form of request parameters: object keys in order, at every depth. */
module CanonicalJson {
  import opened Money

  datatype Json =
    | Null
    | Bool(value: bool)
    | Number(text: string)
    | String(chars: string)
    | Array(items: Items)
    | Object(members: Members)

  datatype Items = NoItems | Item(head: Json, tail: Items)

  /** An object's members in iteration order. The program's maps hold no key twice; here a repeated key is
      allowed, and its last member is the one that counts. */
  datatype Members = NoMembers | Member(key: string, value: Json, rest: Members)

  // ----- key order -----

  predicate Less(a: string, b: string)
  {
    b != [] && (a == [] || a[0] < b[0] || (a[0] == b[0] && Less(a[1..], b[1..])))
  }

  lemma {:induction false} LessTotal(a: string, b: string)
    ensures (if Less(a, b) then 1 else 0) + (if Less(b, a) then 1 else 0) + (if a == b then 1 else 0) == 1
  {
    if a != [] && b != [] {
      LessTotal(a[1..], b[1..]);
      assert a == [a[0]] + a[1..] && b == [b[0]] + b[1..];
    }
  }

  lemma {:induction false} LessTransitive(a: string, b: string, c: string)
    requires Less(a, b) && Less(b, c)
    ensures Less(a, c)
  {
    if a != [] && a[0] == b[0] && b[0] == c[0] {
      LessTransitive(a[1..], b[1..], c[1..]);
    }
  }

  // ----- canonical form -----

  function Lookup(m: Members, key: string): (r: Option<Json>)
  {
    match m
    case NoMembers => None
    case Member(k, v, rest) =>
      var later := Lookup(rest, key);
      if later.Some? then later else if k == key then Some(v) else None
  }

  /** Adds a member in key order, unless the key is there already. */
  function Put(m: Members, key: string, value: Json): (r: Members)
  {
    match m
    case NoMembers => Member(key, value, NoMembers)
    case Member(k, v, rest) =>
      if k == key then m
      else if Less(key, k) then Member(key, value, m)
      else Member(k, v, Put(rest, key, value))
  }

  function Canon(j: Json): (c: Json)
  {
    match j
    case Object(m) => Object(CanonMembers(m))
    case Array(items) => Array(CanonItems(items))
    case _ => j
  }

  function CanonItems(items: Items): (c: Items)
  {
    match items
    case NoItems => NoItems
    case Item(head, tail) => Item(Canon(head), CanonItems(tail))
  }

  function CanonMembers(m: Members): (c: Members)
  {
    match m
    case NoMembers => NoMembers
    case Member(k, v, rest) => Put(CanonMembers(rest), k, Canon(v))
  }

  predicate AllAbove(m: Members, key: string)
  {
    match m
    case NoMembers => true
    case Member(k, _, rest) => Less(key, k) && AllAbove(rest, key)
  }

  /** Keys strictly ascending, so that none is repeated. */
  predicate Ascends(m: Members)
  {
    match m
    case NoMembers => true
    case Member(k, _, rest) => AllAbove(rest, k) && Ascends(rest)
  }

  predicate Canonical(j: Json)
  {
    match j
    case Object(m) => Ascends(m) && CanonicalMembers(m)
    case Array(items) => CanonicalItems(items)
    case _ => true
  }

  predicate CanonicalItems(items: Items)
  {
    match items
    case NoItems => true
    case Item(head, tail) => Canonical(head) && CanonicalItems(tail)
  }

  predicate CanonicalMembers(m: Members)
  {
    match m
    case NoMembers => true
    case Member(_, v, rest) => Canonical(v) && CanonicalMembers(rest)
  }

  // ----- sorted members -----

  lemma {:induction false} AllAboveLower(m: Members, low: string, key: string)
    requires AllAbove(m, key) && Less(low, key)
    ensures AllAbove(m, low)
  {
    match m
    case NoMembers =>
    case Member(k, _, rest) =>
      LessTransitive(low, key, k);
      AllAboveLower(rest, low, key);
  }

  lemma {:induction false} AbsentBelow(m: Members, key: string)
    requires AllAbove(m, key)
    ensures Lookup(m, key).None?
  {
    match m
    case NoMembers =>
    case Member(k, _, rest) =>
      LessTotal(key, k);
      AbsentBelow(rest, key);
  }

  lemma {:induction false} PutAbove(m: Members, key: string, value: Json, low: string)
    requires AllAbove(m, low) && Less(low, key)
    ensures AllAbove(Put(m, key, value), low)
  {
    match m
    case NoMembers =>
    case Member(_, _, rest) => PutAbove(rest, key, value, low);
  }

  lemma {:induction false} PutAscends(m: Members, key: string, value: Json)
    requires Ascends(m)
    ensures Ascends(Put(m, key, value))
  {
    match m {
      case NoMembers =>
      case Member(k, _, rest) =>
        LessTotal(key, k);
        if Less(key, k) {
          AllAboveLower(rest, key, k);
        } else if k != key {
          PutAscends(rest, key, value);
          PutAbove(rest, key, value, k);
        }
    }
  }

  lemma {:induction false} PutLookup(m: Members, key: string, value: Json, asked: string)
    requires Ascends(m)
    ensures Lookup(Put(m, key, value), asked) ==
              if asked == key && Lookup(m, key).None? then Some(value) else Lookup(m, asked)
  {
    match m {
      case NoMembers =>
      case Member(k, _, rest) =>
        LessTotal(key, k);
        if Less(key, k) {
          AllAboveLower(rest, key, k);
          AbsentBelow(m, key);
        } else if k != key {
          PutLookup(rest, key, value, asked);
        }
    }
  }

  lemma {:induction false} PutCanonical(m: Members, key: string, value: Json)
    requires CanonicalMembers(m) && Canonical(value)
    ensures CanonicalMembers(Put(m, key, value))
  {
    match m
    case NoMembers =>
    case Member(_, _, rest) => PutCanonical(rest, key, value);
  }

  /** Ascending members are determined by what is found under each key. */
  lemma {:induction false} SameMembers(m: Members, n: Members)
    requires Ascends(m) && Ascends(n) && forall key :: Lookup(m, key) == Lookup(n, key)
    ensures m == n
  {
    if m.NoMembers? {
      if n.Member? {
        assert Lookup(n, n.key).Some?;
        assert false;
      }
    } else if n.NoMembers? {
      assert Lookup(m, m.key).Some?;
      assert false;
    } else {
      SameFirst(m, n);
      AbsentBelow(m.rest, m.key);
      AbsentBelow(n.rest, n.key);
      assert Lookup(m, m.key) == Some(m.value) && Lookup(n, n.key) == Some(n.value);
      forall key
        ensures Lookup(m.rest, key) == Lookup(n.rest, key)
      {
        assert Lookup(m, key) == Lookup(n, key);
      }
      SameMembers(m.rest, n.rest);
    }
  }

  lemma {:induction false} SameFirst(m: Members, n: Members)
    requires m.Member? && n.Member? && Ascends(m) && Ascends(n) && forall key :: Lookup(m, key) == Lookup(n, key)
    ensures m.key == n.key
  {
    LessTotal(m.key, n.key);
    assert Lookup(m, m.key).Some? && Lookup(n, n.key).Some?;
    if Less(m.key, n.key) {
      AllAboveLower(n.rest, m.key, n.key);
      AbsentBelow(n, m.key);
    } else if Less(n.key, m.key) {
      AllAboveLower(m.rest, n.key, m.key);
      AbsentBelow(m, n.key);
    }
  }

  // ----- canonical form is canonical, and only changes what is not -----

  lemma {:induction false} CanonIsCanonical(j: Json)
    ensures Canonical(Canon(j))
  {
    match j
    case Object(m) => CanonMembersCanonical(m);
    case Array(items) => CanonItemsCanonical(items);
    case _ =>
  }

  lemma {:induction false} CanonItemsCanonical(items: Items)
    ensures CanonicalItems(CanonItems(items))
  {
    match items
    case NoItems =>
    case Item(head, tail) =>
      CanonIsCanonical(head);
      CanonItemsCanonical(tail);
  }

  lemma {:induction false} CanonMembersCanonical(m: Members)
    ensures Ascends(CanonMembers(m)) && CanonicalMembers(CanonMembers(m))
  {
    match m
    case NoMembers =>
    case Member(k, v, rest) =>
      CanonIsCanonical(v);
      CanonMembersCanonical(rest);
      PutAscends(CanonMembers(rest), k, Canon(v));
      PutCanonical(CanonMembers(rest), k, Canon(v));
  }

  /** A value in canonical form is its own canonical form. */
  lemma {:induction false} CanonicalIsFixed(j: Json)
    requires Canonical(j)
    ensures Canon(j) == j
  {
    match j
    case Object(m) => CanonicalMembersFixed(m);
    case Array(items) => CanonicalItemsFixed(items);
    case _ =>
  }

  lemma {:induction false} CanonicalItemsFixed(items: Items)
    requires CanonicalItems(items)
    ensures CanonItems(items) == items
  {
    match items
    case NoItems =>
    case Item(head, tail) =>
      CanonicalIsFixed(head);
      CanonicalItemsFixed(tail);
  }

  lemma {:induction false} CanonicalMembersFixed(m: Members)
    requires Ascends(m) && CanonicalMembers(m)
    ensures CanonMembers(m) == m
  {
    match m {
      case NoMembers =>
      case Member(k, v, rest) =>
        CanonicalIsFixed(v);
        CanonicalMembersFixed(rest);
        if rest.Member? {
          LessTotal(k, rest.key);
        }
    }
  }

  lemma {:induction false} Idempotent(j: Json)
    ensures Canon(Canon(j)) == Canon(j)
  {
    CanonIsCanonical(j);
    CanonicalIsFixed(Canon(j));
  }

  // ----- lookups -----

  function CanonOption(j: Option<Json>): (r: Option<Json>)
  {
    match j case None => None case Some(v) => Some(Canon(v))
  }

  lemma {:induction false} MembersLookup(m: Members, key: string)
    ensures Lookup(CanonMembers(m), key) == CanonOption(Lookup(m, key))
  {
    match m
    case NoMembers =>
    case Member(k, v, rest) =>
      MembersLookup(rest, key);
      MembersLookup(rest, k);
      CanonMembersCanonical(rest);
      PutLookup(CanonMembers(rest), k, Canon(v), key);
  }

  datatype Step = Key(key: string) | Index(i: nat)

  function ItemAt(items: Items, i: nat): (r: Option<Json>)
  {
    match items
    case NoItems => None
    case Item(head, tail) => if i == 0 then Some(head) else ItemAt(tail, i - 1)
  }

  /** What is found in `j` along a path of keys and indices. */
  function Find(j: Json, path: seq<Step>): (r: Option<Json>)
    decreases |path|
  {
    if path == [] then Some(j)
    else
      var next := match (j, path[0])
                  case (Object(m), Key(k)) => Lookup(m, k)
                  case (Array(items), Index(i)) => ItemAt(items, i)
                  case _ => None;
      if next.None? then None else Find(next.value, path[1..])
  }

  lemma {:induction false} ItemsLookup(items: Items, i: nat)
    ensures ItemAt(CanonItems(items), i) == CanonOption(ItemAt(items, i))
  {
    if items.Item? && i > 0 {
      ItemsLookup(items.tail, i - 1);
    }
  }

  /** Every lookup, however deep, finds the canonical form of what it found before. */
  lemma {:induction false} LookupsPreserved(j: Json, path: seq<Step>)
    ensures Find(Canon(j), path) == CanonOption(Find(j, path))
    decreases |path|
  {
    if path != [] {
      if j.Object? && path[0].Key? {
        MembersLookup(j.members, path[0].key);
        var next := Lookup(j.members, path[0].key);
        if next.Some? {
          LookupsPreserved(next.value, path[1..]);
        }
      } else if j.Array? && path[0].Index? {
        ItemsLookup(j.items, path[0].i);
        var next := ItemAt(j.items, path[0].i);
        if next.Some? {
          LookupsPreserved(next.value, path[1..]);
        }
      }
    }
  }

  // ----- what canonical form identifies -----

  ghost predicate SameKeys(m: Members, n: Members)
  {
    forall key :: Lookup(m, key).Some? <==> Lookup(n, key).Some?
  }

  /** The two values differ at most in the order of object members, at any depth, and in members hidden by
      a later one with the same key. Without repeated keys order is the only difference. */
  ghost predicate Equivalent(a: Json, b: Json)
  {
    match a
    case Object(m) => b.Object? && SameKeys(m, b.members) && MembersEquivalent(m, b.members)
    case Array(items) => b.Array? && ItemsEquivalent(items, b.items)
    case _ => a == b
  }

  ghost predicate ItemsEquivalent(a: Items, b: Items)
  {
    match a
    case NoItems => b.NoItems?
    case Item(head, tail) => b.Item? && Equivalent(head, b.head) && ItemsEquivalent(tail, b.tail)
  }

  /** What counts under each key of `m` is equivalent to what counts under it in `n`. */
  ghost predicate MembersEquivalent(m: Members, n: Members)
  {
    match m
    case NoMembers => true
    case Member(k, v, rest) =>
      && (Lookup(rest, k).Some? || (Lookup(n, k).Some? && Equivalent(v, Lookup(n, k).value)))
      && MembersEquivalent(rest, n)
  }

  /** Two values have the same canonical form if and only if they differ at most in member order, hidden
      members aside. */
  lemma {:induction false} SameCanonIff(a: Json, b: Json)
    ensures Canon(a) == Canon(b) <==> Equivalent(a, b)
    decreases a
  {
    match a {
      case Object(m) =>
        if b.Object? {
          MembersCanonIff(m, b.members);
          SameMembersIff(m, b.members);
        }
      case Array(items) =>
        if b.Array? {
          ItemsCanonIff(items, b.items);
        }
      case _ =>
    }
  }

  lemma {:induction false} ItemsCanonIff(a: Items, b: Items)
    ensures CanonItems(a) == CanonItems(b) <==> ItemsEquivalent(a, b)
    decreases a
  {
    if a.Item? && b.Item? {
      SameCanonIff(a.head, b.head);
      ItemsCanonIff(a.tail, b.tail);
    }
  }

  /** Under every key of `m`, the canonical forms of what counts there agree. */
  ghost predicate AgreeOn(m: Members, n: Members)
  {
    forall key :: Lookup(m, key).Some? ==> CanonOption(Lookup(m, key)) == CanonOption(Lookup(n, key))
  }

  lemma {:induction false} MembersCanonIff(m: Members, n: Members)
    ensures MembersEquivalent(m, n) <==> AgreeOn(m, n)
    decreases m
  {
    match m {
      case NoMembers =>
      case Member(k, v, rest) =>
        MembersCanonIff(rest, n);
        if Lookup(n, k).Some? {
          SameCanonIff(v, Lookup(n, k).value);
        }
        assert forall key :: Lookup(rest, key).Some? ==> Lookup(m, key) == Lookup(rest, key);
        assert AgreeOn(m, n) <==>
            AgreeOn(rest, n) && (Lookup(rest, k).Some? || Some(Canon(v)) == CanonOption(Lookup(n, k)));
    }
  }

  lemma {:induction false} SameMembersIff(m: Members, n: Members)
    ensures CanonMembers(m) == CanonMembers(n) <==> SameKeys(m, n) && AgreeOn(m, n)
  {
    forall key
      ensures Lookup(CanonMembers(m), key) == CanonOption(Lookup(m, key))
      ensures Lookup(CanonMembers(n), key) == CanonOption(Lookup(n, key))
    {
      MembersLookup(m, key);
      MembersLookup(n, key);
    }
    if SameKeys(m, n) && AgreeOn(m, n) {
      CanonMembersCanonical(m);
      CanonMembersCanonical(n);
      SameMembers(CanonMembers(m), CanonMembers(n));
    }
  }
}
