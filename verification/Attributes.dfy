/** The attribute table of a republished message: retry_count plus at most nine user attributes. */
module Attributes {
  import opened Options
  import opened Decimal

  const RETRY_COUNT := "retry_count"
  const MAX_ATTRIBUTES := 10

  /** An attribute as it is sent: its SQS data type, Number or String, and its text. */
  datatype Attribute = Number(text: string) | String(text: string)

  type Table = map<string, Attribute>

  function Without<K, V>(m: map<K, V>, key: K): map<K, V> { m - {key} }

  /** The user attributes other than retry_count. */
  function UserPart<V>(attrs: map<string, V>): map<string, V> { Without(attrs, RETRY_COUNT) }

  /** What a receiver of the table reads back. */
  function Texts<K>(table: map<K, Attribute>): map<K, string> { map k | k in table :: table[k].text }

  /** parseRetryCount: 0 unless the attribute is a non-negative integer. */
  function ParseRetryCount(attrs: map<string, string>): nat {
    if RETRY_COUNT !in attrs || attrs[RETRY_COUNT] == "" then 0
    else
      match Atoi(attrs[RETRY_COUNT])
      case Some(n) => if n < 0 then 0 else n
      case None => 0
  }

  /** A message counts as not retried unless its attribute is the text of a non-negative integer: absent,
      empty, malformed, out of range and negative all read as 0. */
  lemma CountIs(attrs: map<string, string>)
    ensures RETRY_COUNT == "retry_count"
    ensures RETRY_COUNT !in attrs || attrs[RETRY_COUNT] == "" ==> ParseRetryCount(attrs) == 0
    ensures RETRY_COUNT in attrs ==>
              var n := Atoi(attrs[RETRY_COUNT]);
              && (n == None || n.value < 0 ==> ParseRetryCount(attrs) == 0)
              && (n != None && n.value >= 0 ==> ParseRetryCount(attrs) == n.value)
  {}

  function Kept(n: nat): nat { if n <= MAX_ATTRIBUTES - 1 then n else MAX_ATTRIBUTES - 1 }

  /** A table that holds `count` under `reserved`, and beside it as many of the entries of `user` under
      other keys as fit, unchanged. The key type is left open to keep the proofs free of strings. */
  ghost predicate Carries<K(!new)>(reserved: K, count: Attribute, user: map<K, string>, table: map<K, Attribute>) {
    && reserved in table && table[reserved] == count
    && (forall k :: k in table && k != reserved ==> k in user && table[k] == String(user[k]))
    && |Without(table, reserved).Keys| == Kept(|Without(user, reserved).Keys|)
  }

  /** The table carries the new count, and as many of the user attributes as fit beside it, unchanged. */
  ghost predicate Republished(user: map<string, string>, next: int, table: Table) {
    Carries(RETRY_COUNT, Number(Itoa(next)), user, table)
  }

  /** A new key adds one entry. */
  lemma Added<K, V>(m: map<K, V>, key: K, v: V)
    requires key !in m
    ensures m[key := v].Keys == m.Keys + {key} && |m[key := v].Keys| == |m.Keys| + 1
  {}

  /** The table after some of the source map has been visited and `remaining` places are left. */
  ghost predicate Filling<K(!new)>(
    reserved: K, user: map<K, string>, unvisited: set<K>, remaining: int, table: map<K, Attribute>)
  {
    && unvisited <= user.Keys
    && 0 <= remaining && remaining + |table.Keys| == MAX_ATTRIBUTES - 1
    && table.Keys == Without(user, reserved).Keys - unvisited
    && forall k :: k in table ==> k in user && table[k] == String(user[k])
  }

  lemma Visit<K(!new)>(
    reserved: K, user: map<K, string>, unvisited: set<K>, remaining: int, table: map<K, Attribute>, key: K)
    requires Filling(reserved, user, unvisited, remaining, table) && key in unvisited
    ensures key == reserved ==> Filling(reserved, user, unvisited - {key}, remaining, table)
    ensures key != reserved && remaining > 0 ==>
              Filling(reserved, user, unvisited - {key}, remaining - 1, table[key := String(user[key])])
  {
    Added(table, key, String(user[key]));
  }

  lemma Finish<K(!new)>(
    reserved: K, user: map<K, string>, unvisited: set<K>, remaining: int, table: map<K, Attribute>, count: Attribute)
    requires Filling(reserved, user, unvisited, remaining, table) && (unvisited == {} || remaining == 0)
    ensures Carries(reserved, count, user, table[reserved := count])
  {
    Full(Without(user, reserved).Keys, table.Keys, unvisited, remaining);
    AddReserved(reserved, user, table, count);
  }

  lemma AddReserved<K(!new)>(reserved: K, user: map<K, string>, table: map<K, Attribute>, count: Attribute)
    requires reserved !in table && forall k :: k in table ==> k in user && table[k] == String(user[k])
    requires |table.Keys| == Kept(|Without(user, reserved).Keys|)
    ensures Carries(reserved, count, user, table[reserved := count])
  {
    assert Without(table[reserved := count], reserved).Keys == table.Keys;
  }

  /** The loop of buildRetryAttributes, for any order in which the source map is visited. */
  method FillAnyOrder<K(==, !new)>(reserved: K, count: Attribute, user: map<K, string>)
    returns (table: map<K, Attribute>)
    ensures Carries(reserved, count, user, table)
  {
    table := map[];
    var remaining := MAX_ATTRIBUTES - 1;
    var unvisited := user.Keys;
    while unvisited != {}
      invariant Filling(reserved, user, unvisited, remaining, table)
      decreases |unvisited|
    {
      var key :| key in unvisited;
      Visit(reserved, user, unvisited, remaining, table, key);
      if key != reserved {
        if remaining <= 0 {
          break;
        }
        table := table[key := String(user[key])];
        remaining := remaining - 1;
      }
      unvisited := unvisited - {key};
    }
    Finish(reserved, user, unvisited, remaining, table, count);
    table := table[reserved := count];
  }

  /** buildRetryAttributes */
  method BuildRetryAttributes(user: map<string, string>, next: int) returns (table: Table)
    ensures Republished(user, next, table)
  {
    table := FillAnyOrder(RETRY_COUNT, Number(Itoa(next)), user);
  }

  /** The loop stopped because everything was visited or because nine were kept. */
  lemma Full<K>(user: set<K>, kept: set<K>, unvisited: set<K>, remaining: int)
    requires kept == user - unvisited && remaining + |kept| == MAX_ATTRIBUTES - 1
    requires unvisited == {} || remaining == 0
    requires 0 <= remaining
    ensures |kept| == Kept(|user|)
  {}

  lemma {:induction false} SubsetSize<T>(a: set<T>, b: set<T>)
    requires a <= b
    ensures |a| <= |b| && (|a| == |b| ==> a == b)
  {
    if a != {} {
      var x :| x in a;
      SubsetSize(a - {x}, b - {x});
    }
  }

  /** The count that was set, sent as a number, is the count that is read back; beside it come nine of the
      user attributes or all of them, sent as strings, with their values. */
  lemma CountReadsBack(user: map<string, string>, next: nat, table: Table)
    requires Republished(user, next, table) && IsInt(next)
    ensures ParseRetryCount(Texts(table)) == next && table[RETRY_COUNT].Number?
    ensures |table.Keys| <= 10 && |UserPart(Texts(table)).Keys| == Min(9, |UserPart(user).Keys|)
    ensures forall k :: k in UserPart(Texts(table)) ==> k in user && Texts(table)[k] == user[k] && table[k].String?
  {
    CountText(Texts(table), next);
    CarriedTexts(RETRY_COUNT, Number(Itoa(next)), user, table);
  }

  /** A printed count parses back to itself. */
  lemma CountText(attrs: map<string, string>, next: nat)
    requires RETRY_COUNT in attrs && attrs[RETRY_COUNT] == Itoa(next) && IsInt(next)
    ensures ParseRetryCount(attrs) == next
  {
    RoundTrip(next);
    PrintsSomething(next);
  }

  lemma CarriedTexts<K(!new)>(reserved: K, count: Attribute, user: map<K, string>, table: map<K, Attribute>)
    requires Carries(reserved, count, user, table)
    ensures |table.Keys| <= MAX_ATTRIBUTES
    ensures |Without(Texts(table), reserved).Keys| == Kept(|Without(user, reserved).Keys|)
    ensures forall k :: k in Without(Texts(table), reserved) ==> k in user && Texts(table)[k] == user[k]
  {
    assert table.Keys == Without(table, reserved).Keys + {reserved};
    assert Without(Texts(table), reserved).Keys == Without(table, reserved).Keys;
  }

  /** None of the user attributes is lost exactly when they fit. */
  lemma NothingDropped(user: map<string, string>, next: nat, table: Table)
    requires Republished(user, next, table)
    ensures UserPart(Texts(table)) == UserPart(user) <==> |UserPart(user).Keys| <= MAX_ATTRIBUTES - 1
  {
    assert UserPart(Texts(table)).Keys == UserPart(table).Keys;
    SubsetSize(UserPart(table).Keys, UserPart(user).Keys);
  }

  // ----- The dead-letter table: a deterministic choice -----

  /** Byte-wise lexicographic order. */
  predicate Below(a: string, b: string)
    decreases |a|
  {
    b != "" && (a == "" || a[0] < b[0] || (a[0] == b[0] && Below(a[1..], b[1..])))
  }

  /** Two keys agree up to place i; there the smaller character decides, or a ends and b goes on. */
  predicate DecidedAt(a: string, b: string, i: int) {
    0 <= i <= |a| && i < |b| && a[..i] == b[..i] && (i == |a| || a[i] < b[i])
  }

  /** Two keys are compared at the first place where they differ; a key comes before its extensions. */
  lemma {:induction false} BelowIff(a: string, b: string)
    ensures Below(a, b) <==> exists i :: DecidedAt(a, b, i)
    decreases |a|
  {
    if a != "" && b != "" && a[0] == b[0] {
      BelowIff(a[1..], b[1..]);
      if i :| DecidedAt(a, b, i) {
        assert i > 0 && a[1..][..i - 1] == a[..i][1..] && b[1..][..i - 1] == b[..i][1..];
        assert DecidedAt(a[1..], b[1..], i - 1);
      }
      if i :| DecidedAt(a[1..], b[1..], i) {
        assert a[..i + 1] == [a[0]] + a[1..][..i] && b[..i + 1] == [b[0]] + b[1..][..i];
        assert DecidedAt(a, b, i + 1);
      }
    } else if Below(a, b) {
      assert DecidedAt(a, b, 0);
    } else {
      forall i | 0 < i <= |a| && i < |b| ensures !DecidedAt(a, b, i) {
        assert a[..i][0] == a[0] && b[..i][0] == b[0];
      }
    }
  }

  lemma {:induction false} Trichotomy(a: string, b: string)
    ensures a == b || Below(a, b) || Below(b, a)
    ensures !(Below(a, b) && Below(b, a)) && !Below(a, a)
    decreases |a|
  {
    if a != "" && b != "" {
      Trichotomy(a[1..], b[1..]);
      assert a == [a[0]] + a[1..] && b == [b[0]] + b[1..];
    }
    if a != "" {
      Irreflexive(a);
    }
  }

  lemma {:induction false} Irreflexive(a: string)
    ensures !Below(a, a)
  {
    if a != "" {
      Irreflexive(a[1..]);
    }
  }

  lemma {:induction false} Transitive(a: string, b: string, c: string)
    requires Below(a, b) && Below(b, c)
    ensures Below(a, c)
    decreases |a|
  {
    if a != "" && a[0] == b[0] == c[0] {
      Transitive(a[1..], b[1..], c[1..]);
    }
  }

  ghost predicate Sorted(keys: seq<string>) { forall i, j :: 0 <= i < j < |keys| ==> Below(keys[i], keys[j]) }

  ghost function Members<K>(keys: seq<K>): set<K> { set k | k in keys }

  /** sort.Strings, for the distinct keys of a map. */
  method SortStrings(keys: seq<string>) returns (sorted: seq<string>)
    requires forall i, j :: 0 <= i < j < |keys| ==> keys[i] != keys[j]
    ensures Sorted(sorted) && Members(sorted) == Members(keys)
  {
    sorted := [];
    for i := 0 to |keys|
      invariant Sorted(sorted) && Members(sorted) == Members(keys[..i])
    {
      assert keys[..i + 1] == keys[..i] + [keys[i]];
      assert keys[i] !in Members(keys[..i]);
      sorted := Insert(sorted, keys[i]);
    }
    assert keys[..|keys|] == keys;
  }

  method Insert(sorted: seq<string>, key: string) returns (more: seq<string>)
    requires Sorted(sorted) && key !in sorted
    ensures Sorted(more) && Members(more) == Members(sorted) + {key}
  {
    var i := 0;
    while i < |sorted| && Below(sorted[i], key)
      invariant 0 <= i <= |sorted|
      invariant forall j :: 0 <= j < i ==> Below(sorted[j], key)
    {
      i := i + 1;
    }
    more := sorted[..i] + [key] + sorted[i..];
    forall j | i <= j < |sorted| ensures Below(key, sorted[j]) {
      Trichotomy(sorted[i], key);
      if i < j {
        Transitive(key, sorted[i], sorted[j]);
      }
    }
    assert sorted == sorted[..i] + sorted[i..];
  }

  /** Beside the count, the table keeps the smallest keys: none that was dropped precedes one kept. */
  ghost predicate CarriesSmallest(reserved: string, count: Attribute, user: map<string, string>, table: Table) {
    && Carries(reserved, count, user, table)
    && forall k, d :: k in Without(table, reserved) && d in Without(user, reserved) && d !in table ==> Below(k, d)
  }

  /** The dead-letter table: the new count and the smallest of the user attributes. */
  ghost predicate DeadLettered(user: map<string, string>, next: int, table: Table) {
    CarriesSmallest(RETRY_COUNT, Number(Itoa(next)), user, table)
  }

  /** The keys but the reserved one, in whatever order the map gives them. */
  method CollectKeys<K(==, !new)>(reserved: K, user: map<K, string>) returns (keys: seq<K>)
    ensures Members(keys) == Without(user, reserved).Keys
    ensures forall i, j :: 0 <= i < j < |keys| ==> keys[i] != keys[j]
  {
    keys := [];
    var unvisited := user.Keys;
    while unvisited != {}
      invariant unvisited <= user.Keys
      invariant Members(keys) == Without(user, reserved).Keys - unvisited
      invariant forall i, j :: 0 <= i < j < |keys| ==> keys[i] != keys[j]
      decreases |unvisited|
    {
      var key :| key in unvisited;
      unvisited := unvisited - {key};
      if key != reserved {
        assert key !in Members(keys);
        assert Members(keys + [key]) == Members(keys) + {key};
        keys := keys + [key];
      }
    }
  }

  /** The table while it is being filled with the first i of the sorted keys. */
  ghost predicate Filled<K(!new)>(
    reserved: K, count: Attribute, user: map<K, string>, keys: seq<K>, i: nat, table: map<K, Attribute>)
    requires i <= |keys|
  {
    && table.Keys == Members(keys[..i]) + {reserved} && table[reserved] == count
    && |table.Keys| == i + 1
    && forall k :: k in table && k != reserved ==> k in user && table[k] == String(user[k])
  }

  lemma FillOne<K(!new)>(
    reserved: K, count: Attribute, user: map<K, string>, keys: seq<K>, i: nat, table: map<K, Attribute>)
    requires i < |keys| && Filled(reserved, count, user, keys, i, table)
    requires keys[i] in user && keys[i] != reserved && keys[i] !in Members(keys[..i])
    ensures Filled(reserved, count, user, keys, i + 1, table[keys[i] := String(user[keys[i]])])
  {}

  /** Filled to the cap, or with every key. */
  lemma FilledUp<K(!new)>(
    reserved: K, count: Attribute, user: map<K, string>, keys: seq<K>, i: nat, table: map<K, Attribute>)
    requires i <= |keys| && Filled(reserved, count, user, keys, i, table) && (i == |keys| || i == MAX_ATTRIBUTES - 1)
    requires i < MAX_ATTRIBUTES && Members(keys) == Without(user, reserved).Keys && |Members(keys)| == |keys|
    ensures Carries(reserved, count, user, table)
    ensures Without(table, reserved).Keys == Members(keys[..i])
  {
    assert reserved !in Members(keys);
    assert Members(keys[..i]) <= Members(keys);
    assert Without(table, reserved).Keys == Members(keys[..i]);
    assert table.Keys == Without(table, reserved).Keys + {reserved};
  }

  /** The last loop of buildDLQAttributes: fills the table with the first keys, up to the cap. */
  method FillInOrder<K(==, !new)>(reserved: K, count: Attribute, user: map<K, string>, keys: seq<K>)
    returns (table: map<K, Attribute>, ghost i: nat)
    requires Members(keys) == Without(user, reserved).Keys
    requires forall i, j :: 0 <= i < j < |keys| ==> keys[i] != keys[j]
    ensures i <= |keys| && i < MAX_ATTRIBUTES && (i == |keys| || i == MAX_ATTRIBUTES - 1)
    ensures Filled(reserved, count, user, keys, i, table)
  {
    table, i := map[reserved := count], 0;
    FillStart(reserved, count, user, keys);
    var n := 0;
    while n < |keys| && |table.Keys| < MAX_ATTRIBUTES
      invariant i == n <= |keys| && n < MAX_ATTRIBUTES
      invariant Filled(reserved, count, user, keys, n, table)
    {
      assert keys[n] in Members(keys) && keys[n] !in Members(keys[..n]);
      FillOne(reserved, count, user, keys, n, table);
      table := table[keys[n] := String(user[keys[n]])];
      n, i := n + 1, n + 1;
    }
  }

  /** The body of buildDLQAttributes: collects the keys in any order, sorts them and fills to the cap. */
  method FillSorted(reserved: string, count: Attribute, user: map<string, string>) returns (table: Table)
    ensures CarriesSmallest(reserved, count, user, table)
  {
    var keys := CollectKeys(reserved, user);
    keys := SortStrings(keys);
    Distinct(keys);
    ghost var i;
    table, i := FillInOrder(reserved, count, user, keys);
    FillEnd(reserved, count, user, keys, i, table);
  }

  /** buildDLQAttributes */
  method BuildDLQAttributes(user: map<string, string>, next: int) returns (table: Table)
    ensures DeadLettered(user, next, table)
  {
    table := FillSorted(RETRY_COUNT, Number(Itoa(next)), user);
  }

  lemma FillStart<K(!new)>(reserved: K, count: Attribute, user: map<K, string>, keys: seq<K>)
    ensures Filled(reserved, count, user, keys, 0, map[reserved := count])
  {}

  lemma FillEnd(
    reserved: string, count: Attribute, user: map<string, string>, keys: seq<string>, i: nat, table: Table)
    requires i <= |keys| && Filled(reserved, count, user, keys, i, table) && (i == |keys| || i == MAX_ATTRIBUTES - 1)
    requires i < MAX_ATTRIBUTES && Sorted(keys) && Members(keys) == Without(user, reserved).Keys
    ensures CarriesSmallest(reserved, count, user, table)
  {
    Distinct(keys);
    FilledUp(reserved, count, user, keys, i, table);
    Smallest(keys, i);
  }

  lemma NotBefore(keys: seq<string>, i: nat)
    requires Sorted(keys) && i < |keys|
    ensures keys[i] !in Members(keys[..i])
  {
    Irreflexive(keys[i]);
  }

  /** Everything in the prefix precedes everything after it. */
  lemma Smallest(keys: seq<string>, i: nat)
    requires Sorted(keys) && i <= |keys|
    ensures forall k, d :: k in Members(keys[..i]) && d in Members(keys) && d !in Members(keys[..i]) ==> Below(k, d)
  {}

  lemma {:induction false} Distinct(keys: seq<string>)
    requires Sorted(keys)
    ensures |Members(keys)| == |keys|
    ensures forall i, j :: 0 <= i < j < |keys| ==> keys[i] != keys[j]
  {
    if keys != [] {
      var n := |keys| - 1;
      Distinct(keys[..n]);
      NotBefore(keys, n);
      assert keys == keys[..n] + [keys[n]];
      assert Members(keys) == Members(keys[..n]) + {keys[n]};
    }
  }

  /** Of two sets of one size, each of which contains everything that precedes a member, neither has a
      member the other lacks. */
  lemma SmallestUnique(p: set<string>, q: set<string>)
    requires |p| == |q|
    requires forall k, d :: k in p && d in q - p ==> Below(k, d)
    requires forall k, d :: k in q && d in p - q ==> Below(k, d)
    ensures p == q
  {
    if p <= q {
      SubsetSize(p, q);
    } else if q <= p {
      SubsetSize(q, p);
    } else {
      var k: string :| k in p && k !in q;
      var d: string :| d in q && d !in p;
      Trichotomy(k, d);
      assert false;
    }
  }

  /** The choice does not depend on the order in which the source map is visited. */
  lemma DeadLetterTableUnique(user: map<string, string>, next: int, a: Table, b: Table)
    requires DeadLettered(user, next, a) && DeadLettered(user, next, b)
    ensures a == b
  {
    var p, q := UserPart(a).Keys, UserPart(b).Keys;
    SmallestUnique(p, q);
    assert a.Keys == p + {RETRY_COUNT} && b.Keys == q + {RETRY_COUNT};
    forall k | k in a.Keys ensures a[k] == b[k] {
      if k != RETRY_COUNT {
        assert k in UserPart(a) && k in UserPart(b);
      }
    }
  }
}
