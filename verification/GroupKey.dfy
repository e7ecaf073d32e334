/** The routing key of a message and the worker it selects. */
module GroupKey {

  type Bytes = seq<bv8>

  const SEPARATOR: bv8 := 0

  /** The attributes a key is read from: the group id, the native attributes, the envelope attributes. */
  datatype Attributes = Attributes(groupId: Bytes, native: map<Bytes, Bytes>, envelope: map<Bytes, Bytes>)

  function Lookup(m: map<Bytes, Bytes>, field: Bytes): Bytes { if field in m then m[field] else [] }

  /** A custom field is read natively first; an absent or empty value falls back to the envelope. */
  function FieldValue(a: Attributes, field: Bytes): Bytes {
    var value := Lookup(a.native, field);
    if value == [] then Lookup(a.envelope, field) else value
  }

  /** The components of a message's key: the group id, then one value per configured field. */
  function Components(a: Attributes, fields: seq<Bytes>): (parts: seq<Bytes>)
    ensures |parts| == |fields| + 1
  {
    [a.groupId] + seq(|fields|, i requires 0 <= i < |fields| => FieldValue(a, fields[i]))
  }

  function Join(parts: seq<Bytes>): Bytes
    requires parts != []
  {
    if |parts| == 1 then parts[0] else parts[0] + [SEPARATOR] + Join(parts[1..])
  }

  /** Where the components come from: the group id first; then, field by field, the native attribute if it
      is present and not empty, else the envelope's, and empty if neither has the field. */
  lemma ComponentsAre(a: Attributes, fields: seq<Bytes>, i: nat)
    requires i < |fields|
    ensures Components(a, fields)[0] == a.groupId
    ensures var part := Components(a, fields)[i + 1];
            && (fields[i] in a.native && a.native[fields[i]] != [] ==> part == a.native[fields[i]])
            && (fields[i] !in a.native || a.native[fields[i]] == [] ==>
                  part == if fields[i] in a.envelope then a.envelope[fields[i]] else [])
  {}

  /** The key is the components in order, each after the first behind one separator. */
  lemma {:induction false} JoinAppend(parts: seq<Bytes>, part: Bytes)
    requires parts != []
    ensures Join(parts + [part]) == Join(parts) + [0] + part
    ensures Join([part]) == part
  {
    if |parts| == 1 {
      assert (parts + [part])[1..] == [part];
    } else {
      JoinAppend(parts[1..], part);
      assert (parts + [part])[1..] == parts[1..] + [part];
      assert parts[0] + [SEPARATOR] + (Join(parts[1..]) + [0] + part) ==
             (parts[0] + [SEPARATOR] + Join(parts[1..])) + [0] + part;
    }
  }

  /** groupKey: collects the parts in a loop, then joins them. */
  method Key(a: Attributes, fields: seq<Bytes>) returns (key: Bytes)
    ensures key == Join(Components(a, fields))
  {
    var parts := [a.groupId];
    for i := 0 to |fields|
      invariant parts == [a.groupId] + seq(i, j requires 0 <= j < i => FieldValue(a, fields[j]))
    {
      var value := Lookup(a.native, fields[i]);
      if value == [] {
        value := Lookup(a.envelope, fields[i]);
      }
      parts := parts + [value];
    }
    key := Join(parts);
  }

  predicate Clean(part: Bytes) { SEPARATOR !in part }

  ghost predicate AllClean(parts: seq<Bytes>) { forall i :: 0 <= i < |parts| ==> Clean(parts[i]) }

  /** A clean component ends at the first separator. */
  lemma FirstSeparator(a: Bytes, x: Bytes)
    requires Clean(a)
    ensures var s := a + [SEPARATOR] + x;
            && s[|a|] == SEPARATOR && (forall i :: 0 <= i < |a| ==> s[i] != SEPARATOR)
            && s[..|a|] == a && s[|a| + 1..] == x
  {}

  /** For one field list and components free of the separator, two messages share a key exactly when
      every component agrees. */
  lemma {:induction false} KeysAgreeIff(p: seq<Bytes>, q: seq<Bytes>)
    requires |p| == |q| >= 1 && AllClean(p) && AllClean(q)
    ensures Join(p) == Join(q) <==> p == q
  {
    if |p| > 1 && Join(p) == Join(q) {
      FirstSeparator(p[0], Join(p[1..]));
      FirstSeparator(q[0], Join(q[1..]));
      assert |p[0]| == |q[0]|;
      KeysAgreeIff(p[1..], q[1..]);
      assert p == [p[0]] + p[1..] && q == [q[0]] + q[1..];
    }
  }

  // ----- Exactly when a key can be shared -----

  /** No other list of as many components has the same key. */
  ghost predicate Unique(p: seq<Bytes>)
    requires p != []
  {
    forall q :: |q| == |p| && Join(q) == Join(p) ==> q == p
  }

  /** The number of separators in a key. */
  function Separators(s: Bytes): nat {
    if s == [] then 0 else Separators(s[..|s| - 1]) + (if s[|s| - 1] == SEPARATOR then 1 else 0)
  }

  lemma {:induction false} SeparatorsAppend(s: Bytes, t: Bytes)
    ensures Separators(s + t) == Separators(s) + Separators(t)
  {
    if t == [] {
      assert s + t == s;
    } else {
      assert (s + t)[..|s + t| - 1] == s + t[..|t| - 1];
      SeparatorsAppend(s, t[..|t| - 1]);
    }
  }

  lemma {:induction false} CleanIff(s: Bytes)
    ensures Separators(s) == 0 <==> Clean(s)
  {
    if s != [] {
      CleanIff(s[..|s| - 1]);
      assert s == s[..|s| - 1] + [s[|s| - 1]];
    }
  }

  /** A key has as many separators as its join put there, exactly when the components have none. */
  lemma {:induction false} JoinSeparators(p: seq<Bytes>)
    requires p != []
    ensures Separators(Join(p)) >= |p| - 1
    ensures Separators(Join(p)) == |p| - 1 <==> AllClean(p)
  {
    CleanIff(p[0]);
    if |p| > 1 {
      JoinSeparators(p[1..]);
      SeparatorsAppend(p[0] + [SEPARATOR], Join(p[1..]));
      SeparatorsAppend(p[0], [SEPARATOR]);
      assert Separators([SEPARATOR]) == Separators([]) + 1;
      assert p == [p[0]] + p[1..];
      assert AllClean(p) <==> Clean(p[0]) && AllClean(p[1..]);
    }
  }

  /** A component with a separator can be cut there, and what is cut off given to a neighbour. */
  lemma {:induction false} OtherComponents(p: seq<Bytes>) returns (q: seq<Bytes>)
    requires |p| >= 2 && !AllClean(p)
    ensures |q| == |p| && q != p && Join(q) == Join(p)
    ensures |p| > 2 && Clean(p[0]) ==> q[0] == p[0]
  {
    if !Clean(p[0]) {
      q := MoveRight(p);
    } else if |p| == 2 {
      q := MoveLeft(p);
    } else {
      assert p == [p[0]] + p[1..];
      var rest := OtherComponents(p[1..]);
      q := [p[0]] + rest;
      assert q[1..] == rest;
    }
  }

  lemma Cut(s: Bytes) returns (j: nat)
    requires !Clean(s)
    ensures j < |s| && s == s[..j] + [SEPARATOR] + s[j + 1..]
  {
    j :| j < |s| && s[j] == SEPARATOR;
  }

  lemma MoveRight(p: seq<Bytes>) returns (q: seq<Bytes>)
    requires |p| >= 2 && !Clean(p[0])
    ensures |q| == |p| && q != p && Join(q) == Join(p)
  {
    var j := Cut(p[0]);
    var head, tail := p[0][..j], p[0][j + 1..];
    q := [head, tail + [SEPARATOR] + p[1]] + p[2..];
    assert q[0] == head && |head| < |p[0]|;
    assert q[1..] == [tail + [SEPARATOR] + p[1]] + p[2..];
    JoinHead(tail + [SEPARATOR], p[1], p[2..]);
    assert [p[1]] + p[2..] == p[1..];
    assert head + [SEPARATOR] + (tail + [SEPARATOR] + Join(p[1..])) ==
           (head + [SEPARATOR] + tail) + [SEPARATOR] + Join(p[1..]);
  }

  /** Text put before the first component is put before the key. */
  lemma JoinHead(front: Bytes, first: Bytes, rest: seq<Bytes>)
    ensures Join([front + first] + rest) == front + Join([first] + rest)
  {
    if rest != [] {
      assert ([front + first] + rest)[1..] == rest == ([first] + rest)[1..];
    }
  }

  lemma MoveLeft(p: seq<Bytes>) returns (q: seq<Bytes>)
    requires |p| == 2 && !Clean(p[1])
    ensures |q| == 2 && q != p && Join(q) == Join(p)
  {
    var j := Cut(p[1]);
    q := [p[0] + [SEPARATOR] + p[1][..j], p[1][j + 1..]];
    assert |q[1]| < |p[1]|;
    assert Join(q) == p[0] + [SEPARATOR] + p[1][..j] + [SEPARATOR] + p[1][j + 1..];
    assert Join(p) == p[0] + [SEPARATOR] + (p[1][..j] + [SEPARATOR] + p[1][j + 1..]);
  }

  /** With two components or more, a key belongs to one list of components exactly when none of them
      contains the separator, whatever the other list contains; one component is its own key. */
  lemma UniqueIff(p: seq<Bytes>)
    requires p != []
    ensures Unique(p) <==> |p| == 1 || AllClean(p)
  {
    if |p| > 1 && !AllClean(p) {
      var q := OtherComponents(p);
    } else {
      forall q | |q| == |p| && Join(q) == Join(p) ensures q == p {
        if |p| > 1 {
          JoinSeparators(p);
          JoinSeparators(q);
          KeysAgreeIff(p, q);
        }
      }
    }
  }

  /** No message with another group id, itself free of the separator, or other field values has the key. */
  ghost predicate Identified(a: Attributes, fields: seq<Bytes>) {
    forall b: Attributes ::
      Clean(b.groupId) && Join(Components(b, fields)) == Join(Components(a, fields)) ==>
        Components(b, fields) == Components(a, fields)
  }

  /** Two keys with clean first components agree exactly in that component and in the rest. */
  lemma SplitKey(p: seq<Bytes>, q: seq<Bytes>)
    requires |p| == |q| >= 2 && Clean(p[0]) && Clean(q[0])
    ensures Join(p) == Join(q) <==> p[0] == q[0] && Join(p[1..]) == Join(q[1..])
  {
    FirstSeparator(p[0], Join(p[1..]));
    FirstSeparator(q[0], Join(q[1..]));
    if Join(p) == Join(q) {
      assert |p[0]| == |q[0]|;
    }
  }

  /** SQS admits no separator in a group id. A message's key then tells it from every other message, in
      group id and field values, if there is at most one custom field or no value has a separator. */
  lemma IdentifiedIf(a: Attributes, fields: seq<Bytes>)
    requires Clean(a.groupId) && (|fields| <= 1 || AllClean(Components(a, fields)))
    ensures Identified(a, fields)
  {
    var p := Components(a, fields);
    forall b: Attributes | Clean(b.groupId) && Join(Components(b, fields)) == Join(p)
      ensures Components(b, fields) == p
    {
      var q := Components(b, fields);
      if |p| == 2 {
        SplitKey(p, q);
        assert p == [p[0], p[1]] && q == [q[0], q[1]];
      } else {
        UniqueIff(p);
      }
    }
  }

  /** A message that carries the given values of distinct fields in its envelope. */
  lemma {:induction false} Realize(groupId: Bytes, fields: seq<Bytes>, values: seq<Bytes>) returns (a: Attributes)
    requires |fields| == |values| && (forall i, j :: 0 <= i < j < |fields| ==> fields[i] != fields[j])
    ensures a.groupId == groupId && a.native == map[] && Components(a, fields) == [groupId] + values
    ensures forall f :: f in a.envelope ==> f in fields
  {
    if fields == [] {
      a := Attributes(groupId, map[], map[]);
    } else {
      var n := |fields| - 1;
      var b := Realize(groupId, fields[..n], values[..n]);
      a := b.(envelope := b.envelope[fields[n] := values[n]]);
      forall i | 0 <= i < |fields| ensures FieldValue(a, fields[i]) == values[i] {
        if i < n {
          assert FieldValue(b, fields[..n][i]) == Components(b, fields[..n])[i + 1] == values[..n][i];
        }
      }
      assert Components(a, fields) == [groupId] + values;
    }
  }

  /** For distinct fields that is also the only case: with two fields or more, a value with a separator
      always has a message of the same group id and other field values that shares the key. */
  lemma IdentifiedIff(a: Attributes, fields: seq<Bytes>)
    requires Clean(a.groupId) && (forall i, j :: 0 <= i < j < |fields| ==> fields[i] != fields[j])
    ensures Identified(a, fields) <==> |fields| <= 1 || AllClean(Components(a, fields))
  {
    var p := Components(a, fields);
    if |fields| <= 1 || AllClean(p) {
      IdentifiedIf(a, fields);
    } else {
      var q := OtherComponents(p);
      var b := Realize(a.groupId, fields, q[1..]);
      assert [a.groupId] + q[1..] == q;
      assert Join(Components(b, fields)) == Join(p);
    }
  }

  /** Two messages of one group with two custom fields, the first of which carries the separator in one of
      them, as an envelope value may: different field values, one key. */
  lemma SeparatorCollides()
    ensures var fields: seq<Bytes> := [[1], [2]];
            var a := Attributes([0x67], map[], map[[1] := [8, SEPARATOR, 9], [2] := [10]]);
            var b := Attributes([0x67], map[], map[[1] := [8], [2] := [9, SEPARATOR, 10]]);
            && Clean(a.groupId) && Clean(b.groupId)
            && Components(a, fields) != Components(b, fields)
            && Join(Components(a, fields)) == Join(Components(b, fields))
  {
    var fields: seq<Bytes> := [[1], [2]];
    var a := Attributes([0x67], map[], map[[1] := [8, SEPARATOR, 9], [2] := [10]]);
    var b := Attributes([0x67], map[], map[[1] := [8], [2] := [9, SEPARATOR, 10]]);
    assert Components(a, fields) == [[0x67], [8, SEPARATOR, 9], [10]];
    assert Components(b, fields) == [[0x67], [8], [9, SEPARATOR, 10]];
    assert Components(a, fields)[1] != Components(b, fields)[1];
    assert Join([[8, SEPARATOR, 9], [10]]) == [8, SEPARATOR, 9, SEPARATOR, 10] == Join([[8], [9, SEPARATOR, 10]]);
  }

  const FNV_OFFSET: bv32 := 2166136261
  const FNV_PRIME: bv32 := 16777619

  /** Exclusive-or with the byte, then multiply, modulo 2^32. */
  function Mix(hash: bv32, b: bv8): bv32 { (hash ^ (b as bv32)) * FNV_PRIME }

  /** FNV-1a over the bytes, from first to last. */
  function Fnv(key: Bytes): bv32 {
    if key == [] then FNV_OFFSET else Mix(Fnv(key[..|key| - 1]), key[|key| - 1])
  }

  /** groupIndex: equal keys always select the same worker, and always one that exists. */
  function Index(key: Bytes, workers: nat): (index: nat)
    requires 1 <= workers < 0x1_0000_0000
    ensures index < workers
  {
    (Fnv(key) as int) % workers
  }

  /** The published FNV-1a values of the empty text, "a" and "foobar", and a worker that follows. */
  lemma KnownHashes()
    ensures Fnv([]) == 0x811c9dc5
    ensures Fnv([0x61]) == 0xe40c292c
    ensures Fnv([0x66, 0x6f, 0x6f, 0x62, 0x61, 0x72]) == 0xbf9cf968
    ensures Index([0x61], 7) == 5
  {
    assert Fnv([0x61]) as int == 3826002220;
    var s: Bytes := [];
    Extended(s, 0x66, 0x811c9dc5, 0xe30c2799);
    s := s + [0x66];
    Extended(s, 0x6f, 0xe30c2799, 0x6222e842);
    s := s + [0x6f];
    Extended(s, 0x6f, 0x6222e842, 0xa9f37ed7);
    s := s + [0x6f];
    Extended(s, 0x62, 0xa9f37ed7, 0x3f5076ef);
    s := s + [0x62];
    Extended(s, 0x61, 0x3f5076ef, 0x39aaa18a);
    s := s + [0x61];
    Extended(s, 0x72, 0x39aaa18a, 0xbf9cf968);
    s := s + [0x72];
    assert s == [0x66, 0x6f, 0x6f, 0x62, 0x61, 0x72];
  }

  /** The hash goes through the bytes from first to last. */
  lemma Extended(s: Bytes, b: bv8, before: bv32, after: bv32)
    requires Fnv(s) == before && after == Mix(before, b)
    ensures Fnv(s + [b]) == after
  {
    assert (s + [b])[..|s|] == s;
  }
}
