/** remove_property_images: the image keys that are sent. */
module ImageKeys {
  import opened Basics
  import opened Text

  /** The non-blank keys, each where it first occurs. */
  function Distinct(keys: seq<Str>): seq<Str> {
    if keys == [] then []
    else
      var before, k := Distinct(keys[..|keys| - 1]), keys[|keys| - 1];
      if k != "" && k !in before then before + [k] else before
  }

  lemma DistinctNext(keys: seq<Str>, i: nat)
    requires i < |keys|
    ensures Distinct(keys[..i + 1]) ==
            var before := Distinct(keys[..i]);
            if keys[i] != "" && keys[i] !in before then before + [keys[i]] else before
  {
    assert keys[..i + 1][..i] == keys[..i];
  }

  /** The position where `k` first occurs; the number of keys if it does not. */
  function First(keys: seq<Str>, k: Str): (n: nat)
    ensures n <= |keys|
    ensures forall i :: 0 <= i < n ==> keys[i] != k
    ensures n < |keys| ==> keys[n] == k
  {
    if keys == [] || keys[0] == k then 0 else 1 + First(keys[1..], k)
  }

  lemma FirstInPrefix(keys: seq<Str>, k: Str, n: nat)
    requires n <= |keys|
    ensures First(keys[..n], k) == if First(keys, k) < n then First(keys, k) else n
  {
    var p := keys[..n];
    assert forall i :: 0 <= i < n ==> p[i] == keys[i];
  }

  /** All the keys that occur, apart from the blank one. */
  lemma {:induction false} DistinctMembers(keys: seq<Str>, k: Str)
    ensures k in Distinct(keys) <==> k != "" && k in keys
  {
    if keys != [] {
      DistinctMembers(keys[..|keys| - 1], k);
      assert keys == keys[..|keys| - 1] + [keys[|keys| - 1]];
    }
  }

  /** In the order of their first occurrences, hence without duplicates. */
  lemma {:induction false} DistinctInOrder(keys: seq<Str>, a: nat, b: nat)
    requires a < b < |Distinct(keys)|
    ensures First(keys, Distinct(keys)[a]) < First(keys, Distinct(keys)[b]) < |keys|
  {
    var n := |keys| - 1;
    var before, all := Distinct(keys[..n]), Distinct(keys);
    FirstInPrefix(keys, all[a], n);
    FirstInPrefix(keys, all[b], n);
    DistinctMembers(keys[..n], all[a]);
    DistinctMembers(keys[..n], all[b]);
    DistinctMembers(keys, all[b]);
    if b < |before| {
      DistinctInOrder(keys[..n], a, b);
    }
  }

  lemma NoDuplicates(keys: seq<Str>)
    ensures forall a, b :: 0 <= a < b < |Distinct(keys)| ==> Distinct(keys)[a] != Distinct(keys)[b]
  {
    forall a, b | 0 <= a < b < |Distinct(keys)|
      ensures Distinct(keys)[a] != Distinct(keys)[b]
    {
      DistinctInOrder(keys, a, b);
    }
  }

  /** The trimmed keys have this one. */
  ghost predicate Occurs(input: seq<Str>, k: Str) {
    exists i :: 0 <= i < |input| && TrimSpace(input[i]) == k
  }

  lemma OccursTrimmed(input: seq<Str>, k: Str)
    ensures Occurs(input, k) <==> k in Trimmed(input)
  {
    if k in Trimmed(input) {
      var i :| 0 <= i < |input| && Trimmed(input)[i] == k;
      assert TrimSpace(input[i]) == k;
    }
    if Occurs(input, k) {
      var i :| 0 <= i < |input| && TrimSpace(input[i]) == k;
      assert Trimmed(input)[i] == k;
    }
  }

  /** What is left of the keys: those that are not blank, each once. */
  lemma Cleaned(input: seq<Str>)
    ensures var keys := Distinct(Trimmed(input));
            && (forall k :: k in keys <==> k != "" && Occurs(input, k))
            && (forall a, b :: 0 <= a < b < |keys| ==> keys[a] != keys[b])
  {
    forall k: Str
      ensures k in Distinct(Trimmed(input)) <==> k != "" && Occurs(input, k)
    {
      DistinctMembers(Trimmed(input), k);
      OccursTrimmed(input, k);
    }
    NoDuplicates(Trimmed(input));
  }

  /** None when no key is left, which is an error. */
  method CleanKeys(input: seq<Str>) returns (r: Option<seq<Str>>)
    ensures var keys := Distinct(Trimmed(input)); r == if keys == [] then None else Some(keys)
    ensures r.None? ==> forall k :: Occurs(input, k) ==> k == ""
    ensures r.Some? ==>
      && r.value != [] && (forall k :: k in r.value <==> k != "" && Occurs(input, k))
      && (forall a, b :: 0 <= a < b < |r.value| ==> r.value[a] != r.value[b])
  {
    Cleaned(input);
    ghost var trimmed := Trimmed(input);
    var keys: seq<Str> := [];
    for i := 0 to |input|
      invariant keys == Distinct(trimmed[..i])
    {
      DistinctNext(trimmed, i);
      var k := TrimSpace(input[i]);
      if k != "" && k !in keys {
        keys := keys + [k];
      }
    }
    assert trimmed[..|input|] == trimmed;
    r := if |keys| == 0 then None else Some(keys);
  }

  /** Distinct non-blank keys are left as they are. */
  lemma {:induction false} DistinctFixed(keys: seq<Str>)
    requires "" !in keys
    requires forall a, b :: 0 <= a < b < |keys| ==> keys[a] != keys[b]
    ensures Distinct(keys) == keys
  {
    if keys != [] {
      DistinctFixed(keys[..|keys| - 1]);
      assert keys == keys[..|keys| - 1] + [keys[|keys| - 1]];
    }
  }

  /** Cleaning what was cleaned changes nothing. */
  lemma CleaningIdempotent(input: seq<Str>)
    ensures var keys := Distinct(Trimmed(input)); Distinct(Trimmed(keys)) == keys
  {
    var keys := Distinct(Trimmed(input));
    forall j | 0 <= j < |keys|
      ensures TrimSpace(keys[j]) == keys[j]
    {
      DistinctMembers(Trimmed(input), keys[j]);
      var i :| 0 <= i < |input| && Trimmed(input)[i] == keys[j];
      TrimSpaceIdempotent(input[i]);
    }
    assert Trimmed(keys) == keys;
    DistinctMembers(Trimmed(input), "");
    NoDuplicates(Trimmed(input));
    DistinctFixed(keys);
  }
}
