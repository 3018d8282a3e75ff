/**
 A table whose entries are consumed by reading them, seen through the history of its operations.
 RedirectStore and DiagFlows are both such tables. The history gives an account of the table that
 does not mention the map: what is stored for a key is the last save that no take has followed.
 */
module OneShot {
  import opened Basics

  /** `who` is the request that performed the operation. */
  datatype Op<V> =
    | Saved(who: nat, key: Str, value: V)
    | Took(who: nat, key: Str, result: Option<V>)

  /** The value of the most recent save for `k` that is still unconsumed. */
  function Live<V>(h: seq<Op<V>>, k: Str): Option<V> {
    if h == [] then None
    else
      var e := h[|h| - 1];
      if e.key != k then Live(h[..|h| - 1], k)
      else if e.Saved? then Some(e.value)
      else None
  }

  /** Every take in the history returned what was live at that moment. */
  ghost predicate Consistent<V>(h: seq<Op<V>>) {
    forall i :: 0 <= i < |h| && h[i].Took? ==> h[i].result == Live(h[..i], h[i].key)
  }

  /** The map is exactly the live part of the history. */
  ghost predicate Agrees<V>(m: map<Str, V>, h: seq<Op<V>>) {
    forall k :: Found(m, k) == Live(h, k)
  }

  // ----- the two operations on the map -----

  function Save<V>(m: map<Str, V>, k: Str, v: V): map<Str, V> {
    m[k := v]
  }

  function Found<V>(m: map<Str, V>, k: Str): Option<V> {
    if k in m then Some(m[k]) else None
  }

  function Take<V>(m: map<Str, V>, k: Str): map<Str, V> {
    if k in m then m - {k} else m
  }

  lemma LiveAppend<V>(h: seq<Op<V>>, e: Op<V>, k: Str)
    ensures Live(h + [e], k) ==
            if e.key != k then Live(h, k) else if e.Saved? then Some(e.value) else None
  {
    assert (h + [e])[..|h|] == h;
  }

  lemma ConsistentAppend<V>(h: seq<Op<V>>, e: Op<V>)
    requires Consistent(h)
    requires e.Took? ==> e.result == Live(h, e.key)
    ensures Consistent(h + [e])
  {
    forall i | 0 <= i < |h + [e]| && (h + [e])[i].Took?
      ensures (h + [e])[i].result == Live((h + [e])[..i], (h + [e])[i].key)
    {
      assert (h + [e])[..i] == if i < |h| then h[..i] else h;
    }
  }

  lemma SaveKeeps<V>(m: map<Str, V>, h: seq<Op<V>>, who: nat, k: Str, v: V)
    requires Agrees(m, h) && Consistent(h)
    ensures Agrees(Save(m, k, v), h + [Saved(who, k, v)])
    ensures Consistent(h + [Saved(who, k, v)])
  {
    forall key: Str {
      LiveAppend(h, Saved(who, k, v), key);
    }
    ConsistentAppend(h, Saved(who, k, v));
  }

  lemma TakeKeeps<V>(m: map<Str, V>, h: seq<Op<V>>, who: nat, k: Str)
    requires Agrees(m, h) && Consistent(h)
    ensures Agrees(Take(m, k), h + [Took(who, k, Found(m, k))])
    ensures Consistent(h + [Took(who, k, Found(m, k))])
  {
    forall key: Str {
      LiveAppend(h, Took(who, k, Found(m, k)), key);
    }
    ConsistentAppend(h, Took(who, k, Found(m, k)));
  }

  // ----- what a successful take says about the past -----

  /** A live value was put there by a save after which nobody touched the key. */
  lemma {:induction false} LiveOrigin<V>(h: seq<Op<V>>, k: Str) returns (j: nat)
    requires Live(h, k).Some?
    ensures j < |h| && h[j].Saved? && h[j].key == k && Live(h, k) == Some(h[j].value)
    ensures forall x :: j < x < |h| ==> h[x].key != k
  {
    if h[|h| - 1].key == k {
      j := |h| - 1;
    } else {
      j := LiveOrigin(h[..|h| - 1], k);
    }
  }

  /** A successful take returns the most recent save of its key, with no operation on the key between. */
  lemma TakeReturnsLatestSave<V>(h: seq<Op<V>>, i: nat) returns (j: nat)
    requires Consistent(h)
    requires i < |h| && h[i].Took? && h[i].result.Some?
    ensures j < i && h[j].Saved? && h[j].key == h[i].key && h[i].result == Some(h[j].value)
    ensures forall x :: j < x < i ==> h[x].key != h[i].key
  {
    j := LiveOrigin(h[..i], h[i].key);
    forall x | j < x < i
      ensures h[x].key != h[i].key
    {
      assert h[..i][x].key != h[i].key;
    }
  }

  /** A saved value that is no longer live, and was not saved over, has been taken since. */
  lemma {:induction false} DeadWasTaken<V>(h: seq<Op<V>>, j: nat, k: Str) returns (x: nat)
    requires Consistent(h) && j < |h| && h[j].Saved? && h[j].key == k
    requires forall i :: j < i < |h| && h[i].Saved? ==> h[i].key != k
    requires Live(h, k).None?
    ensures j < x < |h| && h[x].Took? && h[x].key == k && h[x].result == Some(h[j].value)
    decreases |h|
  {
    var n := |h| - 1;
    var before := h[..n];
    ConsistentPrefix(h, n);
    if h[n].key == k && Live(before, k).Some? {
      x := n;
      var p := LiveOrigin(before, k);
      assert p == j;
    } else {
      x := DeadWasTaken(before, j, k);
    }
  }

  /** No two saves of the history are for `k`. */
  ghost predicate SavedOnce<V>(h: seq<Op<V>>, k: Str) {
    forall i, j :: 0 <= i < j < |h| && h[i].Saved? && h[j].Saved? && h[i].key == k ==> h[j].key != k
  }

  /**
   A key that is saved once is taken successfully at most once, and only the value of its one save comes out,
   whatever happens under other keys.
   */
  lemma FreshTakes<V>(h: seq<Op<V>>, i: nat, j: nat)
    requires Consistent(h) && i < |h| && h[i].Took? && h[i].result.Some? && SavedOnce(h, h[i].key)
    ensures j < |h| && h[j].Saved? && h[j].key == h[i].key ==> h[i].result == Some(h[j].value)
    ensures j < |h| && h[j].Took? && h[j].result.Some? && h[j].key == h[i].key ==> i == j
  {
    var p := TakeReturnsLatestSave(h, i);
    if j < |h| && h[j].Took? && h[j].result.Some? && h[j].key == h[i].key {
      var q := TakeReturnsLatestSave(h, j);
      assert p == q;
    }
  }

  // ----- conservation -----

  function Saves<V>(h: seq<Op<V>>, k: Str): nat {
    if h == [] then 0
    else
      var e := h[|h| - 1];
      Saves(h[..|h| - 1], k) + if e.Saved? && e.key == k then 1 else 0
  }

  function Takes<V>(h: seq<Op<V>>, k: Str): nat {
    if h == [] then 0
    else
      var e := h[|h| - 1];
      Takes(h[..|h| - 1], k) + if e.Took? && e.key == k && e.result.Some? then 1 else 0
  }

  /** Saves that replaced a value nobody had taken. */
  function Overwrites<V>(h: seq<Op<V>>, k: Str): nat {
    if h == [] then 0
    else
      var e := h[|h| - 1];
      var before := h[..|h| - 1];
      Overwrites(before, k) + if e.Saved? && e.key == k && Live(before, k).Some? then 1 else 0
  }

  /** Each saved value is taken once, overwritten, or still there. */
  lemma {:induction false} Conservation<V>(h: seq<Op<V>>, k: Str)
    requires Consistent(h)
    ensures Saves(h, k) == Takes(h, k) + Overwrites(h, k) + if Live(h, k).Some? then 1 else 0
  {
    if h != [] {
      var before := h[..|h| - 1];
      forall i | 0 <= i < |before| && before[i].Took?
        ensures before[i].result == Live(before[..i], before[i].key)
      {
        assert before[..i] == h[..i];
      }
      Conservation(before, k);
    }
  }

  // ----- conservation over all keys -----

  function AllSaves<V>(h: seq<Op<V>>): nat {
    if h == [] then 0
    else AllSaves(h[..|h| - 1]) + if h[|h| - 1].Saved? then 1 else 0
  }

  function AllTakes<V>(h: seq<Op<V>>): nat {
    if h == [] then 0
    else AllTakes(h[..|h| - 1]) + if h[|h| - 1].Took? && h[|h| - 1].result.Some? then 1 else 0
  }

  function AllOverwrites<V>(h: seq<Op<V>>): nat {
    if h == [] then 0
    else
      var e, before := h[|h| - 1], h[..|h| - 1];
      AllOverwrites(before) + if e.Saved? && Live(before, e.key).Some? then 1 else 0
  }

  /** The number of stored entries is what was saved, less what was taken or overwritten. */
  lemma {:induction false} SizeOfTable<V>(m: map<Str, V>, h: seq<Op<V>>)
    requires Consistent(h) && Agrees(m, h)
    ensures |m| + AllTakes(h) + AllOverwrites(h) == AllSaves(h)
    decreases |h|
  {
    if h == [] {
      forall k: Str
        ensures k !in m
      {
        assert Found(m, k) == Live(h, k);
      }
      assert m == map[];
    } else {
      var before, e := h[..|h| - 1], h[|h| - 1];
      assert h == before + [e];
      ConsistentPrefix(h, |h| - 1);
      Undo(m, before, e);
      RestoredSize(m, e.key, Live(before, e.key));
      SizeOfTable(Restored(m, e.key, Live(before, e.key)), before);
      assert e.Took? ==> e.result == Live(before, e.key) by { assert h[..|h| - 1] == before; }
    }
  }

  lemma ConsistentPrefix<V>(h: seq<Op<V>>, n: nat)
    requires Consistent(h) && n <= |h|
    ensures Consistent(h[..n])
  {
    forall i | 0 <= i < n && h[..n][i].Took?
      ensures h[..n][i].result == Live(h[..n][..i], h[..n][i].key)
    {
      assert h[..n][..i] == h[..i];
    }
  }

  /** The table with the entry for `k` put back to `was`. */
  function Restored<V>(m: map<Str, V>, k: Str, was: Option<V>): map<Str, V> {
    if was.Some? then m[k := was.value] else m - {k}
  }

  lemma RestoredSize<V>(m: map<Str, V>, k: Str, was: Option<V>)
    ensures |Restored(m, k, was)| == |m| - (if k in m then 1 else 0) + (if was.Some? then 1 else 0)
  {
    var m' := Restored(m, k, was);
    SizeAround(m, k);
    SizeAround(m', k);
    assert m - {k} == m' - {k};
  }

  /** The table as it was before the last operation. */
  lemma Undo<V>(m: map<Str, V>, before: seq<Op<V>>, e: Op<V>)
    requires Agrees(m, before + [e])
    ensures Agrees(Restored(m, e.key, Live(before, e.key)), before)
    ensures e.key in m <==> e.Saved?
  {
    var m' := Restored(m, e.key, Live(before, e.key));
    forall k: Str
      ensures Found(m', k) == Live(before, k)
    {
      LiveAppend(before, e, k);
      assert Found(m, k) == Live(before + [e], k);
    }
    LiveAppend(before, e, e.key);
    assert Found(m, e.key) == Live(before + [e], e.key);
  }

  lemma SizeAround<V>(m: map<Str, V>, k: Str)
    ensures |m| == |m - {k}| + if k in m then 1 else 0
  {
    assert (m - {k}).Keys == m.Keys - {k};
  }

  /** Takes are of entries that were there or were saved since; without new saves each removes one entry. */
  lemma TakesBoundedByEntries<V>(m: map<Str, V>, h: seq<Op<V>>, m': map<Str, V>, h': seq<Op<V>>)
    requires Consistent(h) && Agrees(m, h) && Consistent(h') && Agrees(m', h')
    requires h <= h'
    ensures AllTakes(h') - AllTakes(h) <= |m| - |m'| + AllSaves(h') - AllSaves(h)
    ensures AllSaves(h') == AllSaves(h) ==> AllTakes(h') == AllTakes(h) + |m| - |m'|
  {
    SizeOfTable(m, h);
    SizeOfTable(m', h');
    SavesAndOverwritesGrow(h, h');
  }

  lemma {:induction false} SavesAndOverwritesGrow<V>(h: seq<Op<V>>, h': seq<Op<V>>)
    requires h <= h'
    ensures AllSaves(h) <= AllSaves(h') && AllOverwrites(h) <= AllOverwrites(h')
    ensures AllOverwrites(h') - AllOverwrites(h) <= AllSaves(h') - AllSaves(h)
    decreases |h'|
  {
    if h != h' {
      SavesAndOverwritesGrow(h, h'[..|h'| - 1]);
    }
  }
}
