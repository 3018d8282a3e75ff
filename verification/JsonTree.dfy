/** JSON values, and pruning as a function: the one tree without empty objects that has the same leaves. */
module JsonTree {
  import opened Basics

  datatype Json =
    | Null
    | Bool(b: bool)
    | Num(n: real)
    | Text(s: string)
    | Arr(items: seq<Json>)
    | Obj(fields: map<string, Json>)

  type Path = seq<string>

  /** The leaf at a path that runs through objects only. An array is a leaf, whatever it contains. */
  function LeafAt(j: Json, path: Path): Option<Json>
    decreases |path|
  {
    if !j.Obj? then if path == [] then Some(j) else None
    else if path == [] || path[0] !in j.fields then None
    else LeafAt(j.fields[path[0]], path[1..])
  }

  ghost predicate SameLeaves(a: Json, b: Json) {
    forall path :: LeafAt(a, path) == LeafAt(b, path)
  }

  ghost predicate Leafless(j: Json) {
    forall path :: LeafAt(j, path) == None
  }

  /** No object below the root is empty. */
  ghost predicate Normal(j: Json) {
    j.Obj? ==> forall k <- j.fields :: Normal(j.fields[k]) && j.fields[k] != Obj(map[])
  }

  /** The pruned tree. */
  function Prune(j: Json): Json {
    if j.Obj? then Obj(map k | k in j.fields && Prune(j.fields[k]) != Obj(map[]) :: Prune(j.fields[k])) else j
  }

  lemma {:induction false} PruneIsNormal(j: Json)
    ensures Normal(Prune(j))
  {
    if j.Obj? {
      forall k | k in j.fields {
        PruneIsNormal(j.fields[k]);
      }
    }
  }

  lemma {:induction false} PruneKeepsLeaf(j: Json, path: Path)
    ensures LeafAt(Prune(j), path) == LeafAt(j, path)
    decreases |path|
  {
    if j.Obj? && path != [] && path[0] in j.fields {
      PruneKeepsLeaf(j.fields[path[0]], path[1..]);
    }
  }

  lemma PruneKeepsLeaves(j: Json)
    ensures SameLeaves(Prune(j), j)
  {
    forall path: Path {
      PruneKeepsLeaf(j, path);
    }
  }

  /** A normal tree is left as it is, so pruning twice is pruning once. */
  lemma {:induction false} NormalIsFixed(j: Json)
    requires Normal(j)
    ensures Prune(j) == j
  {
    if j.Obj? {
      forall k | k in j.fields {
        NormalIsFixed(j.fields[k]);
      }
      assert Prune(j).fields == j.fields;
    }
  }

  lemma PruneIdempotent(j: Json)
    ensures Prune(Prune(j)) == Prune(j)
  {
    PruneIsNormal(j);
    NormalIsFixed(Prune(j));
  }

  /** A normal tree other than the empty object has a leaf. */
  lemma {:induction false} NormalHasLeaf(j: Json) returns (path: Path)
    requires Normal(j) && j != Obj(map[])
    ensures LeafAt(j, path).Some?
  {
    if j.Obj? {
      var k :| k in j.fields;
      var rest := NormalHasLeaf(j.fields[k]);
      path := [k] + rest;
      assert path[1..] == rest;
    } else {
      path := [];
    }
  }

  lemma SameKeys(a: Json, b: Json, k: string)
    requires a.Obj? && b.Obj? && Normal(a) && SameLeaves(a, b)
    requires k in a.fields
    ensures k in b.fields
    ensures SameLeaves(a.fields[k], b.fields[k])
  {
    var rest := NormalHasLeaf(a.fields[k]);
    assert ([k] + rest)[1..] == rest;
    assert LeafAt(a, [k] + rest) == LeafAt(b, [k] + rest);
    forall path: Path
      ensures LeafAt(a.fields[k], path) == LeafAt(b.fields[k], path)
    {
      assert ([k] + path)[1..] == path;
      assert LeafAt(a, [k] + path) == LeafAt(b, [k] + path);
    }
  }

  /** A normal tree is determined by its leaves. */
  lemma {:induction false} NormalUnique(a: Json, b: Json)
    requires Normal(a) && Normal(b) && SameLeaves(a, b)
    ensures a == b
    decreases a
  {
    assert LeafAt(a, []) == LeafAt(b, []);
    if a.Obj? {
      forall k: string
        ensures k in a.fields <==> k in b.fields
        ensures k in a.fields ==> a.fields[k] == b.fields[k]
      {
        if k in a.fields {
          SameKeys(a, b, k);
          NormalUnique(a.fields[k], b.fields[k]);
        }
        if k in b.fields {
          SameKeys(b, a, k);
        }
      }
      assert a.fields == b.fields;
    }
  }

  /** Two trees prune to the same tree exactly when they have the same leaves. */
  lemma PruneCanonical(a: Json, b: Json)
    ensures Prune(a) == Prune(b) <==> SameLeaves(a, b)
  {
    PruneKeepsLeaves(a);
    PruneKeepsLeaves(b);
    PruneIsNormal(a);
    PruneIsNormal(b);
    if Prune(a) == Prune(b) {
      forall path: Path
        ensures LeafAt(a, path) == LeafAt(b, path)
      {
        assert LeafAt(Prune(a), path) == LeafAt(a, path) && LeafAt(Prune(b), path) == LeafAt(b, path);
      }
    }
    if SameLeaves(a, b) {
      forall path: Path
        ensures LeafAt(Prune(a), path) == LeafAt(Prune(b), path)
      {
        assert LeafAt(Prune(a), path) == LeafAt(a, path) && LeafAt(Prune(b), path) == LeafAt(b, path);
      }
      NormalUnique(Prune(a), Prune(b));
    }
  }

  /** Pruning leaves nothing exactly when there was no leaf at all. */
  lemma PrunedAwayIffNoLeaf(j: Json)
    requires j.Obj?
    ensures Prune(j) == Obj(map[]) <==> Leafless(j)
  {
    PruneIsNormal(j);
    PruneKeepsLeaves(j);
    if Prune(j) == Obj(map[]) {
      forall path: Path
        ensures LeafAt(j, path) == None
      {
        assert LeafAt(Prune(j), path) == LeafAt(j, path);
      }
    } else {
      var path := NormalHasLeaf(Prune(j));
      assert LeafAt(Prune(j), path) == LeafAt(j, path);
    }
  }

  // ----- the bookkeeping strip -----

  const BOOKKEEPING_KEYS := ["propertyId", "createdById", "createdAt", "updatedAt"]

  const UNDERWRITING := "underwriting"

  function StripSection(section: Json): Json {
    if section.Obj? then Obj(section.fields - (set k | k in BOOKKEEPING_KEYS)) else section
  }

  function StripSections(sections: Json): Json {
    if sections.Obj? then Obj(map s | s in sections.fields :: StripSection(sections.fields[s])) else sections
  }

  function StripEntry(entry: Json): Json {
    if entry.Obj? && UNDERWRITING in entry.fields
    then Obj(entry.fields[UNDERWRITING := StripSections(entry.fields[UNDERWRITING])])
    else entry
  }

  /** underwriting / section / bookkeeping key, or below. */
  predicate Bookkeeping(path: Path) {
    && |path| >= 3 && path[0] == "underwriting"
    && path[2] in ["propertyId", "createdById", "createdAt", "updatedAt"]
  }

  /** What stands at a path that runs through objects only: a leaf, or an object shown without its fields. */
  function NodeAt(j: Json, path: Path): Option<Json>
    decreases |path|
  {
    if path == [] then Some(if j.Obj? then Obj(map[]) else j)
    else if !j.Obj? || path[0] !in j.fields then None
    else NodeAt(j.fields[path[0]], path[1..])
  }

  lemma NodeBelow(j: Json, path: Path)
    requires path != []
    ensures NodeAt(j, path) == if j.Obj? && path[0] in j.fields then NodeAt(j.fields[path[0]], path[1..]) else None
  {
  }

  lemma StripSectionNode(section: Json, path: Path)
    ensures NodeAt(StripSection(section), path) ==
            if path != [] && path[0] in BOOKKEEPING_KEYS then None else NodeAt(section, path)
  {
    if section.Obj? && path != [] {
      NodeBelow(StripSection(section), path);
      NodeBelow(section, path);
    }
  }

  lemma StripSectionsNode(sections: Json, path: Path)
    ensures NodeAt(StripSections(sections), path) ==
            if |path| >= 2 && path[1] in BOOKKEEPING_KEYS then None else NodeAt(sections, path)
  {
    if sections.Obj? && path != [] {
      NodeBelow(StripSections(sections), path);
      NodeBelow(sections, path);
      if path[0] in sections.fields {
        StripSectionNode(sections.fields[path[0]], path[1..]);
        assert |path| >= 2 ==> path[1..][0] == path[1];
      }
    } else if |path| >= 2 {
      assert NodeAt(sections, path) == None;
    }
  }

  /** The strip removes what stands at and under a section's bookkeeping keys, and nothing else at any path. */
  lemma StripExact(entry: Json, path: Path)
    ensures NodeAt(StripEntry(entry), path) == if Bookkeeping(path) then None else NodeAt(entry, path)
  {
    if entry.Obj? && UNDERWRITING in entry.fields && path != [] && path[0] == UNDERWRITING {
      NodeBelow(StripEntry(entry), path);
      NodeBelow(entry, path);
      StripSectionsNode(entry.fields[UNDERWRITING], path[1..]);
      assert |path| >= 3 ==> path[1..][1] == path[2];
    }
  }

  /** A leaf is a node that is no object. */
  lemma {:induction false} LeafIsNode(j: Json, path: Path)
    ensures LeafAt(j, path) == if NodeAt(j, path).Some? && !NodeAt(j, path).value.Obj? then NodeAt(j, path) else None
    decreases |path|
  {
    if j.Obj? && path != [] && path[0] in j.fields {
      LeafIsNode(j.fields[path[0]], path[1..]);
    }
  }

  /** In particular the leaves that stay are those elsewhere. */
  lemma StripExactLeaves(entry: Json, path: Path)
    ensures LeafAt(StripEntry(entry), path) == if Bookkeeping(path) then None else LeafAt(entry, path)
  {
    StripExact(entry, path);
    LeafIsNode(entry, path);
    LeafIsNode(StripEntry(entry), path);
  }

  lemma StripSectionIdempotent(section: Json)
    ensures StripSection(StripSection(section)) == StripSection(section)
  {
    if section.Obj? {
      assert StripSection(StripSection(section)).fields == StripSection(section).fields;
    }
  }

  /** Sections stay, even those that the strip empties; so do all keys outside the sections. */
  lemma StripKeepsSections(entry: Json)
    requires entry.Obj? && UNDERWRITING in entry.fields && entry.fields[UNDERWRITING].Obj?
    ensures StripEntry(entry).fields.Keys == entry.fields.Keys
    ensures StripEntry(entry).fields[UNDERWRITING].fields.Keys == entry.fields[UNDERWRITING].fields.Keys
    ensures StripEntry(StripEntry(entry)) == StripEntry(entry)
  {
    var once := StripEntry(entry).fields[UNDERWRITING];
    forall s | s in once.fields
      ensures StripSections(once).fields[s] == once.fields[s]
    {
      StripSectionIdempotent(entry.fields[UNDERWRITING].fields[s]);
    }
    assert StripSections(once).fields == once.fields;
    assert StripEntry(StripEntry(entry)).fields == StripEntry(entry).fields;
  }
}
