/**
 JSON objects as Go holds them: maps on the heap that hold other maps by reference and are changed in
 place. Each method visits the keys of a map in an arbitrary order, as Go's range does, and is proved
 equal to the corresponding function on trees whatever that order is.
 */
module JsonHeap {
  import opened Basics
  import opened JsonTree

  datatype Value = Leaf(json: Json) | Child(node: Node)

  class Node {
    var m: map<string, Value>
    ghost var tree: Json        // the JSON value this object stands for
    ghost var repr: set<Node>   // this object and all objects below it

    /** The value at a key agrees with the tree, and a child's footprint lies inside this one. */
    ghost predicate Agrees(k: string)
      requires k in m
      reads this, repr
      decreases repr, 0
    {
      && this in repr && tree.Obj? && k in tree.fields
      && match m[k]
         case Leaf(json) => !json.Obj? && tree.fields[k] == json
         case Child(node) =>
           && node in repr && node.repr <= repr && this !in node.repr
           && node.Valid() && tree.fields[k] == node.tree
    }

    ghost predicate Apart()
      reads this, repr
    {
      forall k <- m, l <- m :: k != l && m[k].Child? && m[l].Child? && m[k].node in repr && m[l].node in repr ==>
        m[k].node.repr !! m[l].node.repr
    }

    ghost predicate Valid()
      reads this, repr
      ensures Valid() ==> this in repr
      decreases repr, 1
    {
      && this in repr
      && tree.Obj? && tree.fields.Keys == m.Keys
      && (forall k <- m :: Agrees(k))
      && Apart()
    }

    /** What is below one child is out of reach of the others. */
    lemma Siblings(k: string)
      requires Valid() && k in m && m[k].Child?
      ensures Agrees(k)
      ensures forall l <- m :: l != k ==> Agrees(l)
      ensures forall l <- m :: l != k && m[l].Child? ==> m[l].node.Valid() && m[l].node.repr !! m[k].node.repr
    {
      forall l | l in m && l != k && m[l].Child?
        ensures m[l].node.Valid() && m[l].node.repr !! m[k].node.repr
      {
        assert Agrees(k) && Agrees(l);
      }
    }

    /** All is in order but for the tree at `k`, where the child has changed below. */
    ghost predicate StaleAt(k: string)
      reads this, repr
    {
      && this in repr && tree.Obj? && tree.fields.Keys == m.Keys && Apart()
      && k in m && m[k].Child? && m[k].node in repr &&
         m[k].node.repr <= repr && this !in m[k].node.repr && m[k].node.Valid()
      && (forall l <- m :: l != k ==> Agrees(l))
    }

    ghost method Refresh(k: string)
      requires StaleAt(k)
      modifies this`tree
      ensures Valid() && tree == Obj(old(tree).fields[k := m[k].node.tree])
    {
      tree := Obj(tree.fields[k := m[k].node.tree]);
      forall l | l in m && l != k
        ensures Agrees(l)
      {
        assert old(Agrees(l));
      }
      assert Agrees(k);
    }

    constructor ()
      ensures Valid() && fresh(this) && repr == {this} && tree == Obj(map[])
    {
      m := map[];
      tree := Obj(map[]);
      repr := {this};
    }

    method IsEmpty() returns (empty: bool)
      requires Valid()
      ensures empty <==> tree == Obj(map[])
    {
      assert |m| == 0 ==> tree.fields == map[];
      empty := |m| == 0;
    }

    /** delete(m, k) */
    method Delete(k: string)
      requires Valid()
      modifies this
      ensures Valid() && repr == old(repr)
      ensures tree == Obj(old(tree).fields - {k})
    {
      m := m - {k};
      tree := Obj(tree.fields - {k});
      assert forall l <- m :: old(Agrees(l));
    }

    method SetLeaf(k: string, json: Json)
      requires Valid() && k !in m && !json.Obj?
      modifies this
      ensures Valid() && repr == old(repr)
      ensures tree == Obj(old(tree).fields[k := json])
    {
      m := m[k := Leaf(json)];
      tree := Obj(tree.fields[k := json]);
      assert forall l <- old(m) :: old(Agrees(l));
    }

    method SetChild(k: string, child: Node)
      requires Valid() && k !in m && child.Valid() && repr !! child.repr
      modifies this
      ensures Valid() && repr == old(repr) + child.repr
      ensures tree == Obj(old(tree).fields[k := child.tree])
    {
      m := m[k := Child(child)];
      tree := Obj(tree.fields[k := child.tree]);
      repr := repr + child.repr;
      assert forall l <- old(m) :: old(Agrees(l));
    }
  }

  /** The fields when the keys in `done` have been visited. */
  function PrunedOn(fields: map<string, Json>, done: set<string>): map<string, Json> {
    map k | k in fields && !(k in done && Prune(fields[k]) == Obj(map[])) ::
      if k in done then Prune(fields[k]) else fields[k]
  }

  function Visit(fields: map<string, Json>, k: string, value: Json): map<string, Json> {
    if value == Obj(map[]) then fields - {k} else fields[k := value]
  }

  /** Visiting one more key, whichever it is, adds it to the visited ones. */
  lemma VisitOne(fields: map<string, Json>, done: set<string>, k: string)
    requires k in fields && k !in done
    ensures k in PrunedOn(fields, done) && PrunedOn(fields, done)[k] == fields[k]
    ensures PrunedOn(fields, done + {k}) == Visit(PrunedOn(fields, done), k, Prune(fields[k]))
  {
  }

  lemma VisitAll(fields: map<string, Json>)
    ensures PrunedOn(fields, {}) == fields
    ensures Obj(PrunedOn(fields, fields.Keys)) == Prune(Obj(fields))
  {
    assert PrunedOn(fields, fields.Keys) == Prune(Obj(fields)).fields;
  }

  /** pruneEmptyObjects, in place. */
  method PruneEmptyObjects(n: Node)
    requires n.Valid()
    modifies n.repr
    ensures n.Valid() && n.repr == old(n.repr)
    ensures n.tree == Prune(old(n.tree))
    decreases n.repr, 2
  {
    ghost var before := n.tree.fields;
    VisitAll(before);
    var todo := n.m.Keys;
    ghost var done := {};
    while todo != {}
      invariant n.Valid() && n.repr == old(n.repr)
      invariant done !! todo && done + todo == before.Keys
      invariant n.tree == Obj(PrunedOn(before, done))
      decreases todo
    {
      var k :| k in todo;
      todo := todo - {k};
      VisitOne(before, done, k);
      PruneChild(n, k);
      done := done + {k};
    }
  }

  /** One round of the loop: prune the child, if it is one, and drop it when nothing is left. */
  method PruneChild(n: Node, k: string)
    requires n.Valid() && k in n.m
    modifies n.repr
    ensures n.Valid() && n.repr == old(n.repr)
    ensures n.tree == Obj(Visit(old(n.tree).fields, k, Prune(old(n.tree).fields[k])))
    decreases n.repr, 1
  {
    assert n.Agrees(k);
    if n.m[k].Child? {
      ghost var pruned := Prune(n.tree.fields[k]);
      var empty := PruneBelow(n, k, n.m[k].node);
      if empty {
        n.Delete(k);
      }
    }
  }

  /** Prune a child in place, and see whether it is empty now: the tree around it changes there only. */
  method PruneBelow(n: Node, k: string, child: Node) returns (empty: bool)
    requires n.Valid() && k in n.m && n.m[k] == Child(child)
    modifies n.repr
    ensures n.Valid() && n.repr == old(n.repr)
    ensures n.tree == Obj(old(n.tree).fields[k := Prune(old(n.tree).fields[k])])
    ensures empty <==> Prune(old(n.tree).fields[k]) == Obj(map[])
    decreases n.repr, 0
  {
    n.Siblings(k);
    PruneEmptyObjects(child);
    empty := child.IsEmpty();
    n.Refresh(k);
  }

  // ----- the bookkeeping strip -----

  /** delete(m, k) for each bookkeeping key. */
  method DeleteBookkeeping(section: Node)
    requires section.Valid()
    modifies section
    ensures section.Valid() && section.repr == old(section.repr)
    ensures section.tree == StripSection(old(section.tree))
  {
    for i := 0 to |BOOKKEEPING_KEYS|
      invariant section.Valid() && section.repr == old(section.repr)
      invariant section.tree == Obj(old(section.tree).fields - (set k | k in BOOKKEEPING_KEYS[..i]))
    {
      section.Delete(BOOKKEEPING_KEYS[i]);
      assert BOOKKEEPING_KEYS[..i + 1] == BOOKKEEPING_KEYS[..i] + [BOOKKEEPING_KEYS[i]];
    }
    assert BOOKKEEPING_KEYS[..|BOOKKEEPING_KEYS|] == BOOKKEEPING_KEYS;
  }

  /** Strip the section under `s`, if it is an object. */
  method StripSectionAt(sections: Node, s: string)
    requires sections.Valid() && s in sections.m
    modifies sections.repr
    ensures sections.Valid() && sections.repr == old(sections.repr)
    ensures sections.tree == Obj(old(sections.tree).fields[s := StripSection(old(sections.tree).fields[s])])
  {
    assert sections.Agrees(s);
    if sections.m[s].Child? {
      StripBelow(sections, s, sections.m[s].node);
    }
  }

  method StripBelow(sections: Node, s: string, section: Node)
    requires sections.Valid() && s in sections.m && sections.m[s] == Child(section)
    modifies sections.repr
    ensures sections.Valid() && sections.repr == old(sections.repr)
    ensures sections.tree == Obj(old(sections.tree).fields[s := StripSection(old(sections.tree).fields[s])])
  {
    sections.Siblings(s);
    DeleteBookkeeping(section);
    sections.Refresh(s);
  }

  /** The fields when the sections in `done` have been stripped. */
  function StrippedOn(fields: map<string, Json>, done: set<string>): map<string, Json> {
    map s | s in fields :: if s in done then StripSection(fields[s]) else fields[s]
  }

  lemma StripOne(fields: map<string, Json>, done: set<string>, s: string)
    requires s in fields && s !in done
    ensures StrippedOn(fields, done)[s] == fields[s]
    ensures StrippedOn(fields, done + {s}) == StrippedOn(fields, done)[s := StripSection(fields[s])]
  {
  }

  lemma StripEach(fields: map<string, Json>)
    ensures StrippedOn(fields, {}) == fields
    ensures Obj(StrippedOn(fields, fields.Keys)) == StripSections(Obj(fields))
  {
    assert StrippedOn(fields, fields.Keys) == StripSections(Obj(fields)).fields;
  }

  method StripEachSection(sections: Node)
    requires sections.Valid()
    modifies sections.repr
    ensures sections.Valid() && sections.repr == old(sections.repr)
    ensures sections.tree == StripSections(old(sections.tree))
  {
    ghost var before := sections.tree.fields;
    StripEach(before);
    var todo := sections.m.Keys;
    ghost var done := {};
    while todo != {}
      invariant sections.Valid() && sections.repr == old(sections.repr)
      invariant done !! todo && done + todo == before.Keys
      invariant sections.tree == Obj(StrippedOn(before, done))
      decreases todo
    {
      var s :| s in todo;
      todo := todo - {s};
      StripOne(before, done, s);
      StripSectionAt(sections, s);
      done := done + {s};
    }
  }

  /** One entry of GET /all: nothing happens unless it has an object under "underwriting". */
  method StripEntryInPlace(entry: Node)
    requires entry.Valid()
    modifies entry.repr
    ensures entry.Valid() && entry.repr == old(entry.repr)
    ensures entry.tree == StripEntry(old(entry.tree))
  {
    if UNDERWRITING in entry.m {
      assert entry.Agrees(UNDERWRITING);
      match entry.m[UNDERWRITING]
      case Leaf(_) =>
      case Child(sections) =>
        entry.Siblings(UNDERWRITING);
        StripEachSection(sections);
        entry.Refresh(UNDERWRITING);
    }
  }

  /** The list as JSON decoding yields it: null or an object each, nothing shared, all of it in `world`. */
  ghost predicate Separate(entries: seq<Node?>, world: set<Node>)
    reads world
  {
    && (forall i :: 0 <= i < |entries| && entries[i] != null ==>
          entries[i] in world && entries[i].repr <= world && entries[i].Valid())
    && (forall i, j ::
          0 <= i < |entries| && 0 <= j < |entries| && i != j && entries[i] != null && entries[j] != null ==>
          entries[i].repr !! entries[j].repr)
  }

  /** GetAllUnderwriting's loop over the decoded entries. */
  method StripAll(entries: seq<Node?>, ghost world: set<Node>)
    requires Separate(entries, world)
    modifies world
    ensures Separate(entries, world)
    ensures forall i :: 0 <= i < |entries| && entries[i] != null ==> entries[i].tree == StripEntry(old(entries[i].tree))
  {
    for n := 0 to |entries|
      invariant Separate(entries, world)
      invariant forall i :: 0 <= i < n && entries[i] != null ==> entries[i].tree == StripEntry(old(entries[i].tree))
      invariant forall i :: n <= i < |entries| && entries[i] != null ==> entries[i].tree == old(entries[i].tree)
    {
      if entries[n] != null {
        StripNth(entries, n, world);
      }
    }
  }

  method StripNth(entries: seq<Node?>, n: nat, ghost world: set<Node>)
    requires Separate(entries, world) && n < |entries| && entries[n] != null
    modifies world
    ensures Separate(entries, world)
    ensures entries[n].tree == StripEntry(old(entries[n].tree))
    ensures forall i :: 0 <= i < |entries| && i != n && entries[i] != null ==> entries[i].tree == old(entries[i].tree)
  {
    assert forall i :: 0 <= i < |entries| && i != n && entries[i] != null ==>
      entries[i] in entries[i].repr && entries[i].repr !! entries[n].repr;
    StripEntryInPlace(entries[n]);
  }

  // ----- decoding -----

  /** Decode an object into fresh maps, one for each object in it. */
  method Load(json: Json) returns (n: Node)
    requires json.Obj?
    ensures n.Valid() && fresh(n.repr) && n.tree == json
    decreases json
  {
    n := new Node();
    var todo := json.fields.Keys;
    while todo != {}
      invariant n.Valid() && fresh(n.repr)
      invariant todo <= json.fields.Keys
      invariant n.tree == Obj(json.fields - todo)
      decreases todo
    {
      var k :| k in todo;
      if json.fields[k].Obj? {
        var child := Load(json.fields[k]);
        n.SetChild(k, child);
      } else {
        n.SetLeaf(k, json.fields[k]);
      }
      assert (json.fields - todo)[k := json.fields[k]] == json.fields - (todo - {k});
      todo := todo - {k};
    }
    assert json.fields - {} == json.fields;
  }
}
