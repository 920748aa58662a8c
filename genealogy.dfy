/** The dependency-inversion example: a low-level store of family relations and the one
    query (children by parent name) that the high-level research code is given. */
module Genealogy {

  datatype Relationship = Parent | Child | Sibling

  /** A person: a name and a date of birth (held as an abstract number of ticks). */
  datatype Person = Person(name: string, dateOfBirth: int)

  /** `(from, relation, to)`: `from` stands in `relation` to `to`. */
  datatype Relation = Relation(from: Person, kind: Relationship, to: Person)

  /** `r` is a `Parent` triple from someone named `name` to `c`. */
  predicate IsParentOf(r: Relation, name: string, c: Person) {
    r.from.name == name && r.kind == Parent && r.to == c
  }

  /** The `Where`/`Select` query: the third person of every `Parent` triple whose first
      person is named `name`, in insertion order. */
  function ChildrenOf(relations: seq<Relation>, name: string): (r: seq<Person>)
    ensures |r| <= |relations|
  {
    if relations == [] then []
    else
      var last := relations[|relations| - 1];
      ChildrenOf(relations[..|relations| - 1], name)
      + (if last.from.name == name && last.kind == Parent then [last.to] else [])
  }

  /** The query distributes over concatenation: results for earlier triples come first. */
  lemma {:induction false} ChildrenOfAppend(a: seq<Relation>, b: seq<Relation>, name: string)
    ensures ChildrenOf(a + b, name) == ChildrenOf(a, name) + ChildrenOf(b, name)
    decreases |b|
  {
    if b == [] {
      assert a + b == a;
    } else {
      var b' := b[..|b| - 1];
      assert (a + b)[..|a + b| - 1] == a + b';
      ChildrenOfAppend(a, b', name);
    }
  }

  /** A person is in the answer exactly when some `Parent` triple from someone named `name`
      leads to that person. */
  lemma {:induction false} ChildrenOfMembership(relations: seq<Relation>, name: string, c: Person)
    ensures c in ChildrenOf(relations, name) <==>
              exists i :: 0 <= i < |relations| && IsParentOf(relations[i], name, c)
  {
    if relations != [] {
      var init := relations[..|relations| - 1];
      ChildrenOfMembership(init, name, c);
      var n := |relations| - 1;
      if exists i :: 0 <= i < |relations| && IsParentOf(relations[i], name, c) {
        var i :| 0 <= i < |relations| && IsParentOf(relations[i], name, c);
        if i < n {
          assert init[i] == relations[i];
        }
      }
      if exists i :: 0 <= i < |init| && IsParentOf(init[i], name, c) {
        var i :| 0 <= i < |init| && IsParentOf(init[i], name, c);
        assert relations[i] == init[i];
      }
    }
  }

  lemma ChildrenOfExactly(relations: seq<Relation>, name: string)
    ensures forall c :: c in ChildrenOf(relations, name) <==>
              exists i :: 0 <= i < |relations| && IsParentOf(relations[i], name, c)
  {
    forall c {
      ChildrenOfMembership(relations, name, c);
    }
  }

  /** `Child` and `Sibling` triples never contribute to the answer. */
  lemma ChildTriplesIgnored(relations: seq<Relation>, r: Relation, name: string)
    requires r.kind != Parent
    ensures ChildrenOf(relations + [r], name) == ChildrenOf(relations, name)
  {
    assert (relations + [r])[..|relations|] == relations;
  }

  /** The two triples one parent/child pair adds. */
  function ParentAndChild(parent: Person, child: Person): seq<Relation> {
    [Relation(parent, Parent, child), Relation(child, Child, parent)]
  }

  /** Recording a pair adds the child to the answers for the parent's name, at the end, and
      changes the answers for every other name not at all. */
  lemma AddPairQuery(relations: seq<Relation>, parent: Person, child: Person, name: string)
    ensures ChildrenOf(relations + ParentAndChild(parent, child), name)
         == ChildrenOf(relations, name) + (if parent.name == name then [child] else [])
  {
    var pair := ParentAndChild(parent, child);
    ChildrenOfAppend(relations, pair, name);
    assert pair[..1] == [pair[0]] && [pair[0]][..0] == [];
    assert ChildrenOf([pair[0]], name) == (if parent.name == name then [child] else []);
    assert ChildrenOf(pair, name) == ChildrenOf([pair[0]], name);
  }

  class Relationships {
    var relations: seq<Relation>

    constructor ()
      ensures relations == []
    {
      relations := [];
    }

    /** `AddParentAndChild`: appends `(parent, Parent, child)` and then `(child, Child, parent)`,
        leaving the earlier triples as they were. */
    method AddParentAndChild(parent: Person, child: Person)
      modifies this
      ensures relations == old(relations) + ParentAndChild(parent, child)
    {
      relations := relations + [Relation(parent, Parent, child)];
      relations := relations + [Relation(child, Child, parent)];
    }

    /** `FindAllChildren(name)`: every person some `Parent` triple from a person named `name`
        leads to, and no one else. */
    function FindAllChildren(name: string): (r: seq<Person>)
      reads this
      ensures forall c :: c in r <==>
                exists i :: 0 <= i < |relations| && IsParentOf(relations[i], name, c)
    {
      ChildrenOfExactly(relations, name);
      ChildrenOf(relations, name)
    }
  }

  /** The demo: John with children Chris and Mary, in that order. */
  method JohnsChildren() returns (children: seq<Person>)
    ensures children == [Person("Chris", 0), Person("Mary", 0)]
  {
    var john, chris, mary := Person("John", 0), Person("Chris", 0), Person("Mary", 0);
    var store := new Relationships();
    store.AddParentAndChild(john, chris);
    AddPairQuery([], john, chris, "John");
    assert [] + ParentAndChild(john, chris) == ParentAndChild(john, chris);
    assert ChildrenOf([], "John") == [];
    store.AddParentAndChild(john, mary);
    AddPairQuery(ParentAndChild(john, chris), john, mary, "John");
    children := store.FindAllChildren("John");
  }
}
