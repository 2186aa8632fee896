/** Places in a topic tree: a node is named by the levels that lead to it. */
module TriePlaces {
  import opened TopicLevels

  /** A place in the trie. */
  datatype Path = Root | Kid(up: Path, name: string)

  function Names(p: Path): seq<string> {
    match p
    case Root => []
    case Kid(up, name) => Names(up) + [name]
  }

  /** The place reached from another by following names. */
  function Descend(p: Path, names: seq<string>): Path
    decreases |names|
  {
    if names == [] then p else Descend(Kid(p, names[0]), names[1..])
  }

  lemma {:induction false} NamesDescend(p: Path, names: seq<string>)
    ensures Names(Descend(p, names)) == Names(p) + names
    decreases |names|
  {
    if names != [] {
      NamesDescend(Kid(p, names[0]), names[1..]);
      assert Names(p) + names == (Names(p) + [names[0]]) + names[1..];
    }
  }

  lemma {:induction false} DescendKid(p: Path, names: seq<string>, k: string)
    ensures Descend(p, names + [k]) == Kid(Descend(p, names), k)
    decreases |names|
  {
    if names == [] {
      assert [k][1..] == [];
    } else {
      DescendKid(Kid(p, names[0]), names[1..], k);
      assert (names + [k])[1..] == names[1..] + [k];
    }
  }

  /** The names from one place down to another, if the second hangs below the first. */
  function Below(path: Path, p: Path): Option<seq<string>> {
    if p == path then Some([])
    else if p.Root? then None
    else
      match Below(path, p.up)
      case None => None
      case Some(names) => Some(names + [p.name])
  }

  lemma {:induction false} BelowRoot(p: Path)
    ensures Below(Root, p) == Some(Names(p))
  {
    if p.Kid? {
      BelowRoot(p.up);
    }
  }

  lemma {:induction false} BelowDescend(path: Path, p: Path)
    requires Below(path, p).Some?
    ensures p == Descend(path, Below(path, p).value)
    ensures Names(p) == Names(path) + Below(path, p).value
  {
    if p != path {
      BelowDescend(path, p.up);
      DescendKid(path, Below(path, p.up).value, p.name);
    }
    NamesDescend(path, Below(path, p).value);
  }

  /** Below a child is below the node, one name further. */
  lemma {:induction false} BelowChild(path: Path, k: string, p: Path)
    ensures Below(Kid(path, k), p).Some? ==> Below(path, p) == Some([k] + Below(Kid(path, k), p).value)
    ensures Below(path, p).Some? && Below(path, p).value != [] && Below(path, p).value[0] == k ==>
      Below(Kid(path, k), p) == Some(Below(path, p).value[1..])
  {
    if p == Kid(path, k) {
      BelowUp(path, k);
      assert [k] + [] == [k];
    } else if p != path && p.Kid? {
      BelowChild(path, k, p.up);
      if Below(Kid(path, k), p).Some? {
        var names := Below(Kid(path, k), p.up).value;
        assert [k] + (names + [p.name]) == ([k] + names) + [p.name];
      }
      if Below(path, p).Some? && Below(path, p).value[0] == k {
        var names := Below(path, p.up).value;
        if names != [] {
          assert (names + [p.name])[1..] == names[1..] + [p.name];
        } else {
          BelowDescend(path, p.up);
        }
      }
    } else if p == path {
      NotBelowSelf(path, k);
    }
  }

  lemma BelowUp(path: Path, k: string)
    ensures Below(path, Kid(path, k)) == Some([k])
  {
    assert Below(path, path) == Some([]);
    assert [] + [k] == [k];
  }

  lemma NotBelowSelf(path: Path, k: string)
    ensures Below(Kid(path, k), path).None?
  {
    if Below(Kid(path, k), path).Some? {
      BelowDescend(Kid(path, k), path);
    }
  }

  lemma {:induction false} DescendBelow(p: Path, names: seq<string>)
    ensures Below(p, Descend(p, names)) == Some(names)
    decreases |names|
  {
    if names != [] {
      DescendBelow(Kid(p, names[0]), names[1..]);
      BelowChild(p, names[0], Descend(p, names));
      assert [names[0]] + names[1..] == names;
    }
  }

  lemma {:induction false} BelowTransitive(p: Path, q: Path, r: Path)
    requires Below(p, q).Some? && Below(q, r).Some?
    ensures Below(p, r) == Some(Below(p, q).value + Below(q, r).value)
    decreases r
  {
    if r == q {
      assert Below(p, q).value + [] == Below(p, q).value;
    } else {
      BelowTransitive(p, q, r.up);
      NotAbove(p, q, r);
      var a, b := Below(p, q).value, Below(q, r.up).value;
      assert a + (b + [r.name]) == (a + b) + [r.name];
    }
  }

  /** Strictly below q, and q below p: not p itself. */
  lemma NotAbove(p: Path, q: Path, r: Path)
    requires Below(p, q).Some? && Below(q, r).Some? && r != q
    ensures r != p
  {
    BelowDescend(p, q);
    BelowDescend(q, r);
    assert |Below(q, r).value| > 0;
  }

  /** With every place, the one above it. */
  ghost predicate Closed(nodes: set<Path>) {
    forall p, k | Kid(p, k) in nodes :: p in nodes
  }

  /** Every node hangs below all the places on its way. */
  lemma {:induction false} ReachedFromNode(nodes: set<Path>, p: Path, names: seq<string>)
    requires Closed(nodes) && Descend(p, names) in nodes
    ensures p in nodes
    decreases |names|
  {
    if names != [] {
      var init, k := names[..|names| - 1], names[|names| - 1];
      assert names == init + [k];
      DescendKid(p, init, k);
      ReachedFromNode(nodes, p, init);
    }
  }
}
