/** The broker's tree of retained messages: what storing, clearing and looking up do to the
    map from topics to messages that the tree stands for. */
module RetainedTree {
  import opened TopicLevels
  import opened TriePlaces

  datatype Message = Message(topic: string, payload: string)

  /** The tree: every place that has a node, and the message kept there, if any. */
  type Tree = map<Path, Option<Message>>

  ghost predicate TreeOk(v: Tree) {
    Root in v && Closed(v.Keys)
  }

  /** The message kept at a place, if any. */
  function Kept(v: Tree, p: Path): Option<Message> {
    if p in v then v[p] else None
  }

  ghost predicate Childless(v: Tree, p: Path) {
    forall k :: Kid(p, k) !in v
  }

  function Place(topic: string): Path
    requires Levels(topic).Some?
  {
    Descend(Root, Levels(topic).value)
  }

  ghost function Insert(v: Tree, path: Path, topic: string, m: Message): Tree
    requires path in v
    decreases |topic|
  {
    if topic == "" then v[path := Some(m)]
    else
      match NextLevel(topic)
      case Malformed => v
      case Level(level, rest) =>
        var child := Kid(path, level);
        Insert(if child in v then v else v[child := None], child, rest, m)
  }

  /** Clearing; None is the error. A node left without children goes, whether or not it
      keeps a message of its own. */
  ghost function Clear(v: Tree, path: Path, topic: string): Option<Tree>
    requires path in v
    decreases |topic|
  {
    if topic == "" then Some(v[path := None])
    else
      match NextLevel(topic)
      case Malformed => None
      case Level(level, rest) =>
        if Kid(path, level) !in v then None
        else
          match Clear(v, Kid(path, level), rest)
          case None => None
          case Some(w) => Some(Prune(w, Kid(path, level)))
  }

  ghost function Prune(v: Tree, p: Path): Tree {
    if Childless(v, p) then v - {p} else v
  }

  // ---------- storing ----------

  /** Storing sets the named topic and touches no other message. */
  lemma {:induction false} InsertExact(v: Tree, path: Path, topic: string, m: Message)
    requires TreeOk(v) && path in v
    ensures var w := Insert(v, path, topic, m);
            && TreeOk(w) && v.Keys <= w.Keys
            && forall p :: Kept(w, p) ==
                  if Levels(topic).Some? && p == Descend(path, Levels(topic).value) then Some(m) else Kept(v, p)
    decreases |topic|
  {
    if topic != "" && NextLevel(topic).Level? {
      var next := NextLevel(topic);
      var child := Kid(path, next.level);
      InsertExact(if child in v then v else v[child := None], child, next.rest, m);
      if Levels(topic).Some? {
        assert Levels(topic).value[0] == next.level && Levels(topic).value[1..] == Levels(next.rest).value;
      }
    }
  }

  /** New nodes appear only on the way to the topic, as far as its levels are well formed. */
  lemma {:induction false} InsertGrowsOnTheWay(v: Tree, path: Path, topic: string, m: Message, p: Path)
    requires TreeOk(v) && path in v && p in Insert(v, path, topic, m) && p !in v
    ensures Below(path, p).Some? && Below(p, Descend(path, GoodLevels(topic))).Some?
    decreases |topic|
  {
    if topic != "" && NextLevel(topic).Level? {
      var next := NextLevel(topic);
      var child := Kid(path, next.level);
      var names := GoodLevels(topic);
      assert names[0] == next.level && names[1..] == GoodLevels(next.rest);
      if p == child {
        DescendBelow(child, names[1..]);
      } else {
        InsertGrowsOnTheWay(if child in v then v else v[child := None], child, next.rest, m, p);
      }
      BelowChild(path, next.level, p);
    }
  }

  // ---------- clearing ----------

  /** Clearing the topic at `t` from `path` takes away node d: it lies strictly below the
      start, on the way to t, and nothing else hangs below it. */
  ghost predicate Doomed(v: Tree, path: Path, t: Path, d: Path) {
    && d in v && d != path && Below(path, d).Some? && Below(d, t).Some?
    && forall r | r in v && Below(d, r).Some? :: Below(r, t).Some?
  }

  /** A node loses all its children exactly when everything below it leads to the topic. */
  lemma ChildlessAfter(v: Tree, child: Path, t: Path, w: Tree)
    requires TreeOk(v) && child in v && Below(child, t).Some?
    requires forall d :: d in w <==> d in v && !Doomed(v, child, t, d)
    ensures Childless(w, child) <==> forall r | r in v && Below(child, r).Some? :: Below(r, t).Some?
  {
    if Childless(w, child) {
      forall r | r in v && Below(child, r).Some?
        ensures Below(r, t).Some?
      {
        var names := Below(child, r).value;
        BelowDescend(child, r);
        if names != [] {
          var kid := Kid(child, names[0]);
          ReachedFromNode(v.Keys, kid, names[1..]);
          BelowChild(child, names[0], r);
          assert Doomed(v, child, t, kid);
        }
      }
    }
    if forall r | r in v && Below(child, r).Some? :: Below(r, t).Some? {
      forall k
        ensures Kid(child, k) !in w
      {
        var kid := Kid(child, k);
        BelowUp(child, k);
        forall r | r in v && Below(kid, r).Some?
          ensures Below(r, t).Some?
        {
          BelowChild(child, k, r);
        }
        assert kid in v ==> Doomed(v, child, t, kid);
      }
    }
  }

  /** From a child to its parent: the same nodes go, and the child too once nothing else
      hangs below it. */
  lemma DoomedStep(v: Tree, path: Path, level: string, t: Path, d: Path)
    requires Kid(path, level) in v && Below(Kid(path, level), t).Some?
    ensures Doomed(v, path, t, d) <==>
            || Doomed(v, Kid(path, level), t, d)
            || (d == Kid(path, level) && forall r | r in v && Below(d, r).Some? :: Below(r, t).Some?)
  {
    var child := Kid(path, level);
    BelowUp(path, level);
    BelowChild(path, level, t);
    BelowChild(path, level, d);
    NotBelowSelf(path, level);
    if Doomed(v, path, t, d) {
      BelowDescend(path, d);
      BelowTransitive(path, d, t);
      var names := Below(path, d).value;
      assert names != [];
      assert (names + Below(d, t).value)[0] == names[0] == level;
      BelowDescend(child, d);
    }
  }

  /** What clearing does, exactly: it fails and changes nothing unless the topic has a node;
      otherwise the named message goes, together with the doomed nodes on the way to it, and
      every other node keeps its message. */
  lemma {:induction false} ClearExact(v: Tree, path: Path, topic: string)
    requires TreeOk(v) && path in v
    ensures Clear(v, path, topic).Some? <==> Levels(topic).Some? && Descend(path, Levels(topic).value) in v
    ensures Clear(v, path, topic).Some? ==>
      var w, t := Clear(v, path, topic).value, Descend(path, Levels(topic).value);
      && (forall d :: d in w <==> d in v && !Doomed(v, path, t, d))
      && (forall p | p in w :: w[p] == if p == t then None else v[p])
    decreases |topic|
  {
    if topic == "" {
      forall d
        ensures !Doomed(v, path, path, d)
      {
        if Below(path, d).Some? && Below(d, path).Some? {
          BelowDescend(path, d);
          BelowDescend(d, path);
        }
      }
    } else if NextLevel(topic).Level? {
      var next := NextLevel(topic);
      var child := Kid(path, next.level);
      if Levels(topic).Some? {
        var names := Levels(topic).value;
        assert names[0] == next.level && names[1..] == Levels(next.rest).value;
        DescendBelow(child, names[1..]);
        if Descend(path, names) in v {
          ReachedFromNode(v.Keys, child, names[1..]);
        }
        if child in v {
          ClearExact(v, child, next.rest);
          var t := Descend(path, names);
          if t in v {
            ChildlessAfter(v, child, t, Clear(v, child, next.rest).value);
            forall d {
              DoomedStep(v, path, next.level, t, d);
            }
          }
        }
      } else if child in v {
        ClearExact(v, child, next.rest);
      }
    }
  }

  lemma {:induction false} ClearOk(v: Tree, path: Path, topic: string)
    requires TreeOk(v) && path in v && Clear(v, path, topic).Some?
    ensures TreeOk(Clear(v, path, topic).value)
    decreases |topic|
  {
    if topic != "" {
      ClearOk(v, Kid(path, NextLevel(topic).level), NextLevel(topic).rest);
    }
  }

  /** A clear leaves every other message alone if and only if no kept message sits on a
      doomed node above the topic. */
  lemma ClearKeepsOthersIff(v: Tree, topic: string)
    requires TreeOk(v) && Levels(topic).Some? && Place(topic) in v
    ensures Clear(v, Root, topic).Some?
    ensures
      var w, t := Clear(v, Root, topic).value, Place(topic);
      (forall p | p != t :: Kept(w, p) == Kept(v, p)) <==>
      !exists d :: d != t && Doomed(v, Root, t, d) && Kept(v, d).Some?
  {
    ClearExact(v, Root, topic);
    var w, t := Clear(v, Root, topic).value, Place(topic);
    if d :| d != t && Doomed(v, Root, t, d) && Kept(v, d).Some? {
      assert Kept(w, d) != Kept(v, d);
    }
  }

  /** Whatever a clear takes away lies on the way to the cleared topic; in particular the
      root and everything off the path stay. */
  lemma ClearStaysOnThePath(v: Tree, topic: string, p: Path)
    requires TreeOk(v) && Levels(topic).Some? && Clear(v, Root, topic).Some?
    requires p == Root || Below(p, Place(topic)).None?
    requires p != Place(topic)
    ensures Kept(Clear(v, Root, topic).value, p) == Kept(v, p)
  {
    ClearExact(v, Root, topic);
  }

  /** The ancestor case is real: with messages on "a" and "a/b", clearing "a/b" also loses
      the message on "a". */
  lemma ClearLosesAncestor(m: Message, n: Message)
    ensures
      var a := Kid(Root, "a");
      var v: Tree := map[Root := None, a := Some(m), Kid(a, "b") := Some(n)];
      && Clear(v, Root, "a/b") == Some(map[Root := None])
      && Kept(v, a) == Some(m) && Kept(map[Root := None], a) == None
  {
    var a := Kid(Root, "a");
    var b := Kid(a, "b");
    var v: Tree := map[Root := None, a := Some(m), b := Some(n)];
    SepIndexUnique("a/b", 1);
    SepIndexUnique("b", 1);
    assert "a/b"[..1] == "a" && "a/b"[2..] == "b" && "b"[..1] == "b";
    assert NextLevel("a/b") == Level("a", "b") && NextLevel("b") == Level("b", "");
    assert Clear(v, b, "") == Some(v[b := None]);
    assert Prune(v[b := None], b) == map[Root := None, a := Some(m)];
    assert Clear(v, a, "b") == Some(map[Root := None, a := Some(m)]);
    assert Prune(map[Root := None, a := Some(m)], a) == map[Root := None];
  }

  // ---------- looking up ----------

  /** A list of kept messages and the places they come from, each place once. */
  ghost predicate Listed(v: Tree, path: Path, hits: seq<Path>, msgs: seq<Message>) {
    && |hits| == |msgs|
    && (forall i, j | 0 <= i < j < |hits| :: hits[i] != hits[j])
    && (forall i | 0 <= i < |hits| :: Kept(v, hits[i]) == Some(msgs[i]) && Below(path, hits[i]).Some?)
  }

  /** Exactly the kept messages below a place whose names the filter matches. */
  ghost predicate Exactly(v: Tree, path: Path, filter: seq<string>, hits: seq<Path>) {
    forall p :: p in hits <==> Kept(v, p).Some? && Below(path, p).Some? && Match(filter, Below(path, p).value)
  }

  /** The same, restricted to the given first names below the place. */
  ghost predicate ExactlyUnder(v: Tree, path: Path, filter: seq<string>, hits: seq<Path>, done: set<string>) {
    forall p :: p in hits <==>
      && Kept(v, p).Some? && Below(path, p).Some? && Match(filter, Below(path, p).value)
      && Below(path, p).value != [] && Below(path, p).value[0] in done
  }

  lemma JoinLists(v: Tree, path: Path, hits: seq<Path>, msgs: seq<Message>, h: seq<Path>, m: seq<Message>)
    requires Listed(v, path, hits, msgs) && Listed(v, path, h, m)
    requires forall p | p in hits :: p !in h
    ensures Listed(v, path, hits + h, msgs + m)
  {
    assert forall i, j | 0 <= i < |hits| && 0 <= j < |h| :: hits[i] in hits && h[j] in h;
  }

  lemma JoinExactly(v: Tree, path: Path, filter: seq<string>, hits: seq<Path>, done: set<string>, h: seq<Path>, k: string)
    requires ExactlyUnder(v, path, filter, hits, done) && ExactlyUnder(v, path, filter, h, {k}) && k !in done
    ensures ExactlyUnder(v, path, filter, hits + h, done + {k})
    ensures forall p | p in hits :: p !in h
  {
    assert forall p :: p in hits + h <==> p in hits || p in h;
  }

  /** A lookup below a child is a lookup below the node under that one name. */
  lemma FromChild(v: Tree, path: Path, k: string, filter: seq<string>, rest: seq<string>, h: seq<Path>, m: seq<Message>)
    requires Listed(v, Kid(path, k), h, m) && Exactly(v, Kid(path, k), rest, h)
    requires forall names :: Match(filter, [k] + names) <==> Match(rest, names)
    ensures Listed(v, path, h, m) && ExactlyUnder(v, path, filter, h, {k})
  {
    forall p
      ensures Below(Kid(path, k), p).Some? <==> Below(path, p).Some? && Below(path, p).value != [] && Below(path, p).value[0] == k
      ensures Below(Kid(path, k), p).Some? ==> Below(path, p).value == [k] + Below(Kid(path, k), p).value
    {
      BelowChild(path, k, p);
      if Below(path, p).Some? && Below(path, p).value != [] && Below(path, p).value[0] == k {
        assert Below(path, p).value == [k] + Below(path, p).value[1..];
      }
    }
  }

  /** Every child walked: nothing strictly below the node is left out. */
  lemma AllChildren(v: Tree, path: Path, filter: seq<string>, hits: seq<Path>, kids: set<string>)
    requires TreeOk(v) && ExactlyUnder(v, path, filter, hits, kids)
    requires forall k :: k in kids <==> Kid(path, k) in v
    ensures forall p :: p in hits <==>
              Kept(v, p).Some? && Below(path, p).Some? && Match(filter, Below(path, p).value) && p != path
  {
    forall p | Below(path, p).Some? && p in v
      ensures p == path || (Below(path, p).value != [] && Below(path, p).value[0] in kids)
      ensures Below(path, p).value != [] ==> p != path
    {
      BelowDescend(path, p);
      if p != path {
        ReachedFromNode(v.Keys, Kid(path, Below(path, p).value[0]), Below(path, p).value[1..]);
      }
    }
  }

  class RetainedIndex {
    var nodes: Tree

    constructor ()
      ensures nodes == map[Root := None]
    {
      nodes := map[Root := None];
    }

    method Children(path: Path) returns (kids: set<string>)
      ensures forall k :: k in kids <==> Kid(path, k) in nodes
    {
      kids := set p | p in nodes && p.Kid? && p.up == path :: p.name;
      assert forall k | Kid(path, k) in nodes :: Kid(path, k).name in kids;
    }

    method RInsertOrUpdate(path: Path, topic: string, m: Message) returns (ok: bool)
      requires path in nodes
      modifies this
      ensures nodes == Insert(old(nodes), path, topic, m)
      ensures ok <==> Levels(topic).Some?
      decreases |topic|
    {
      if topic == "" {
        nodes := nodes[path := Some(m)];
        return true;
      }
      var next := NextTopicLevel(topic);
      if next == Malformed {
        return false;
      }
      var child := Kid(path, next.level);
      if child !in nodes {
        nodes := nodes[child := None];
      }
      ok := RInsertOrUpdate(child, next.rest, m);
    }

    method RRemove(path: Path, topic: string) returns (ok: bool)
      requires path in nodes
      modifies this
      ensures match Clear(old(nodes), path, topic)
              case None => !ok && nodes == old(nodes)
              case Some(w) => ok && nodes == w
      decreases |topic|
    {
      if topic == "" {
        nodes := nodes[path := None];
        return true;
      }
      var next := NextTopicLevel(topic);
      if next == Malformed {
        return false;
      }
      var child := Kid(path, next.level);
      if child !in nodes {
        return false;
      }
      ok := RRemove(child, next.rest);
      if !ok {
        return;
      }
      var kids := Children(child);
      if kids == {} {
        nodes := nodes - {child};
      }
    }

    /** Storing, or clearing when the payload is empty. */
    method Retain(m: Message) returns (ok: bool)
      requires TreeOk(nodes)
      modifies this
      ensures TreeOk(nodes)
      ensures m.payload != "" ==> nodes == Insert(old(nodes), Root, m.topic, m) && (ok <==> Levels(m.topic).Some?)
      ensures m.payload == "" ==>
        match Clear(old(nodes), Root, m.topic)
        case None => !ok && nodes == old(nodes)
        case Some(w) => ok && nodes == w
    {
      if m.payload == "" {
        if Clear(nodes, Root, m.topic).Some? {
          ClearOk(nodes, Root, m.topic);
        }
        ok := RRemove(Root, m.topic);
      } else {
        InsertExact(nodes, Root, m.topic, m);
        ok := RInsertOrUpdate(Root, m.topic, m);
      }
    }

    ghost function Under(path: Path): set<Path>
      reads this
    {
      set p | p in nodes && Below(path, p).Some?
    }

    /** Every message from a node down, children in any order. */
    method AllRetained(path: Path) returns (msgs: seq<Message>, ghost hits: seq<Path>)
      requires TreeOk(nodes) && path in nodes
      ensures Listed(nodes, path, hits, msgs) && Exactly(nodes, path, [MWC], hits)
      decreases Under(path)
    {
      var kids := Children(path);
      var todo := kids;
      var below: seq<Message> := [];
      ghost var found: seq<Path> := [];
      while todo != {}
        invariant todo <= kids
        invariant Listed(nodes, path, found, below)
        invariant ExactlyUnder(nodes, path, [MWC], found, kids - todo)
      {
        var k :| k in todo;
        ghost var done := kids - todo;
        todo := todo - {k};
        assert kids - todo == done + {k};
        UnderShrinks(path, k);
        var m;
        ghost var h;
        m, h := AllRetained(Kid(path, k));
        FromChild(nodes, path, k, [MWC], [MWC], h, m);
        JoinExactly(nodes, path, [MWC], found, done, h, k);
        JoinLists(nodes, path, found, below, h, m);
        below, found := below + m, found + h;
      }
      assert kids - todo == kids;
      AllChildren(nodes, path, [MWC], found, kids);
      msgs, hits := AddOwn(path, below, found);
    }

    lemma UnderShrinks(path: Path, k: string)
      requires path in nodes
      ensures Under(Kid(path, k)) < Under(path)
    {
      forall p | p in Under(Kid(path, k))
        ensures p in Under(path)
      {
        BelowChild(path, k, p);
      }
      NotBelowSelf(path, k);
      assert path in Under(path);
    }

    /** The node's own message, if any, comes before those below it. */
    method AddOwn(path: Path, below: seq<Message>, ghost found: seq<Path>) returns (msgs: seq<Message>, ghost hits: seq<Path>)
      requires path in nodes && Listed(nodes, path, found, below)
      requires forall p :: p in found <==>
                 Kept(nodes, p).Some? && Below(path, p).Some? && Match([MWC], Below(path, p).value) && p != path
      ensures Listed(nodes, path, hits, msgs) && Exactly(nodes, path, [MWC], hits)
    {
      msgs, hits := below, found;
      if nodes[path].Some? {
        msgs, hits := [nodes[path].value] + below, [path] + found;
      }
    }

    /** The lookup for a filter: exactly the kept messages whose topic it matches. */
    method RMatch(path: Path, topic: string) returns (ok: bool, msgs: seq<Message>, ghost hits: seq<Path>)
      requires TreeOk(nodes) && path in nodes
      ensures Listed(nodes, path, hits, msgs)
      ensures Levels(topic).None? ==> msgs == []
      ensures Levels(topic).Some? ==> ok && Exactly(nodes, path, Levels(topic).value, hits)
      decreases |topic|, 1
    {
      if topic == "" {
        msgs, hits := [], [];
        if nodes[path].Some? {
          msgs, hits := [nodes[path].value], [path];
        }
        OwnOnly(path);
        return true, msgs, hits;
      }
      var next := NextTopicLevel(topic);
      if next == Malformed {
        return false, [], [];
      }
      ghost var filter := GoodLevels(topic);
      if Levels(topic).Some? {
        GoodLevelsComplete(topic);
      }
      if next.level == MWC {
        msgs, hits := AllRetained(path);
        HashMatchesAll(filter);
        HashMatchesAll([MWC]);
        return true, msgs, hits;
      }
      var kids := Children(path);
      if next.level != SWC {
        kids := kids * {next.level};
      }
      ok, msgs, hits := MatchChildren(path, topic, next.level, next.rest, kids);
      if Levels(topic).Some? {
        ChosenChildren(nodes, path, filter, hits, kids);
      }
    }

    /** The children the next level leads to, in any order. */
    method MatchChildren(path: Path, ghost topic: string, level: string, rest: string, kids: set<string>)
      returns (ok: bool, msgs: seq<Message>, ghost hits: seq<Path>)
      requires TreeOk(nodes) && path in nodes && topic != "" && NextLevel(topic) == Level(level, rest) && level != MWC
      requires forall k | k in kids :: Kid(path, k) in nodes && (level == SWC || k == level)
      ensures Listed(nodes, path, hits, msgs)
      ensures Levels(topic).None? ==> msgs == []
      ensures Levels(topic).Some? ==> ok && ExactlyUnder(nodes, path, GoodLevels(topic), hits, kids)
      decreases |topic|, 0
    {
      ghost var filter := GoodLevels(topic);
      var todo := kids;
      ok, msgs, hits := true, [], [];
      while todo != {}
        invariant todo <= kids && ok
        invariant Listed(nodes, path, hits, msgs)
        invariant Levels(topic).None? ==> msgs == []
        invariant Levels(topic).Some? ==> ExactlyUnder(nodes, path, filter, hits, kids - todo)
      {
        var k :| k in todo;
        ghost var done := kids - todo;
        todo := todo - {k};
        assert kids - todo == done + {k};
        var m;
        ghost var h;
        ok, m, h := RMatch(Kid(path, k), rest);
        if Levels(topic).Some? {
          GoodLevelsComplete(topic);
          StepMatches(filter, Levels(rest).value, k);
          FromChild(nodes, path, k, filter, Levels(rest).value, h, m);
          JoinExactly(nodes, path, filter, hits, done, h, k);
          JoinLists(nodes, path, hits, msgs, h, m);
        }
        msgs, hits := msgs + m, hits + h;
        if !ok {
          return;
        }
      }
      assert kids - todo == kids;
    }

    lemma OwnOnly(path: Path)
      ensures forall p :: Below(path, p).Some? && Match([], Below(path, p).value) <==> p == path
    {
      forall p | Below(path, p).Some? && Match([], Below(path, p).value)
        ensures p == path
      {
        BelowDescend(path, p);
      }
    }

    method Retained(topic: string) returns (ok: bool, msgs: seq<Message>, ghost hits: seq<Path>)
      requires TreeOk(nodes)
      ensures Listed(nodes, Root, hits, msgs)
      ensures Levels(topic).None? ==> msgs == []
      ensures Levels(topic).Some? ==>
        ok && forall p :: p in hits <==> Kept(nodes, p).Some? && Match(Levels(topic).value, Names(p))
    {
      ok, msgs, hits := RMatch(Root, topic);
      forall p: Path
        ensures Below(Root, p) == Some(Names(p))
      {
        BelowRoot(p);
      }
    }
  }

  lemma HashMatchesAll(filter: seq<string>)
    requires filter != [] && filter[0] == MWC
    ensures forall names :: Match(filter, names)
  {
  }

  lemma StepMatches(filter: seq<string>, rest: seq<string>, k: string)
    requires filter != [] && filter[1..] == rest && filter[0] != MWC && (filter[0] == SWC || filter[0] == k)
    ensures forall names :: Match(filter, [k] + names) <==> Match(rest, names)
  {
    assert forall names: seq<string> :: ([k] + names)[1..] == names;
  }

  /** The children a level leads to are the only ones where anything can match. */
  lemma ChosenChildren(v: Tree, path: Path, filter: seq<string>, hits: seq<Path>, kids: set<string>)
    requires TreeOk(v) && filter != [] && filter[0] != MWC
    requires forall k :: k in kids <==> Kid(path, k) in v && (filter[0] == SWC || k == filter[0])
    requires ExactlyUnder(v, path, filter, hits, kids)
    ensures Exactly(v, path, filter, hits)
  {
    forall p | Kept(v, p).Some? && Below(path, p).Some? && Match(filter, Below(path, p).value)
      ensures Below(path, p).value != [] && Below(path, p).value[0] in kids
    {
      BelowDescend(path, p);
      ReachedFromNode(v.Keys, Kid(path, Below(path, p).value[0]), Below(path, p).value[1..]);
    }
  }
}
