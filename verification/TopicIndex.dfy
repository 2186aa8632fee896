/** The two halves of the topic index side by side: finding subscribers for a topic and
    finding retained messages for a filter are the same relation, although one walk follows
    the topic through a tree of filters and the other the filter through a tree of topics. */
module TopicIndex {
  import opened TopicLevels
  import opened TriePlaces
  import ST = SubscriptionTrie
  import RT = RetainedTree

  /** On any two trees that hold the filter and the topic, the subscription is found for the
      topic if and only if the message is found for the filter. */
  method LiveMeetsRetained(index: ST.SubscriptionIndex, retained: RT.RetainedIndex,
                           filter: string, topic: string, sub: ST.Subscription)
    returns (subs: seq<ST.Subscription>, msgs: seq<RT.Message>, ghost live: seq<ST.Entry>, ghost kept: seq<Path>)
    requires ST.ViewOk(index.nodes) && RT.TreeOk(retained.nodes)
    requires Levels(filter).Some? && Levels(topic).Some?
    requires ST.Live(index.nodes, ST.Entry(ST.Place(filter), sub)) && RT.Kept(retained.nodes, RT.Place(topic)).Some?
    ensures |live| == |subs| && |kept| == |msgs|
    ensures forall i | 0 <= i < |subs| :: subs[i] == live[i].sub
    ensures forall i | 0 <= i < |msgs| :: RT.Kept(retained.nodes, kept[i]) == Some(msgs[i])
    ensures ST.Entry(ST.Place(filter), sub) in live <==> RT.Place(topic) in kept
    ensures RT.Place(topic) in kept <==> Match(Levels(filter).value, Levels(topic).value)
    ensures OnlyThere(index.nodes, retained.nodes, filter, topic, sub) ==>
      (sub in subs <==> RT.Kept(retained.nodes, RT.Place(topic)).value in msgs)
  {
    var ok, qoss;
    ok, subs, qoss, live := index.Subscribers(topic, 0);
    ok, msgs, kept := retained.Retained(filter);
    NamesDescend(Root, Levels(filter).value);
    NamesDescend(Root, Levels(topic).value);
    assert [] + Levels(filter).value == Levels(filter).value;
    assert [] + Levels(topic).value == Levels(topic).value;
    FoundByPlace(index.nodes, live, subs, ST.Place(filter), sub);
    KeptByPlace(retained.nodes, kept, msgs, RT.Place(topic));
  }

  /** The subscriber is at no other filter, and the message at no other topic. */
  ghost predicate OnlyThere(v: ST.View, tree: RT.Tree, filter: string, topic: string, sub: ST.Subscription)
    requires Levels(filter).Some? && Levels(topic).Some?
  {
    && OneFilter(v, ST.Place(filter), sub)
    && OneTopic(tree, RT.Place(topic))
  }

  ghost predicate OneFilter(v: ST.View, at: Path, sub: ST.Subscription) {
    forall p | ST.Live(v, ST.Entry(p, sub)) :: p == at
  }

  ghost predicate OneTopic(tree: RT.Tree, at: Path) {
    forall p | RT.Kept(tree, p).Some? && RT.Kept(tree, p) == RT.Kept(tree, at) :: p == at
  }

  lemma FoundByPlace(v: ST.View, live: seq<ST.Entry>, subs: seq<ST.Subscription>, at: Path, sub: ST.Subscription)
    requires |live| == |subs| && forall i | 0 <= i < |subs| :: subs[i] == live[i].sub
    requires forall e | e in live :: ST.Live(v, e)
    ensures OneFilter(v, at, sub) ==> (sub in subs <==> ST.Entry(at, sub) in live)
  {
    if OneFilter(v, at, sub) && sub in subs {
      var i :| 0 <= i < |subs| && subs[i] == sub;
      assert live[i] in live && live[i] == ST.Entry(live[i].at, sub);
    }
  }

  lemma KeptByPlace(tree: RT.Tree, kept: seq<Path>, msgs: seq<RT.Message>, at: Path)
    requires RT.Kept(tree, at).Some? && |kept| == |msgs|
    requires forall i | 0 <= i < |msgs| :: RT.Kept(tree, kept[i]) == Some(msgs[i])
    ensures OneTopic(tree, at) ==> (RT.Kept(tree, at).value in msgs <==> at in kept)
  {
  }

  /** The trie against the flat list, over every sequence of calls: the subscribers of a
      topic are exactly the listed entries whose filter matches it, each once. */
  method SubscribersAfter(ops: seq<ST.Op>, topic: string, qos: nat)
    returns (subs: seq<ST.Subscription>, ghost hits: seq<ST.Entry>)
    requires Levels(topic).Some? && qos <= 2
    ensures |subs| == |hits| && ST.EachOnce(hits) && forall i | 0 <= i < |subs| :: subs[i] == hits[i].sub
    ensures forall e :: e in hits <==> e in ST.FlatRun(ops) && Match(Names(e.at), Levels(topic).value)
  {
    var index := new ST.SubscriptionIndex();
    for i := 0 to |ops|
      invariant index.nodes == ST.Run(ops[..i])
    {
      assert ops[..i + 1][..i] == ops[..i];
      match ops[i]
      case Sub(t, q, sub) =>
        var _, _ := index.Subscribe(t, q, sub);
      case Unsub(t, sub) =>
        var _ := index.Unsubscribe(t, sub);
    }
    assert ops[..|ops|] == ops;
    var ok, qoss;
    ok, subs, qoss, hits := index.Subscribers(topic, qos);
    ST.RunRefinesFlat(ops);
    LiveIsListed(index.nodes, ST.FlatRun(ops));
  }

  lemma LiveIsListed(v: ST.View, f: ST.Flat)
    requires ST.Agrees(v, f)
    ensures forall e :: ST.Live(v, e) <==> e in f
  {
    forall e: ST.Entry
      ensures ST.Live(v, e) <==> e in f
    {
      assert e == ST.Entry(e.at, e.sub);
      assert ST.Granted(v, e.at, e.sub).Some? <==> e in f;
    }
  }
}
