/** The broker's side of one client: its map of subscriptions, kept in step with the shared
    index by the packet handlers and by the clean-up on close. */
module BrokerClient {
  import opened TopicLevels
  import opened TriePlaces
  import opened SubscriptionTrie
  import RT = RetainedTree

  const QOS_FAILURE := 0x80

  /** The filter a subscribe topic stands for is one the index takes. */
  predicate Takes(topic: string, qos: nat) {
    ParseTarget(topic).Some? && qos <= 2 && Levels(ParseTarget(topic).value.filter).Some?
  }

  /** The client's subscriptions as its packets ask for them: each topic with its QoS. A
      subscribe replaces; one that the index refuses drops what the topic had, unless the
      topic's share prefix is malformed. */
  function Asked(m: map<string, nat>, topic: string, qos: nat): map<string, nat> {
    if ParseTarget(topic).None? then m
    else if Takes(topic, qos) then m[topic := qos]
    else m - {topic}
  }

  function AskedAll(m: map<string, nat>, topics: seq<string>, qoss: seq<nat>): map<string, nat>
    requires |qoss| == |topics|
  {
    if topics == [] then m
    else
      var n := |topics| - 1;
      Asked(AskedAll(m, topics[..n], qoss[..n]), topics[n], qoss[n])
  }

  lemma AskedStep(m: map<string, nat>, topics: seq<string>, qoss: seq<nat>, i: nat)
    requires i < |topics| == |qoss|
    ensures AskedAll(m, topics[..i + 1], qoss[..i + 1]) == Asked(AskedAll(m, topics[..i], qoss[..i]), topics[i], qoss[i])
  {
    assert topics[..i + 1][..i] == topics[..i] && qoss[..i + 1][..i] == qoss[..i];
  }

  ghost predicate Fits(topic: string, x: Subscription) {
    ParseTarget(topic) == Some(Target(x.share, x.group, x.topic)) && Takes(topic, x.qos)
  }

  /** The subscription is the one the topic asks for: behind "$share/" in its group, and
      otherwise on the topic itself, in none. */
  ghost predicate EntryFor(topic: string, x: Subscription) {
    && x.qos <= 2 && Levels(x.topic).Some?
    && (!HasPrefix(topic, "$share/") ==> !x.share && x.group == "" && x.topic == topic)
    && (HasPrefix(topic, "$share/") ==> x.share && SharesIn(topic, x.group, x.topic))
  }

  lemma FitsMeansEntry(topic: string, x: Subscription)
    ensures Fits(topic, x) <==> EntryFor(topic, x)
  {
    ParseTargetExact(topic);
    if HasPrefix(topic, "$share/") && ParseTarget(topic).Some? {
      ParsedShares(topic);
    }
  }

  /** Exactly which subscribe topics are taken: QoS at most 2, and a filter the splitter
      accepts, alone or behind a well-formed group. */
  lemma TakesExact(topic: string, qos: nat)
    ensures Takes(topic, qos) <==>
            && qos <= 2
            && if HasPrefix(topic, "$share/") then exists g, f :: SharesIn(topic, g, f) && Levels(f).Some?
               else Levels(topic).Some?
  {
    ParseTargetExact(topic);
    if Takes(topic, qos) && HasPrefix(topic, "$share/") {
      ParsedShares(topic);
    }
  }

  /** Every entry of the map is one the client made, for that topic. */
  ghost predicate OwnMap(id: nat, made: nat, m: map<string, Subscription>) {
    && (forall t | t in m :: m[t].client == id && m[t].ref < made && Fits(t, m[t]))
    && (forall t, u | t in m && u in m && t != u :: m[t] != m[u])
  }

  ghost function Topics(m: map<string, Subscription>): map<string, nat> {
    map t | t in m :: m[t].qos
  }

  /** The client's entries in the index are the given subscriptions, each once, at its
      filter's place and with its QoS. */
  ghost predicate Indexed(v: View, id: nat, xs: set<Subscription>)
    requires ViewOk(v)
  {
    && (forall x | x in xs :: Levels(x.topic).Some?)
    && forall p: Path, s: Subscription | s.client == id ::
         Granted(v, p, s) == if s in xs && p == Place(s.topic) then Some(s.qos) else None
  }

  /** Nothing of any other client differs between the two. */
  ghost predicate OthersSame(v: View, w: View, id: nat)
    requires ViewOk(v) && ViewOk(w)
  {
    forall p: Path, s: Subscription | s.client != id :: Granted(v, p, s) == Granted(w, p, s)
  }

  /** An entry taken out of the map: the values lose exactly that subscription. */
  lemma ValuesWithout(id: nat, made: nat, m: map<string, Subscription>, t: string)
    requires OwnMap(id, made, m) && t in m
    ensures (m - {t}).Values == m.Values - {m[t]} && OwnMap(id, made, m - {t})
  {
    var n := m - {t};
    forall y | y in m.Values && y != m[t]
      ensures y in n.Values
    {
      var u :| u in m && m[u] == y;
      assert n[u] == y;
    }
  }

  lemma ValuesWith(id: nat, made: nat, m: map<string, Subscription>, t: string, x: Subscription)
    requires OwnMap(id, made, m) && t !in m && x.client == id && x.ref == made && Fits(t, x)
    ensures m[t := x].Values == m.Values + {x} && OwnMap(id, made + 1, m[t := x])
  {
    var n := m[t := x];
    assert n[t] == x;
    forall y | y in m.Values
      ensures y in n.Values
    {
      var u :| u in m && m[u] == y;
      assert n[u] == y;
    }
  }

  /** The two halves of a resubscribe, seen through the topics and their QoS. */
  lemma TopicsReplace(m: map<string, Subscription>, t: string, x: Subscription)
    ensures Topics(m - {t}) == Topics(m) - {t}
    ensures Topics((m - {t})[t := x]) == Topics(m)[t := x.qos]
  {
  }

  function Mentioned(topics: seq<string>): set<string> {
    set t | t in topics
  }

  lemma DropOneMore(m: map<string, Subscription>, topics: seq<string>, i: nat)
    requires i < |topics|
    ensures m - Mentioned(topics[..i]) - {topics[i]} == m - Mentioned(topics[..i + 1])
  {
    assert topics[..i + 1] == topics[..i] + [topics[i]];
  }

  lemma EntriesAre(id: nat, made: nat, m: map<string, Subscription>)
    requires OwnMap(id, made, m)
    ensures forall t | t in m :: EntryFor(t, m[t])
  {
    forall t | t in m
      ensures EntryFor(t, m[t])
    {
      FitsMeansEntry(t, m[t]);
    }
  }

  lemma OthersThrough(u: View, v: View, w: View, id: nat)
    requires ViewOk(u) && ViewOk(v) && ViewOk(w) && OthersSame(u, v, id) && OthersSame(v, w, id)
    ensures OthersSame(u, w, id)
  {
  }

  /** The message is retained under a topic the filter of a taken subscribe topic matches. */
  ghost predicate RetainedFor(tree: RT.Tree, topic: string, qos: nat, m: RT.Message) {
    Takes(topic, qos) && exists p :: RT.Kept(tree, p) == Some(m) && Match(Levels(ParseTarget(topic).value.filter).value, Names(p))
  }

  /** Exactly what is retained for the first n topics. */
  ghost predicate Collected(tree: RT.Tree, topics: seq<string>, qoss: seq<nat>, n: nat, msgs: seq<RT.Message>)
    requires n <= |topics| == |qoss|
  {
    forall m :: m in msgs <==> exists i | 0 <= i < n :: RetainedFor(tree, topics[i], qoss[i], m)
  }

  lemma CollectMore(tree: RT.Tree, topics: seq<string>, qoss: seq<nat>, n: nat, msgs: seq<RT.Message>, more: seq<RT.Message>)
    requires n < |topics| == |qoss| && Collected(tree, topics, qoss, n, msgs)
    requires forall m :: m in more <==> RetainedFor(tree, topics[n], qoss[n], m)
    ensures Collected(tree, topics, qoss, n + 1, msgs + more)
  {
    forall m
      ensures m in msgs + more <==> exists i | 0 <= i < n + 1 :: RetainedFor(tree, topics[i], qoss[i], m)
    {
      if m in msgs {
        var i :| 0 <= i < n && RetainedFor(tree, topics[i], qoss[i], m);
        assert i < n + 1;
      }
    }
  }

  class BrokerClient {
    const id: nat
    const index: SubscriptionIndex
    const retained: RT.RetainedIndex
    var rmsgs: seq<RT.Message>
    var subMap: map<string, Subscription>
    var disconnected: bool
    var made: nat

    constructor (id: nat, index: SubscriptionIndex, retained: RT.RetainedIndex)
      requires ViewOk(index.nodes) && Indexed(index.nodes, id, {})
      ensures this.id == id && this.index == index && this.retained == retained && subMap == map[] && !disconnected && rmsgs == []
      ensures Agrees()
    {
      this.id, this.index, this.retained := id, index, retained;
      this.subMap, this.disconnected, this.made, this.rmsgs := map[], false, 0, [];
    }

    /** The client's map and the index agree about the client. */
    ghost predicate Agrees()
      reads this, index
    {
      ViewOk(index.nodes) && OwnMap(id, made, subMap) && Indexed(index.nodes, id, subMap.Values)
    }

    /** An Unsubscribe of a subscription the client has in the index: it never fails. */
    method Drop(x: Subscription, ghost xs: set<Subscription>) returns (ok: bool)
      requires ViewOk(index.nodes) && Indexed(index.nodes, id, xs) && x in xs && x.client == id
      modifies index
      ensures ok && ViewOk(index.nodes) && Indexed(index.nodes, id, xs - {x})
      ensures OthersSame(old(index.nodes), index.nodes, id)
    {
      ok := index.Unsubscribe(x.topic, Some(x));
    }

    /** The section that drops a topic, in both handlers. */
    method Forget(topic: string)
      requires Agrees()
      modifies this`subMap, index
      ensures Agrees() && OthersSame(old(index.nodes), index.nodes, id)
      ensures subMap == old(subMap) - {topic}
    {
      if topic in subMap {
        ValuesWithout(id, made, subMap, topic);
        var _ := Drop(subMap[topic], subMap.Values);
        subMap := subMap - {topic};
      }
    }

    /** One topic of a subscribe. */
    method SubscribeOne(topic: string, qos: nat) returns (code: nat)
      requires Agrees()
      modifies this`subMap, this`made, index
      ensures Agrees() && OthersSame(old(index.nodes), index.nodes, id)
      ensures Topics(subMap) == Asked(old(Topics(subMap)), topic, qos)
      ensures forall t | t in subMap :: EntryFor(t, subMap[t])
      ensures code == if Takes(topic, qos) then qos else 0x80
    {
      var target := ParseTarget(topic);
      if target == None {
        EntriesAre(id, made, subMap);
        return QOS_FAILURE;
      }
      var t := target.value;
      ghost var m, u := subMap, index.nodes;
      Forget(topic);
      ghost var v := index.nodes;
      var x := Subscription(made, id, t.filter, qos, t.share, t.group);
      TopicsReplace(m, topic, x);
      var granted, ok := Enter(x);
      OthersThrough(u, v, index.nodes, id);
      if !ok {
        EntriesAre(id, made, subMap);
        return QOS_FAILURE;
      }
      ValuesWith(id, made - 1, subMap, topic, x);
      subMap := subMap[topic := x];
      EntriesAre(id, made, subMap);
      return granted;
    }

    /** The index takes the new subscription before the map does. */
    method Enter(x: Subscription) returns (granted: nat, ok: bool)
      requires Agrees() && x.client == id && x.ref == made
      modifies this`made, index
      ensures ViewOk(index.nodes) && OthersSame(old(index.nodes), index.nodes, id)
      ensures made == old(made) + 1 && OwnMap(id, made - 1, subMap) && OwnMap(id, made, subMap)
      ensures ok <==> x.qos <= 2 && Levels(x.topic).Some?
      ensures ok ==> granted == x.qos
      ensures Indexed(index.nodes, id, if ok then subMap.Values + {x} else subMap.Values)
    {
      assert x !in subMap.Values;
      granted, ok := index.Subscribe(x.topic, x.qos, Some(x));
      made := made + 1;
    }

    /** What is retained for one topic is appended to the client's list. */
    method CollectRetained(topic: string, qos: nat)
      requires RT.TreeOk(retained.nodes)
      modifies this`rmsgs
      ensures old(rmsgs) <= rmsgs
      ensures forall m :: m in rmsgs[|old(rmsgs)|..] <==> RetainedFor(retained.nodes, topic, qos, m)
    {
      if Takes(topic, qos) {
        var _, msgs, hits := retained.Retained(ParseTarget(topic).value.filter);
        forall m
          ensures m in msgs <==> RetainedFor(retained.nodes, topic, qos, m)
        {
          if m in msgs {
            var i :| 0 <= i < |msgs| && msgs[i] == m;
            assert hits[i] in hits;
          }
        }
        rmsgs := rmsgs + msgs;
      }
    }

    /** One more topic of the packet. */
    method CollectNext(topics: seq<string>, qoss: seq<nat>, i: nat, ghost start: seq<RT.Message>)
      requires RT.TreeOk(retained.nodes) && i < |topics| == |qoss|
      requires start <= rmsgs && Collected(retained.nodes, topics, qoss, i, rmsgs[|start|..])
      modifies this`rmsgs
      ensures start <= rmsgs && Collected(retained.nodes, topics, qoss, i + 1, rmsgs[|start|..])
    {
      ghost var before := rmsgs;
      CollectRetained(topics[i], qoss[i]);
      CollectMore(retained.nodes, topics, qoss, i, before[|start|..], rmsgs[|before|..]);
      assert rmsgs[|start|..] == before[|start|..] + rmsgs[|before|..];
    }

    /** Return codes topic by topic, and the messages written after them: all that the client
        has ever collected, followed by what is retained for the topics of this packet. */
    method ProcessSubscribe(topics: seq<string>, qoss: seq<nat>) returns (codes: seq<nat>, written: seq<RT.Message>)
      requires Agrees() && |qoss| == |topics| && RT.TreeOk(retained.nodes)
      modifies this`subMap, this`made, this`rmsgs, index
      ensures Agrees() && OthersSame(old(index.nodes), index.nodes, id)
      ensures forall t | t in subMap :: EntryFor(t, subMap[t])
      ensures disconnected ==>
        codes == [] && written == [] && subMap == old(subMap) && rmsgs == old(rmsgs) && index.nodes == old(index.nodes)
      ensures !disconnected ==>
        && Topics(subMap) == AskedAll(old(Topics(subMap)), topics, qoss)
        && |codes| == |topics|
        && (forall i | 0 <= i < |topics| :: codes[i] == if Takes(topics[i], qoss[i]) then qoss[i] else 0x80)
        && written == rmsgs && old(rmsgs) <= rmsgs
        && Collected(retained.nodes, topics, qoss, |topics|, rmsgs[|old(rmsgs)|..])
    {
      EntriesAre(id, made, subMap);
      if disconnected {
        return [], [];
      }
      codes := [];
      ghost var start := rmsgs;
      for i := 0 to |topics|
        invariant Agrees() && OthersSame(old(index.nodes), index.nodes, id)
        invariant forall t | t in subMap :: EntryFor(t, subMap[t])
        invariant Topics(subMap) == AskedAll(old(Topics(subMap)), topics[..i], qoss[..i])
        invariant |codes| == i
        invariant forall j | 0 <= j < i :: codes[j] == if Takes(topics[j], qoss[j]) then qoss[j] else QOS_FAILURE
        invariant start <= rmsgs && Collected(retained.nodes, topics, qoss, i, rmsgs[|start|..])
      {
        ghost var v := index.nodes;
        var code := SubscribeOne(topics[i], qoss[i]);
        OthersThrough(old(index.nodes), v, index.nodes, id);
        AskedStep(old(Topics(subMap)), topics, qoss, i);
        codes := codes + [code];
        CollectNext(topics, qoss, i, start);
      }
      assert topics[..|topics|] == topics && qoss[..|topics|] == qoss;
      written := rmsgs;
    }

    method ProcessUnSubscribe(topics: seq<string>)
      requires Agrees()
      modifies this`subMap, index
      ensures Agrees() && OthersSame(old(index.nodes), index.nodes, id)
      ensures subMap == if disconnected then old(subMap) else old(subMap) - Mentioned(topics)
    {
      if disconnected {
        return;
      }
      for i := 0 to |topics|
        invariant Agrees() && OthersSame(old(index.nodes), index.nodes, id)
        invariant subMap == old(subMap) - Mentioned(topics[..i])
      {
        ghost var v := index.nodes;
        Forget(topics[i]);
        OthersThrough(old(index.nodes), v, index.nodes, id);
        DropOneMore(old(subMap), topics, i);
      }
      assert topics[..|topics|] == topics;
    }

    /** The clean-up: every Unsubscribe succeeds, in whatever order the map is walked, and
        the client leaves nothing in the index. The map keeps its entries. */
    method Close() returns (clean: bool)
      requires !disconnected ==> Agrees()
      modifies this`disconnected, index
      ensures disconnected && clean
      ensures old(disconnected) ==> index.nodes == old(index.nodes)
      ensures !old(disconnected) ==>
        ViewOk(index.nodes) && Indexed(index.nodes, id, {}) && OthersSame(old(index.nodes), index.nodes, id)
    {
      clean := true;
      if disconnected {
        return;
      }
      disconnected := true;
      var todo := subMap;
      while todo != map[]
        invariant ViewOk(index.nodes) && OwnMap(id, made, todo) && Indexed(index.nodes, id, todo.Values)
        invariant OthersSame(old(index.nodes), index.nodes, id) && clean && disconnected
        decreases |todo.Keys|
      {
        var topic :| topic in todo;
        var x := todo[topic];
        ValuesWithout(id, made, todo, topic);
        ghost var v := index.nodes;
        var ok := Drop(x, todo.Values);
        OthersThrough(old(index.nodes), v, index.nodes, id);
        clean := clean && ok;
        todo := todo - {topic};
      }
      assert todo.Values == {};
    }
  }

  // ---------- what the packets ask for ----------

  /** Of a subscribe's topics only the last mention of each counts. */
  lemma {:induction false} LastMentionDecides(m: map<string, nat>, topics: seq<string>, qoss: seq<nat>, i: nat)
    requires |qoss| == |topics| && i < |topics| && topics[i] !in topics[i + 1..] && ParseTarget(topics[i]).Some?
    ensures var after := AskedAll(m, topics, qoss);
            && (topics[i] in after <==> Takes(topics[i], qoss[i]))
            && (topics[i] in after ==> after[topics[i]] == qoss[i])
    decreases |topics|
  {
    var n := |topics| - 1;
    if i < n {
      assert topics[n] == topics[i + 1..][n - i - 1];
      assert topics[..n][i + 1..] == topics[i + 1..][..n - i - 1];
      LastMentionDecides(m, topics[..n], qoss[..n], i);
    }
  }

  /** A topic whose share prefix is malformed is refused and changes nothing. */
  lemma {:induction false} MalformedShareKeeps(m: map<string, nat>, topics: seq<string>, qoss: seq<nat>, t: string)
    requires |qoss| == |topics| && HasPrefix(t, "$share/") && !(exists g, f :: SharesIn(t, g, f))
    ensures var after := AskedAll(m, topics, qoss);
            (t in after <==> t in m) && (t in m ==> after[t] == m[t])
    decreases |topics|
  {
    ParseTargetExact(t);
    if topics != [] {
      MalformedShareKeeps(m, topics[..|topics| - 1], qoss[..|topics| - 1], t);
    }
  }

  /** A topic the packet does not mention keeps what it had. */
  lemma {:induction false} UnmentionedKeeps(m: map<string, nat>, topics: seq<string>, qoss: seq<nat>, t: string)
    requires |qoss| == |topics| && t !in topics
    ensures var after := AskedAll(m, topics, qoss);
            (t in after <==> t in m) && (t in m ==> after[t] == m[t])
    decreases |topics|
  {
    if topics != [] {
      UnmentionedKeeps(m, topics[..|topics| - 1], qoss[..|topics| - 1], t);
    }
  }
}
