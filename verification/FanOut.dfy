/** Sending a publish to the subscriptions it matched: once to each plain one, and once to
    each group of shared ones. */
module FanOut {
  import opened TopicLevels
  import opened TriePlaces
  import opened SubscriptionTrie
  import RT = RetainedTree

  ghost predicate NoRepeat(at: seq<nat>) {
    forall i, j | 0 <= i < j < |at| :: at[i] != at[j]
  }

  /** Positions of the plain subscriptions, in order. */
  ghost function Plain(subs: seq<Subscription>): (at: seq<nat>)
    ensures forall i :: i in at <==> 0 <= i < |subs| && !subs[i].share
  {
    if subs == [] then []
    else
      var n := |subs| - 1;
      var init := Plain(subs[..n]);
      assert forall i | 0 <= i < n :: subs[..n][i] == subs[i];
      if subs[n].share then init else init + [n]
  }

  lemma {:induction false} PlainNoRepeat(subs: seq<Subscription>)
    ensures NoRepeat(Plain(subs))
  {
    if subs != [] {
      var init := Plain(subs[..|subs| - 1]);
      PlainNoRepeat(subs[..|subs| - 1]);
      assert forall k | 0 <= k < |init| :: init[k] in init;
    }
  }

  /** The position belongs to a shared subscription of the group. */
  predicate InGroup(subs: seq<Subscription>, g: string, i: nat) {
    i < |subs| && subs[i].share && subs[i].group == g
  }

  ghost predicate HasGroup(subs: seq<Subscription>, g: string) {
    exists i: nat :: InGroup(subs, g, i)
  }

  /** The k-th send serves the group, and no other does. */
  ghost predicate ServedAt(subs: seq<Subscription>, at: seq<nat>, g: string, k: nat) {
    k < |at| && InGroup(subs, g, at[k]) && forall j | 0 <= j < |at| && InGroup(subs, g, at[j]) :: j == k
  }

  ghost predicate ServedOnce(subs: seq<Subscription>, at: seq<nat>, g: string) {
    exists k: nat :: ServedAt(subs, at, g, k)
  }

  ghost predicate ServedNever(subs: seq<Subscription>, at: seq<nat>, g: string) {
    forall j | 0 <= j < |at| :: !InGroup(subs, g, at[j])
  }

  /** What the grouping loop builds: for every group its positions. */
  ghost predicate Grouped(subs: seq<Subscription>, n: nat, groups: map<string, seq<nat>>) {
    && n <= |subs|
    && (forall g | g in groups :: groups[g] != [] && forall i | i in groups[g] :: InGroup(subs, g, i))
    && (forall i | 0 <= i < n && subs[i].share :: subs[i].group in groups)
  }

  /** Groups the shared matches and sends to the plain ones on the way. */
  method SendPlain(subs: seq<Subscription>) returns (at: seq<nat>, groups: map<string, seq<nat>>)
    ensures at == Plain(subs) && Grouped(subs, |subs|, groups)
  {
    at, groups := [], map[];
    for i := 0 to |subs|
      invariant at == Plain(subs[..i]) && Grouped(subs, i, groups)
    {
      assert subs[..i + 1][..i] == subs[..i];
      var s := subs[i];
      if s.share {
        if s.group in groups {
          groups := groups[s.group := groups[s.group] + [i]];
        } else {
          groups := groups[s.group := [i]];
        }
      } else {
        at := at + [i];
      }
    }
    assert subs[..|subs|] == subs;
  }

  lemma ServeOne(subs: seq<Subscription>, at: seq<nat>, i: nat, g: string)
    requires InGroup(subs, g, i) && ServedNever(subs, at, g) && NoRepeat(at)
    ensures NoRepeat(at + [i]) && ServedOnce(subs, at + [i], g)
  {
    assert ServedAt(subs, at + [i], g, |at|);
  }

  lemma OtherGroups(subs: seq<Subscription>, at: seq<nat>, i: nat, g: string, h: string)
    requires InGroup(subs, g, i) && h != g
    ensures ServedOnce(subs, at, h) ==> ServedOnce(subs, at + [i], h)
    ensures ServedNever(subs, at, h) ==> ServedNever(subs, at + [i], h)
  {
    if ServedOnce(subs, at, h) {
      var k: nat :| ServedAt(subs, at, h, k);
      assert ServedAt(subs, at + [i], h, k);
    }
  }

  /** Every plain match is sent to exactly once, in order; then every group with a match is
      served exactly once, through any of its members; nothing else is sent. */
  method FanOut(subs: seq<Subscription>) returns (at: seq<nat>)
    ensures NoRepeat(at) && Plain(subs) <= at
    ensures forall i, j | 0 <= i < j < |Plain(subs)| :: at[i] < at[j]
    ensures forall i | |Plain(subs)| <= i < |at| :: at[i] < |subs| && subs[at[i]].share
    ensures forall g | HasGroup(subs, g) :: ServedOnce(subs, at, g)
  {
    var groups;
    at, groups := SendPlain(subs);
    PlainNoRepeat(subs);
    PlainInOrder(subs);
    forall g
      ensures ServedNever(subs, at, g)
    {
      assert forall j | 0 <= j < |at| :: at[j] in at;
    }
    var todo := groups.Keys;
    while todo != {}
      invariant todo <= groups.Keys && NoRepeat(at) && Plain(subs) <= at
      invariant forall i | |Plain(subs)| <= i < |at| :: at[i] < |subs| && subs[at[i]].share
      invariant forall g :: if g in groups && g !in todo then ServedOnce(subs, at, g) else ServedNever(subs, at, g)
    {
      var g :| g in todo;
      todo := todo - {g};
      var idx :| 0 <= idx < |groups[g]|;
      ServeOne(subs, at, groups[g][idx], g);
      forall h | h != g
        ensures ServedOnce(subs, at, h) ==> ServedOnce(subs, at + [groups[g][idx]], h)
        ensures ServedNever(subs, at, h) ==> ServedNever(subs, at + [groups[g][idx]], h)
      {
        OtherGroups(subs, at, groups[g][idx], g, h);
      }
      at := at + [groups[g][idx]];
    }
  }

  /** The receivers are subscriptions among the matched ones: every plain one, and of every
      group exactly one. */
  ghost predicate Receivers(subs: seq<Subscription>, at: seq<nat>, sent: seq<Subscription>) {
    && |at| == |sent| && NoRepeat(at)
    && (forall k | 0 <= k < |at| :: at[k] < |subs| && sent[k] == subs[at[k]])
    && (forall i: nat | i < |subs| && !subs[i].share :: i in at)
    && (forall i | 0 <= i < |subs| && subs[i].share :: HasShare(sent, subs[i].group))
    && (forall j, k | 0 <= j < k < |sent| && sent[j].share && sent[k].share :: sent[j].group != sent[k].group)
  }

  ghost predicate HasShare(sent: seq<Subscription>, g: string) {
    exists k | 0 <= k < |sent| :: sent[k].share && sent[k].group == g
  }

  lemma GroupReached(subs: seq<Subscription>, at: seq<nat>, sent: seq<Subscription>, i: nat)
    requires i < |subs| && subs[i].share && ServedOnce(subs, at, subs[i].group)
    requires |at| == |sent| && forall k | 0 <= k < |at| :: at[k] < |subs| && sent[k] == subs[at[k]]
    ensures HasShare(sent, subs[i].group)
  {
    var k: nat :| ServedAt(subs, at, subs[i].group, k);
    assert sent[k] == subs[at[k]];
  }

  lemma GroupsDiffer(subs: seq<Subscription>, at: seq<nat>, j: nat, k: nat)
    requires j < k < |at| && at[j] < |subs| && at[k] < |subs|
    requires subs[at[j]].share && subs[at[k]].share && ServedOnce(subs, at, subs[at[j]].group)
    ensures subs[at[j]].group != subs[at[k]].group
  {
    var n: nat :| ServedAt(subs, at, subs[at[j]].group, n);
    assert InGroup(subs, subs[at[j]].group, at[j]);
  }

  lemma FanOutReceivers(subs: seq<Subscription>, at: seq<nat>, sent: seq<Subscription>)
    requires NoRepeat(at) && Plain(subs) <= at
    requires forall g | HasGroup(subs, g) :: ServedOnce(subs, at, g)
    requires |at| == |sent| && forall k | 0 <= k < |at| :: at[k] < |subs| && sent[k] == subs[at[k]]
    ensures Receivers(subs, at, sent)
  {
    assert forall i: nat | i < |subs| && !subs[i].share :: i in Plain(subs);
    forall i | 0 <= i < |subs| && subs[i].share
      ensures HasShare(sent, subs[i].group)
    {
      assert InGroup(subs, subs[i].group, i);
      GroupReached(subs, at, sent, i);
    }
    forall j, k | 0 <= j < k < |sent| && sent[j].share && sent[k].share
      ensures sent[j].group != sent[k].group
    {
      assert InGroup(subs, sent[j].group, at[j]);
      GroupsDiffer(subs, at, j, k);
    }
  }

  /** A publish on the index: the receivers of one message. A publish the walk refuses reaches
      nobody; any other, malformed topics included, goes to its matches. */
  method SendToMatches(index: SubscriptionIndex, topic: string, qos: nat)
    returns (sent: seq<Subscription>, ghost hits: seq<Entry>, ghost subs: seq<Subscription>, ghost at: seq<nat>)
    requires ViewOk(index.nodes)
    ensures Sends(index, topic, qos, sent, hits, subs, at)
  {
    var ok, found, qoss;
    ok, found, qoss, hits := index.Subscribers(topic, qos);
    subs := found;
    if !ok || |found| == 0 {
      return [], hits, subs, [];
    }
    var to := FanOut(found);
    assert forall k | 0 <= k < |to| :: to[k] < |found| by {
      assert forall k | 0 <= k < |Plain(found)| :: Plain(found)[k] in Plain(found) && to[k] == Plain(found)[k];
    }
    sent := seq(|to|, k requires 0 <= k < |to| => found[to[k]]);
    at := to;
    FanOutReceivers(found, at, sent);
  }

  /** Nobody when refused; otherwise the receivers among the live entries whose filter matches
      the levels of the topic, up to the first malformed one. */
  ghost predicate Sends(index: SubscriptionIndex, topic: string, qos: nat, sent: seq<Subscription>,
                        hits: seq<Entry>, subs: seq<Subscription>, at: seq<nat>)
    requires ViewOk(index.nodes)
    reads index
  {
    if index.Refuses(topic, qos) then sent == []
    else
      && EachOnce(hits) && |subs| == |hits| && (forall i | 0 <= i < |hits| :: subs[i] == hits[i].sub)
      && (forall e :: e in hits <==> Live(index.nodes, e) && Match(Names(e.at), GoodLevels(topic)))
      && Receivers(subs, at, sent)
  }

  /** Of the subscriptions to a shared topic that a publish matches, in whatever group members,
      exactly one member of the group receives it. */
  lemma SharedServedOnce(topic: string, g: string, f: string, subs: seq<Subscription>, at: seq<nat>,
                         sent: seq<Subscription>, i: nat)
    requires Receivers(subs, at, sent) && i < |subs| && SharesIn(topic, g, f)
    requires ParseTarget(topic) == Some(Target(subs[i].share, subs[i].group, subs[i].topic))
    ensures exists k | 0 <= k < |sent| ::
              && sent[k].share && sent[k].group == g
              && forall j | 0 <= j < |sent| && sent[j].share && sent[j].group == g :: j == k
  {
    ParseShared(topic, g, f);
    assert HasShare(sent, subs[i].group);
    var k :| 0 <= k < |sent| && sent[k].share && sent[k].group == g;
    assert forall j | 0 <= j < |sent| && sent[j].share && sent[j].group == g :: j == k;
  }

  lemma {:induction false} PlainInOrder(subs: seq<Subscription>)
    ensures forall i, j | 0 <= i < j < |Plain(subs)| :: Plain(subs)[i] < Plain(subs)[j]
  {
    if subs != [] {
      var init := Plain(subs[..|subs| - 1]);
      PlainInOrder(subs[..|subs| - 1]);
      assert forall k | 0 <= k < |init| :: init[k] in init;
    }
  }

  const QUEUE := "$queue/"

  /** Where a publish goes: to the bridge, to the one client it was forwarded for, or to the
      subscriptions it matches. */
  datatype Route = Bridged | Forwarded | Matched

  /** The retained messages after one that asks to be retained; an empty one clears. */
  ghost function RetainedAfter(v: RT.Tree, m: RT.Message): RT.Tree
    requires RT.TreeOk(v)
  {
    if m.payload != "" then RT.Insert(v, Root, m.topic, m)
    else
      match RT.Clear(v, Root, m.topic)
      case None => v
      case Some(w) => w
  }

  /** A bridged publish is neither retained nor sent; a forwarded one is retained and sent to
      no match; any other is retained if it asks to be, whether or not that succeeds, and sent
      to its matches. */
  method ProcessPublishMessage(index: SubscriptionIndex, retained: RT.RetainedIndex, m: RT.Message, qos: nat,
                               retain: bool, bridging: bool, forward: bool)
    returns (route: Route, sent: seq<Subscription>, ghost hits: seq<Entry>, ghost subs: seq<Subscription>, ghost at: seq<nat>)
    requires ViewOk(index.nodes) && RT.TreeOk(retained.nodes)
    modifies retained
    ensures RT.TreeOk(retained.nodes)
    ensures route == if bridging && HasPrefix(m.topic, "$queue/") then Bridged else if forward then Forwarded else Matched
    ensures retained.nodes == if route.Bridged? || !retain then old(retained.nodes) else RetainedAfter(old(retained.nodes), m)
    ensures !route.Matched? ==> sent == []
    ensures route.Matched? ==> Sends(index, m.topic, qos, sent, hits, subs, at)
  {
    sent, hits, subs, at := [], [], [], [];
    if bridging && HasPrefix(m.topic, QUEUE) {
      route := Bridged;
      return;
    }
    if retain {
      var _ := retained.Retain(m);
    }
    if forward {
      route := Forwarded;
      return;
    }
    route := Matched;
    sent, hits, subs, at := SendToMatches(index, m.topic, qos);
  }
}
