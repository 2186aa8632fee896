/** The broker's subscription trie against the flat list of live subscriptions. A node is
    named by its place in the trie; the index object holds every node's cell. */
module SubscriptionTrie {
  import opened TopicLevels
  import opened TriePlaces

  /** A subscription object of the broker. `ref` stands for its address: the trie compares
      subscribers by identity. */
  datatype Subscription = Subscription(ref: nat, client: nat, topic: string, qos: nat, share: bool, group: string)

  // ---------- cells ----------

  /** One node's own subscribers, with the QoS granted to each. */
  datatype Cell = Cell(subs: seq<Subscription>, qos: seq<nat>)

  ghost predicate Distinct(s: seq<Subscription>) {
    forall i, j | 0 <= i < j < |s| :: s[i] != s[j]
  }

  ghost predicate CellOk(c: Cell) {
    |c.subs| == |c.qos| && Distinct(c.subs)
  }

  function Find(s: seq<Subscription>, x: Subscription): (i: nat)
    ensures i <= |s|
    ensures i < |s| ==> s[i] == x
    ensures x !in s[..i]
  {
    if s == [] || s[0] == x then 0
    else
      var i := 1 + Find(s[1..], x);
      assert s[..i] == [s[0]] + s[1..][..i - 1];
      i
  }

  lemma FindUnique(s: seq<Subscription>, x: Subscription, i: nat)
    requires i <= |s| && x !in s[..i] && (i < |s| ==> s[i] == x)
    ensures Find(s, x) == i
  {
    var n := Find(s, x);
    assert forall k | 0 <= k < i :: s[..i][k] == s[k];
    assert forall k | 0 <= k < n :: s[..n][k] == s[k];
  }

  const EMPTY := Cell([], [])

  function Put(c: Cell, q: nat, sub: Subscription): Cell
    requires |c.subs| == |c.qos|
  {
    var i := Find(c.subs, sub);
    if i < |c.subs| then c.(qos := c.qos[i := q])
    else Cell(c.subs + [sub], c.qos + [q])
  }

  function Without<T>(s: seq<T>, i: nat): seq<T>
    requires i < |s|
  {
    s[..i] + s[i + 1..]
  }

  function Take(c: Cell, i: nat): Cell
    requires |c.subs| == |c.qos| && i < |c.subs|
  {
    Cell(Without(c.subs, i), Without(c.qos, i))
  }

  /** The QoS a cell grants to a subscriber, if any. */
  function CellGrant(c: Cell, s: Subscription): Option<nat>
    requires |c.subs| == |c.qos|
  {
    var i := Find(c.subs, s);
    if i < |c.subs| then Some(c.qos[i]) else None
  }

  lemma PutGrants(c: Cell, q: nat, sub: Subscription)
    requires CellOk(c)
    ensures CellOk(Put(c, q, sub))
    ensures forall s :: CellGrant(Put(c, q, sub), s) == if s == sub then Some(q) else CellGrant(c, s)
  {
    var d := Put(c, q, sub);
    forall s
      ensures CellGrant(d, s) == if s == sub then Some(q) else CellGrant(c, s)
    {
      var i := Find(c.subs, s);
      if i < |c.subs| {
        assert d.subs[..i] == c.subs[..i];
        FindUnique(d.subs, s, i);
      } else if s == sub {
        assert d.subs[..i] == c.subs;
        FindUnique(d.subs, s, i);
      } else {
        assert c.subs[..i] == c.subs;
        assert d.subs[..|d.subs|] == d.subs;
        FindUnique(d.subs, s, |d.subs|);
      }
    }
  }

  lemma WithoutAt<T>(s: seq<T>, i: nat)
    requires i < |s|
    ensures |Without(s, i)| == |s| - 1
    ensures forall k | 0 <= k < |s| - 1 :: Without(s, i)[k] == s[if k < i then k else k + 1]
  {
  }

  lemma TakeOk(c: Cell, i: nat)
    requires CellOk(c) && i < |c.subs|
    ensures CellOk(Take(c, i))
  {
    WithoutAt(c.subs, i);
    WithoutAt(c.qos, i);
  }

  /** The search by positions. */
  lemma FindIs(s: seq<Subscription>, x: Subscription, i: nat)
    requires i <= |s| && (forall k | 0 <= k < i :: s[k] != x) && (i < |s| ==> s[i] == x)
    ensures Find(s, x) == i
  {
    FindUnique(s, x, i);
  }

  lemma FindFirst(s: seq<Subscription>, x: Subscription)
    ensures forall k | 0 <= k < Find(s, x) :: s[k] != x
  {
    var n := Find(s, x);
    assert forall k | 0 <= k < n :: s[k] == s[..n][k] && s[..n][k] in s[..n];
  }

  /** Where a subscriber stands after another has gone. */
  lemma FindWithout(s: seq<Subscription>, i: nat, x: Subscription)
    requires Distinct(s) && i < |s|
    ensures var j, n := Find(s, x), Find(Without(s, i), x);
            if j < i then n == j else if j == i || j == |s| then n == |s| - 1 else n == j - 1
  {
    var j := Find(s, x);
    FindFirst(s, x);
    WithoutAt(s, i);
    FindIs(Without(s, i), x, if j < i then j else if j == i || j == |s| then |s| - 1 else j - 1);
  }

  lemma TakeGrants(c: Cell, i: nat)
    requires CellOk(c) && i < |c.subs|
    ensures CellOk(Take(c, i))
    ensures forall s :: CellGrant(Take(c, i), s) == if s == c.subs[i] then None else CellGrant(c, s)
  {
    TakeOk(c, i);
    forall s
      ensures CellGrant(Take(c, i), s) == if s == c.subs[i] then None else CellGrant(c, s)
    {
      TakeGrantsFor(c, i, s);
    }
  }

  lemma TakeGrantsFor(c: Cell, i: nat, s: Subscription)
    requires CellOk(c) && i < |c.subs| && CellOk(Take(c, i))
    ensures CellGrant(Take(c, i), s) == if s == c.subs[i] then None else CellGrant(c, s)
  {
    FindWithout(c.subs, i, s);
    WithoutAt(c.subs, i);
    WithoutAt(c.qos, i);
    if s == c.subs[i] {
      FindUnique(c.subs, s, i);
    }
  }

  // ---------- the trie ----------

  /** A trie: the cell of every place that has a node. */
  type View = map<Path, Cell>

  ghost predicate ViewOk(v: View) {
    && Root in v
    && (forall p | p in v :: CellOk(v[p]))
    && (forall p | p in v :: HashLast(Names(p)))
    && Closed(v.Keys)
  }

  /** The flat reading of a trie: the QoS a place grants to a subscriber, if any. */
  ghost function Granted(v: View, p: Path, s: Subscription): Option<nat>
    requires ViewOk(v)
  {
    if p in v then CellGrant(v[p], s) else None
  }

  ghost predicate Childless(v: View, p: Path) {
    forall k :: Kid(p, k) !in v
  }

  function Ensure(v: View, p: Path): View {
    if p in v then v else v[p := EMPTY]
  }

  /** Insertion below a node, level by level: missing nodes appear on the way, and stay
      even when a later level is malformed. */
  ghost function Insert(v: View, path: Path, topic: string, q: nat, sub: Subscription): View
    requires path in v && forall p | p in v :: |v[p].subs| == |v[p].qos|
    decreases |topic|
  {
    if topic == "" then v[path := Put(v[path], q, sub)]
    else
      match NextLevel(topic)
      case Malformed => v
      case Level(level, rest) => Insert(Ensure(v, Kid(path, level)), Kid(path, level), rest, q, sub)
  }

  /** Removal below a node; None is the error. Without a subscriber it removes everybody. A
      node left without subscribers and children goes. */
  ghost function Remove(v: View, path: Path, topic: string, sub: Option<Subscription>): Option<View>
    requires path in v && forall p | p in v :: |v[p].subs| == |v[p].qos|
    decreases |topic|
  {
    if topic == "" then RemoveHere(v, path, sub)
    else
      match NextLevel(topic)
      case Malformed => None
      case Level(level, rest) =>
        if Kid(path, level) !in v then None
        else
          match Remove(v, Kid(path, level), rest, sub)
          case None => None
          case Some(w) => Some(Prune(w, Kid(path, level)))
  }

  ghost function RemoveHere(v: View, path: Path, sub: Option<Subscription>): Option<View>
    requires path in v && |v[path].subs| == |v[path].qos|
  {
    match sub
    case None => Some(v[path := EMPTY])
    case Some(s) =>
      var i := Find(v[path].subs, s);
      if i == |v[path].subs| then None else Some(v[path := Take(v[path], i)])
  }

  ghost function Prune(v: View, p: Path): View {
    if p in v && v[p].subs == [] && Childless(v, p) then v - {p} else v
  }

  // ---------- the trie refines the flat list ----------

  /** No '#' on the way to a node that levels are still added below. */
  predicate Open(path: Path, topic: string) {
    MWC !in Names(path) || topic == ""
  }

  lemma EnsureKeeps(v: View, path: Path, level: string)
    requires ViewOk(v) && path in v && MWC !in Names(path)
    ensures ViewOk(Ensure(v, Kid(path, level)))
    ensures forall p, s :: Granted(Ensure(v, Kid(path, level)), p, s) == Granted(v, p, s)
  {
    var w := Ensure(v, Kid(path, level));
    forall p | p in w
      ensures HashLast(Names(p))
    {
      if p == Kid(path, level) {
        assert forall i | 0 <= i < |Names(path)| :: Names(path)[i] in Names(path);
      }
    }
  }

  lemma {:induction false} InsertMeaning(v: View, path: Path, topic: string, q: nat, sub: Subscription)
    requires ViewOk(v) && path in v && Open(path, topic)
    ensures ViewOk(Insert(v, path, topic, q, sub))
    ensures forall p, s :: Granted(Insert(v, path, topic, q, sub), p, s) ==
                           if Levels(topic).Some? && p == Descend(path, Levels(topic).value) && s == sub
                           then Some(q) else Granted(v, p, s)
    decreases |topic|
  {
    if topic == "" {
      PutGrants(v[path], q, sub);
    } else {
      var next := NextLevel(topic);
      if next.Level? {
        EnsureKeeps(v, path, next.level);
        var child := Kid(path, next.level);
        InsertMeaning(Ensure(v, child), child, next.rest, q, sub);
        if Levels(topic).Some? {
          var names := Levels(topic).value;
          assert names[0] == next.level && names[1..] == Levels(next.rest).value;
        }
      }
    }
  }

  lemma PruneKeeps(v: View, p: Path)
    requires ViewOk(v) && p.Kid?
    ensures ViewOk(Prune(v, p))
    ensures forall r, s :: Granted(Prune(v, p), r, s) == Granted(v, r, s)
  {
  }

  lemma RemoveHereMeaning(v: View, path: Path, sub: Option<Subscription>)
    requires ViewOk(v) && path in v
    ensures RemoveHere(v, path, sub).Some? <==> (sub.Some? ==> Granted(v, path, sub.value).Some?)
    ensures RemoveHere(v, path, sub).Some? ==>
      var w := RemoveHere(v, path, sub).value;
      && ViewOk(w) && w.Keys == v.Keys
      && forall p, s :: Granted(w, p, s) ==
          if p == path && (sub.Some? ==> s == sub.value) then None else Granted(v, p, s)
  {
    if sub.Some? {
      var i := Find(v[path].subs, sub.value);
      if i < |v[path].subs| {
        TakeGrants(v[path], i);
      }
    }
  }

  lemma {:induction false} RemoveMeaning(v: View, path: Path, topic: string, sub: Option<Subscription>)
    requires ViewOk(v) && path in v
    ensures
      Remove(v, path, topic, sub).Some? <==>
      && Levels(topic).Some? && Descend(path, Levels(topic).value) in v
      && (sub.Some? ==> Granted(v, Descend(path, Levels(topic).value), sub.value).Some?)
    ensures Remove(v, path, topic, sub).Some? ==>
      var w := Remove(v, path, topic, sub).value;
      && ViewOk(w)
      && forall p, s :: Granted(w, p, s) ==
          if p == Descend(path, Levels(topic).value) && (sub.Some? ==> s == sub.value) then None else Granted(v, p, s)
    decreases |topic|
  {
    if topic == "" {
      RemoveHereMeaning(v, path, sub);
    } else {
      var next := NextLevel(topic);
      if next.Level? {
        var child := Kid(path, next.level);
        if Levels(topic).Some? {
          var names := Levels(topic).value;
          assert names[0] == next.level && names[1..] == Levels(next.rest).value;
          assert Descend(path, names) == Descend(child, names[1..]);
          if Descend(child, names[1..]) in v {
            ReachedFromNode(v.Keys, child, names[1..]);
          }
        }
        if child in v {
          RemoveMeaning(v, child, next.rest, sub);
          var r := Remove(v, child, next.rest, sub);
          if r.Some? {
            PruneKeeps(r.value, child);
          }
        }
      }
    }
  }

  lemma TakeUndoesPut(c: Cell, q: nat, sub: Subscription)
    requires CellOk(c) && CellGrant(c, sub).None?
    ensures var d := Put(c, q, sub); Find(d.subs, sub) == |c.subs| && Take(d, |c.subs|) == c
  {
    var d := Put(c, q, sub);
    assert d.subs[..|c.subs|] == c.subs && c.subs[..|c.subs|] == c.subs;
    FindUnique(d.subs, sub, |c.subs|);
  }

  /** Every node but one, and but the root, has subscribers or children. */
  ghost predicate TidyBut(v: View, x: Path) {
    forall p | p in v && p.Kid? && p != x && v[p].subs == [] :: !Childless(v, p)
  }

  lemma EnsureTidy(v: View, path: Path, level: string)
    requires path in v && TidyBut(v, path)
    ensures TidyBut(Ensure(v, Kid(path, level)), Kid(path, level))
  {
    var child := Kid(path, level);
    var w := Ensure(v, child);
    forall p | p in w && p.Kid? && p != child && w[p].subs == []
      ensures !Childless(w, p)
    {
      if p == path {
        assert Kid(path, level) in w;
      } else {
        assert !Childless(v, p);
        var k :| Kid(p, k) in v;
        assert Kid(p, k) in w;
      }
    }
  }

  lemma EnsurePruned(v: View, path: Path, level: string)
    requires ViewOk(v) && path in v && TidyBut(v, path)
    ensures Prune(Ensure(v, Kid(path, level)), Kid(path, level)) == v
  {
    var child := Kid(path, level);
    var w := Ensure(v, child);
    if child !in v {
      assert Childless(w, child);
      assert w - {child} == v;
    } else {
      assert child != path;
    }
  }

  lemma EnsureUndone(v: View, path: Path, level: string, s: Subscription)
    requires ViewOk(v) && path in v && MWC !in Names(path) && TidyBut(v, path)
    ensures var w := Ensure(v, Kid(path, level));
            && ViewOk(w) && TidyBut(w, Kid(path, level))
            && (forall p :: Granted(w, p, s) == Granted(v, p, s))
            && Prune(w, Kid(path, level)) == v
  {
    EnsureKeeps(v, path, level);
    EnsureTidy(v, path, level);
    EnsurePruned(v, path, level);
  }

  /** On a trie without empty leaves, removing what was just added restores the trie. */
  lemma {:induction false} RemoveUndoesInsert(v: View, path: Path, topic: string, q: nat, sub: Subscription)
    requires ViewOk(v) && path in v && Open(path, topic) && TidyBut(v, path)
    requires Levels(topic).Some? && Granted(v, Descend(path, Levels(topic).value), sub).None?
    ensures path in Insert(v, path, topic, q, sub)
    ensures var w := Insert(v, path, topic, q, sub);
            (forall p | p in w :: |w[p].subs| == |w[p].qos|) && Remove(w, path, topic, Some(sub)) == Some(v)
    decreases |topic|
  {
    InsertKeepsNodes(v, path, topic, q, sub);
    if topic == "" {
      RemoveHereUndoes(v, path, q, sub);
    } else {
      var next := NextLevel(topic);
      var child := Kid(path, next.level);
      var names := Levels(topic).value;
      assert names[0] == next.level && names[1..] == Levels(next.rest).value;
      EnsureUndone(v, path, next.level, sub);
      RemoveUndoesInsert(Ensure(v, child), child, next.rest, q, sub);
      RemoveStep(Insert(v, path, topic, q, sub), path, topic, sub, Ensure(v, child));
    }
  }

  lemma RemoveHereUndoes(v: View, path: Path, q: nat, sub: Subscription)
    requires ViewOk(v) && path in v && Granted(v, path, sub).None?
    ensures var w := v[path := Put(v[path], q, sub)]; RemoveHere(w, path, Some(sub)) == Some(v)
  {
    TakeUndoesPut(v[path], q, sub);
    assert v[path := Put(v[path], q, sub)][path := v[path]] == v;
  }

  /** One level of a removal that succeeds. */
  lemma RemoveStep(w: View, path: Path, topic: string, sub: Subscription, v: View)
    requires path in w && (forall p | p in w :: |w[p].subs| == |w[p].qos|) && topic != "" && NextLevel(topic).Level?
    requires var child := Kid(path, NextLevel(topic).level);
             child in w && Remove(w, child, NextLevel(topic).rest, Some(sub)) == Some(v)
    ensures Remove(w, path, topic, Some(sub)) == Some(Prune(v, Kid(path, NextLevel(topic).level)))
  {
  }

  lemma {:induction false} InsertKeepsNodes(v: View, path: Path, topic: string, q: nat, sub: Subscription)
    requires path in v && forall p | p in v :: |v[p].subs| == |v[p].qos|
    ensures var w := Insert(v, path, topic, q, sub);
            v.Keys <= w.Keys && forall p | p in w :: |w[p].subs| == |w[p].qos|
    decreases |topic|
  {
    if topic != "" && NextLevel(topic).Level? {
      var child := Kid(path, NextLevel(topic).level);
      InsertKeepsNodes(Ensure(v, child), child, NextLevel(topic).rest, q, sub);
    }
  }

  // ---------- whole runs ----------

  /** A call on the index. */
  datatype Op =
    | Sub(topic: string, qos: nat, sub: Option<Subscription>)
    | Unsub(topic: string, sub: Option<Subscription>)

  /** The filter's place; meaningful for topics the splitter accepts. */
  function Place(topic: string): Path
    requires Levels(topic).Some?
  {
    Descend(Root, Levels(topic).value)
  }

  ghost predicate Accepts(op: Op) {
    Levels(op.topic).Some? && (op.Sub? ==> op.qos <= 2 && op.sub.Some?)
  }

  ghost function Apply(v: View, op: Op): View
    requires ViewOk(v)
  {
    match op
    case Sub(topic, qos, sub) => if qos <= 2 && sub.Some? then Insert(v, Root, topic, qos, sub.value) else v
    case Unsub(topic, sub) => match Remove(v, Root, topic, sub) case None => v case Some(w) => w
  }

  /** The flat list: live subscriptions by place and subscriber. */
  type Flat = map<Entry, nat>

  ghost function FlatApply(f: Flat, op: Op): Flat {
    if !Accepts(op) then f
    else
      match op
      case Sub(topic, qos, sub) => f[Entry(Place(topic), sub.value) := qos]
      case Unsub(topic, Some(s)) => f - {Entry(Place(topic), s)}
      case Unsub(topic, None) => map e | e in f && e.at != Place(topic) :: f[e]
  }

  ghost predicate Agrees(v: View, f: Flat) {
    ViewOk(v) && forall p, s :: Granted(v, p, s) == if Entry(p, s) in f then Some(f[Entry(p, s)]) else None
  }

  lemma ApplyAgrees(v: View, f: Flat, op: Op)
    requires Agrees(v, f)
    ensures Agrees(Apply(v, op), FlatApply(f, op))
    ensures !Accepts(op) ==> forall p, s :: Granted(Apply(v, op), p, s) == Granted(v, p, s)
  {
    match op
    case Sub(topic, qos, sub) =>
      if qos <= 2 && sub.Some? {
        InsertMeaning(v, Root, topic, qos, sub.value);
      }
    case Unsub(topic, sub) =>
      RemoveMeaning(v, Root, topic, sub);
  }

  lemma ApplyOk(v: View, op: Op)
    requires ViewOk(v)
    ensures ViewOk(Apply(v, op))
  {
    if op.Sub? && op.qos <= 2 && op.sub.Some? {
      InsertMeaning(v, Root, op.topic, op.qos, op.sub.value);
    } else if op.Unsub? {
      RemoveMeaning(v, Root, op.topic, op.sub);
    }
  }

  ghost function Run(ops: seq<Op>): (v: View)
    ensures ViewOk(v)
  {
    if ops == [] then map[Root := EMPTY]
    else
      var v := Run(ops[..|ops| - 1]);
      ApplyOk(v, ops[|ops| - 1]);
      Apply(v, ops[|ops| - 1])
  }

  ghost function FlatRun(ops: seq<Op>): Flat {
    if ops == [] then map[] else FlatApply(FlatRun(ops[..|ops| - 1]), ops[|ops| - 1])
  }

  /** After every sequence of calls, the trie grants exactly what the flat list holds. */
  lemma {:induction false} RunRefinesFlat(ops: seq<Op>)
    ensures Agrees(Run(ops), FlatRun(ops))
  {
    if ops != [] {
      RunRefinesFlat(ops[..|ops| - 1]);
      ApplyAgrees(Run(ops[..|ops| - 1]), FlatRun(ops[..|ops| - 1]), ops[|ops| - 1]);
    }
  }

  // ---------- matching ----------

  /** A live subscription: a filter's place and a subscriber there. */
  datatype Entry = Entry(at: Path, sub: Subscription)

  ghost predicate Live(v: View, e: Entry) {
    e.at in v && e.sub in v[e.at].subs
  }

  ghost predicate EachOnce(hits: seq<Entry>) {
    forall i, j | 0 <= i < j < |hits| :: hits[i] != hits[j]
  }

  /** The hits of a walk below a node: what they list, each once, and only live filters
      that match. */
  ghost predicate Hits(v: View, path: Path, names: seq<string>, q: nat,
                       hits: seq<Entry>, subs: seq<Subscription>, qoss: seq<nat>)
  {
    && |hits| == |subs| == |qoss| && EachOnce(hits)
    && (forall i | 0 <= i < |hits| :: subs[i] == hits[i].sub && qoss[i] == q)
    && (forall e | e in hits :: Live(v, e) && Below(path, e.at).Some? && Match(Below(path, e.at).value, names))
  }

  ghost predicate AllHits(v: View, path: Path, names: seq<string>, hits: seq<Entry>) {
    forall e | Live(v, e) && Below(path, e.at).Some? && Match(Below(path, e.at).value, names) :: e in hits
  }

  /** The entries of one cell. */
  ghost function At(p: Path, subs: seq<Subscription>): (es: seq<Entry>)
    ensures |es| == |subs|
    ensures forall i | 0 <= i < |es| :: es[i] == Entry(p, subs[i])
  {
    seq(|subs|, i requires 0 <= i < |subs| => Entry(p, subs[i]))
  }

  /** First names, below a place, of the filters hit so far. */
  ghost predicate Headed(path: Path, hits: seq<Entry>, done: set<string>) {
    forall e | e in hits :: Below(path, e.at).Some? && Below(path, e.at).value != [] && Below(path, e.at).value[0] in done
  }

  /** Everything that matches under the given first names has been hit. */
  ghost predicate Covered(v: View, path: Path, names: seq<string>, hits: seq<Entry>, done: set<string>) {
    forall e | Live(v, e) && Below(path, e.at).Some? && Match(Below(path, e.at).value, names)
      && Below(path, e.at).value != [] && Below(path, e.at).value[0] in done :: e in hits
  }

  lemma JoinHits(v: View, path: Path, names: seq<string>, q: nat,
                 hits: seq<Entry>, subs: seq<Subscription>, qoss: seq<nat>,
                 h: seq<Entry>, s: seq<Subscription>, qs: seq<nat>)
    requires Hits(v, path, names, q, hits, subs, qoss) && Hits(v, path, names, q, h, s, qs)
    requires forall e | e in hits :: e !in h
    ensures Hits(v, path, names, q, hits + h, subs + s, qoss + qs)
  {
    assert forall e | e in hits + h :: e in hits || e in h;
  }

  lemma JoinCover(v: View, path: Path, names: seq<string>, done: set<string>, k: string, hits: seq<Entry>, h: seq<Entry>)
    ensures Covered(v, path, names, hits, done) && Covered(v, path, names, h, {k}) ==>
      Covered(v, path, names, hits + h, done + {k})
    ensures Headed(path, hits, done) && Headed(path, h, {k}) ==> Headed(path, hits + h, done + {k})
  {
    assert forall e | e in hits + h :: e in hits || e in h;
  }

  /** The subscribers of the '#' child match whatever follows, and they are all that hangs
      under '#'. */
  lemma HashHits(v: View, path: Path, names: seq<string>, q: nat)
    requires ViewOk(v) && Kid(path, MWC) in v
    ensures
      var c := v[Kid(path, MWC)];
      var h := At(Kid(path, MWC), c.subs);
      && Hits(v, path, names, q, h, c.subs, seq(|c.subs|, _ => q))
      && Headed(path, h, {MWC}) && Covered(v, path, names, h, {MWC})
  {
    var at := Kid(path, MWC);
    var h := At(at, v[at].subs);
    BelowUp(path, MWC);
    forall e | Live(v, e) && Below(path, e.at).Some? && Below(path, e.at).value != [] && Below(path, e.at).value[0] == MWC
      ensures e in h
    {
      BelowDescend(path, e.at);
      var names := Below(path, e.at).value;
      assert Names(e.at)[|Names(path)|] == MWC;
      assert names == [MWC];
      assert names[1..] == [];
      assert e.at == at;
      var i :| 0 <= i < |v[at].subs| && v[at].subs[i] == e.sub;
      assert h[i] == e;
    }
  }

  /** A walk below a child that the next name leads to is a walk below the node. */
  lemma ChildHits(v: View, path: Path, names: seq<string>, q: nat, k: string,
                  h: seq<Entry>, s: seq<Subscription>, qs: seq<nat>)
    requires names != [] && k != MWC && (k == SWC || k == names[0])
    requires Hits(v, Kid(path, k), names[1..], q, h, s, qs)
    ensures Hits(v, path, names, q, h, s, qs) && Headed(path, h, {k})
    ensures AllHits(v, Kid(path, k), names[1..], h) ==> Covered(v, path, names, h, {k})
  {
    forall e | e in h
      ensures Below(path, e.at).Some? && Match(Below(path, e.at).value, names) && Below(path, e.at).value != []
              && Below(path, e.at).value[0] == k
    {
      BelowChild(path, k, e.at);
      assert ([k] + Below(Kid(path, k), e.at).value)[1..] == Below(Kid(path, k), e.at).value;
    }
    if AllHits(v, Kid(path, k), names[1..], h) {
      forall e | Live(v, e) && Below(path, e.at).Some? && Match(Below(path, e.at).value, names)
        && Below(path, e.at).value != [] && Below(path, e.at).value[0] == k
        ensures e in h
      {
        BelowChild(path, k, e.at);
      }
    }
  }

  /** Under a name that neither is a wildcard nor agrees, nothing matches. */
  lemma NoHits(v: View, path: Path, names: seq<string>, k: string)
    requires names != [] && k != MWC && k != SWC && k != names[0]
    ensures Covered(v, path, names, [], {k})
  {
  }

  /** All children walked: everything that matches below the node has been hit. */
  lemma ChildrenCover(v: View, path: Path, names: seq<string>, hits: seq<Entry>, kids: set<string>)
    requires ViewOk(v) && names != [] && Covered(v, path, names, hits, kids)
    requires forall k :: k in kids <==> Kid(path, k) in v
    ensures AllHits(v, path, names, hits)
  {
    forall e | Live(v, e) && Below(path, e.at).Some? && Match(Below(path, e.at).value, names)
      ensures e in hits
    {
      BelowDescend(path, e.at);
      var below := Below(path, e.at).value;
      ReachedFromNode(v.Keys, Kid(path, below[0]), below[1..]);
    }
  }

  /** At the end of the topic the node's own subscribers match. */
  lemma OwnHits(v: View, path: Path, q: nat)
    requires ViewOk(v) && path in v
    ensures Hits(v, path, [], q, At(path, v[path].subs), v[path].subs, seq(|v[path].subs|, _ => q))
  {
    assert Below(path, path) == Some([]);
  }

  /** There, the node itself and its '#' child are all that matches. */
  lemma EndCover(v: View, path: Path, hits: seq<Entry>)
    requires ViewOk(v) && path in v
    requires forall e | e in At(path, v[path].subs) :: e in hits
    requires Kid(path, MWC) in v ==> Covered(v, path, [], hits, {MWC})
    ensures AllHits(v, path, [], hits)
  {
    forall e | Live(v, e) && Below(path, e.at).Some? && Match(Below(path, e.at).value, [])
      ensures e in hits
    {
      BelowDescend(path, e.at);
      var below := Below(path, e.at).value;
      if below == [] {
        var i :| 0 <= i < |v[path].subs| && v[path].subs[i] == e.sub;
        assert At(path, v[path].subs)[i] == e;
      } else {
        ReachedFromNode(v.Keys, Kid(path, below[0]), below[1..]);
      }
    }
  }

  // ---------- walks on malformed topics ----------

  /** The walk goes into the child, and there it can follow the names to their end. */
  ghost predicate ReachesVia(v: View, path: Path, k: string, names: seq<string>)
    requires names != []
    decreases |names|, 0
  {
    Kid(path, k) in v && k != MWC && (k == SWC || k == names[0]) && Reaches(v, Kid(path, k), names[1..])
  }

  /** The walk can follow the names to their end. */
  ghost predicate Reaches(v: View, path: Path, names: seq<string>)
    decreases |names|, 1
  {
    if names == [] then path in v else exists k :: ReachesVia(v, path, k, names)
  }

  /** A path that fits the names: at each step the name or "+". */
  ghost predicate FitsNames(below: seq<string>, names: seq<string>) {
    |below| == |names| && forall i | 0 <= i < |names| :: below[i] != MWC && (below[i] == SWC || below[i] == names[i])
  }

  /** In plain words: some node lies at the end of the names. */
  lemma {:induction false} ReachesMeaning(v: View, path: Path, names: seq<string>)
    requires ViewOk(v)
    ensures Reaches(v, path, names) <==> exists below :: FitsNames(below, names) && Descend(path, below) in v
    decreases |names|
  {
    if names == [] {
      assert path in v ==> FitsNames([], []) && Descend(path, []) in v;
    } else {
      if k :| ReachesVia(v, path, k, names) {
        ReachesMeaning(v, Kid(path, k), names[1..]);
        var below :| FitsNames(below, names[1..]) && Descend(Kid(path, k), below) in v;
        assert ([k] + below)[1..] == below;
        assert FitsNames([k] + below, names);
      }
      if below :| FitsNames(below, names) && Descend(path, below) in v {
        var k := below[0];
        assert FitsNames(below[1..], names[1..]);
        ReachedFromNode(v.Keys, Kid(path, k), below[1..]);
        ReachesMeaning(v, Kid(path, k), names[1..]);
        assert ReachesVia(v, path, k, names);
      }
    }
  }

  class SubscriptionIndex {
    var nodes: View

    constructor ()
      ensures nodes == map[Root := EMPTY]
    {
      nodes := map[Root := EMPTY];
    }

    /** The linear search over one node's subscribers. */
    method FindSub(subs: seq<Subscription>, sub: Subscription) returns (i: nat)
      ensures i == Find(subs, sub)
    {
      i := 0;
      while i < |subs| && subs[i] != sub
        invariant i <= |subs| && sub !in subs[..i]
      {
        i := i + 1;
      }
      FindUnique(subs, sub, i);
    }

    method Children(path: Path) returns (kids: set<string>)
      ensures forall k :: k in kids <==> Kid(path, k) in nodes
    {
      kids := set p | p in nodes && p.Kid? && p.up == path :: p.name;
      assert forall k | Kid(path, k) in nodes :: Kid(path, k).name in kids;
    }

    method SInsert(path: Path, topic: string, q: nat, sub: Subscription) returns (ok: bool)
      requires path in nodes && forall p | p in nodes :: |nodes[p].subs| == |nodes[p].qos|
      modifies this
      ensures nodes == Insert(old(nodes), path, topic, q, sub)
      ensures ok <==> Levels(topic).Some?
      decreases |topic|
    {
      if topic == "" {
        var c := nodes[path];
        var i := FindSub(c.subs, sub);
        if i < |c.subs| {
          nodes := nodes[path := c.(qos := c.qos[i := q])];
        } else {
          nodes := nodes[path := Cell(c.subs + [sub], c.qos + [q])];
        }
        return true;
      }
      var next := NextTopicLevel(topic);
      if next == Malformed {
        return false;
      }
      var child := Kid(path, next.level);
      if child !in nodes {
        nodes := nodes[child := EMPTY];
      }
      ok := SInsert(child, next.rest, q, sub);
    }

    method SRemove(path: Path, topic: string, sub: Option<Subscription>) returns (ok: bool)
      requires path in nodes && forall p | p in nodes :: |nodes[p].subs| == |nodes[p].qos|
      modifies this
      ensures match Remove(old(nodes), path, topic, sub)
              case None => !ok && nodes == old(nodes)
              case Some(w) => ok && nodes == w
      decreases |topic|
    {
      if topic == "" {
        if sub == None {
          nodes := nodes[path := EMPTY];
          return true;
        }
        var c := nodes[path];
        var i := FindSub(c.subs, sub.value);
        if i == |c.subs| {
          return false;
        }
        nodes := nodes[path := Cell(c.subs[..i] + c.subs[i + 1..], c.qos[..i] + c.qos[i + 1..])];
        return true;
      }
      var next := NextTopicLevel(topic);
      if next == Malformed {
        return false;
      }
      var child := Kid(path, next.level);
      if child !in nodes {
        return false;
      }
      ok := SRemove(child, next.rest, sub);
      if !ok {
        return;
      }
      var kids := Children(child);
      if child in nodes && nodes[child].subs == [] && kids == {} {
        nodes := nodes - {child};
      }
    }

    /** The subscribers of one node. */
    method MatchQos(p: Path, q: nat) returns (subs: seq<Subscription>, qoss: seq<nat>)
      requires p in nodes
      ensures subs == nodes[p].subs && qoss == seq(|subs|, _ => q)
    {
      subs, qoss := [], [];
      for i := 0 to |nodes[p].subs|
        invariant subs == nodes[p].subs[..i] && qoss == seq(i, _ => q)
      {
        subs := subs + [nodes[p].subs[i]];
        qoss := qoss + [q];
      }
    }

    /** The walk for a published topic, children in any order. It returns the matching
        subscribers; `hits` tells which filter each one comes from. */
    method SMatch(path: Path, topic: string, q: nat)
      returns (ok: bool, subs: seq<Subscription>, qoss: seq<nat>, ghost hits: seq<Entry>)
      requires ViewOk(nodes) && path in nodes
      ensures Hits(nodes, path, GoodLevels(topic), q, hits, subs, qoss)
      ensures ok ==> AllHits(nodes, path, GoodLevels(topic), hits)
      ensures ok <==> Levels(topic).Some? || !Reaches(nodes, path, GoodLevels(topic))
      decreases |topic|, 1
    {
      if topic == "" {
        subs, qoss := MatchQos(path, q);
        hits := At(path, nodes[path].subs);
        OwnHits(nodes, path, q);
        if Kid(path, MWC) in nodes {
          var s, qs := MatchQos(Kid(path, MWC), q);
          HashHits(nodes, path, [], q);
          JoinHits(nodes, path, [], q, hits, subs, qoss, At(Kid(path, MWC), s), s, qs);
          subs, qoss, hits := subs + s, qoss + qs, hits + At(Kid(path, MWC), s);
        }
        EndCover(nodes, path, hits);
        return true, subs, qoss, hits;
      }
      var next := NextTopicLevel(topic);
      if next == Malformed {
        return false, [], [], [];
      }
      ghost var names := GoodLevels(topic);
      var kids := Children(path);
      var todo := kids;
      ok, subs, qoss, hits := true, [], [], [];
      while todo != {}
        invariant todo <= kids && ok
        invariant Hits(nodes, path, names, q, hits, subs, qoss) && Headed(path, hits, kids - todo)
        invariant Covered(nodes, path, names, hits, kids - todo)
        invariant Levels(topic).None? ==> forall k | k in kids - todo :: !ReachesVia(nodes, path, k, names)
      {
        var k :| k in todo;
        ghost var done := kids - todo;
        todo := todo - {k};
        assert kids - todo == done + {k};
        var s, qs;
        ghost var h;
        ok, s, qs, h := MatchChild(path, k, topic, next.level, next.rest, q);
        JoinHits(nodes, path, names, q, hits, subs, qoss, h, s, qs);
        JoinCover(nodes, path, names, done, k, hits, h);
        subs, qoss, hits := subs + s, qoss + qs, hits + h;
        if !ok {
          return;
        }
      }
      assert kids - todo == kids;
      ChildrenCover(nodes, path, names, hits, kids);
      assert Levels(topic).None? ==> forall k | ReachesVia(nodes, path, k, names) :: k in kids;
    }

    /** One child's part of the walk. */
    method MatchChild(path: Path, k: string, ghost topic: string, level: string, rest: string, q: nat)
      returns (ok: bool, subs: seq<Subscription>, qoss: seq<nat>, ghost hits: seq<Entry>)
      requires ViewOk(nodes) && Kid(path, k) in nodes
      requires topic != "" && NextLevel(topic) == Level(level, rest)
      ensures Hits(nodes, path, GoodLevels(topic), q, hits, subs, qoss) && Headed(path, hits, {k})
      ensures ok ==> Covered(nodes, path, GoodLevels(topic), hits, {k})
      ensures ok <==> Levels(topic).Some? || !ReachesVia(nodes, path, k, GoodLevels(topic))
      decreases |topic|, 0
    {
      ghost var names := GoodLevels(topic);
      assert names[1..] == GoodLevels(rest);
      ok, subs, qoss, hits := true, [], [], [];
      if k == MWC {
        subs, qoss := MatchQos(Kid(path, k), q);
        hits := At(Kid(path, k), subs);
        HashHits(nodes, path, names, q);
      } else if k == SWC || k == level {
        ok, subs, qoss, hits := SMatch(Kid(path, k), rest, q);
        ChildHits(nodes, path, names, q, k, hits, subs, qoss);
      } else {
        NoHits(nodes, path, names, k);
      }
    }

    method Subscribe(topic: string, qos: nat, sub: Option<Subscription>) returns (granted: nat, ok: bool)
      requires ViewOk(nodes)
      modifies this
      ensures ViewOk(nodes) && nodes == Apply(old(nodes), Sub(topic, qos, sub))
      ensures ok <==> Accepts(Sub(topic, qos, sub))
      ensures granted == if ok then qos else 0x80
      ensures forall p, s :: Granted(nodes, p, s) ==
                             if ok && p == Place(topic) && s == sub.value then Some(qos) else Granted(old(nodes), p, s)
    {
      if qos > 2 || sub == None {
        return 0x80, false;
      }
      InsertMeaning(nodes, Root, topic, qos, sub.value);
      ok := SInsert(Root, topic, qos, sub.value);
      granted := if ok then qos else 0x80;
    }

    method Unsubscribe(topic: string, sub: Option<Subscription>) returns (ok: bool)
      requires ViewOk(nodes)
      modifies this
      ensures ViewOk(nodes) && nodes == Apply(old(nodes), Unsub(topic, sub))
      ensures sub.Some? ==> (ok <==> Levels(topic).Some? && Granted(old(nodes), Place(topic), sub.value).Some?)
      ensures !ok ==> nodes == old(nodes)
      ensures ok ==> Levels(topic).Some?
      ensures forall p, s :: Granted(nodes, p, s) ==
                             if ok && p == Place(topic) && (sub.Some? ==> s == sub.value) then None else Granted(old(nodes), p, s)
    {
      RemoveMeaning(nodes, Root, topic, sub);
      ok := SRemove(Root, topic, sub);
    }

    /** A publish on the topic is refused: its QoS is wrong, or the walk meets the malformed
        level, because some node lies where the levels before it lead. */
    ghost predicate Refuses(topic: string, qos: nat)
      reads this
    {
      qos > 2 || (Levels(topic).None? && Reaches(nodes, Root, GoodLevels(topic)))
    }

    /** Unless refused: exactly the live subscriptions whose filter matches the levels met,
        each once; of an accepted topic those are all its levels. */
    method Subscribers(topic: string, qos: nat)
      returns (ok: bool, subs: seq<Subscription>, qoss: seq<nat>, ghost hits: seq<Entry>)
      requires ViewOk(nodes)
      ensures ok <==> !Refuses(topic, qos)
      ensures |hits| == |subs| == |qoss| && EachOnce(hits)
      ensures forall i | 0 <= i < |subs| :: subs[i] == hits[i].sub && qoss[i] == qos
      ensures forall e | e in hits :: Live(nodes, e) && Match(Names(e.at), GoodLevels(topic))
      ensures ok ==> forall e :: e in hits <==> Live(nodes, e) && Match(Names(e.at), GoodLevels(topic))
      ensures Levels(topic).Some? ==> GoodLevels(topic) == Levels(topic).value
    {
      if Levels(topic).Some? {
        GoodLevelsComplete(topic);
      }
      if qos > 2 {
        return false, [], [], [];
      }
      ok, subs, qoss, hits := SMatch(Root, topic, qos);
      forall e: Entry
        ensures Below(Root, e.at) == Some(Names(e.at))
      {
        BelowRoot(e.at);
      }
    }
  }

  /** A malformed topic that is delivered: with the filter "#" alone in the trie, the walk of
      "a/b#" serves it and never meets the malformed level. */
  lemma MalformedDelivered(x: Subscription)
    ensures var v := Run([Sub("#", 0, Some(x))]);
            var names := GoodLevels("a/b#");
            && Levels("a/b#").None? && !Reaches(v, Root, names)
            && Live(v, Entry(Place("#"), x)) && Match(Names(Place("#")), names)
  {
    OnlyHash(x);
    MalformedLevels();
    var v := Run([Sub("#", 0, Some(x))]);
    assert forall k | Kid(Root, k) in v :: k == MWC;
  }

  lemma MalformedLevels()
    ensures Levels("a/b#").None? && GoodLevels("a/b#") == ["a"]
  {
    SepIndexUnique("a/b#", 1);
    SepIndexUnique("b#", 2);
    assert "a/b#"[..1] == "a" && "a/b#"[2..] == "b#" && "b#"[..2] == "b#";
    assert '#' in "b#" by { assert "b#"[1] == '#'; }
    assert NextLevel("b#") == Malformed && NextLevel("a/b#") == Level("a", "b#");
    assert GoodLevels("b#") == [] && ["a"] + [] == ["a"];
  }

  /** The trie after one subscription to "#". */
  lemma OnlyHash(x: Subscription)
    ensures Levels("#") == Some(["#"]) && Place("#") == Kid(Root, "#") && Names(Kid(Root, "#")) == ["#"]
    ensures var v := Run([Sub("#", 0, Some(x))]);
            v.Keys == {Root, Kid(Root, "#")} && Live(v, Entry(Kid(Root, "#"), x))
  {
    SepIndexUnique("#", 1);
    assert "#"[..1] == "#";
    assert NextLevel("#") == Level("#", "");
    assert Levels("") == Some([]);
    assert ["#"] + [] == ["#"] && ["#"][1..] == [];
    var op := Sub("#", 0, Some(x));
    var ops := [op];
    assert ops[..0] == [];
    var start := Run([]);
    assert Run(ops) == Apply(start, op);
    var w := Ensure(start, Kid(Root, "#"));
    assert Insert(start, Root, "#", 0, x) == Insert(w, Kid(Root, "#"), "", 0, x);
    assert Insert(w, Kid(Root, "#"), "", 0, x) == w[Kid(Root, "#") := Put(w[Kid(Root, "#")], 0, x)];
  }
}
