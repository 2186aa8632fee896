/** The cluster manager's garbage collection: one pass over a key-value store that deletes by
    prefix, with every read and every delete succeeding and nobody else writing. */
module ClusterGc {
  import opened TopicLevels

  datatype Value =
    | NodeValue(id: string)
    | ClientValue(id: string, node: string)
    | SubValue(topic: string, client: string)
    | OtherValue

  type Store = map<string, Value>

  /** The system prefix, and the 32 hexadecimal digits a topic is hashed to. */
  datatype Config = Config(sys: string, digest: string -> string)

  ghost predicate ConfigOk(g: Config) {
    forall t :: |g.digest(t)| == 32
  }

  function NodeDir(g: Config): string { g.sys + "/nodes" }
  function ClientDir(g: Config): string { g.sys + "/clients" }
  function SubDir(g: Config): string { g.sys + "/subscriptions" }

  function NodeKey(g: Config, id: string): string { NodeDir(g) + ("/" + id) }
  function ClientKey(g: Config, id: string): string { ClientDir(g) + ("/" + id) }

  function SubId(g: Config, topic: string, client: string): string { g.digest(topic) + (":" + client) }
  function SubKey(g: Config, topic: string, client: string): string { SubDir(g) + ("/" + SubId(g, topic, client)) }

  /** What the three kinds of Put leave behind: in its directory, each value sits under the
      key made from it. */
  ghost predicate StoreOk(g: Config, kv: Store) {
    forall k | k in kv ::
      && (HasPrefix(k, NodeDir(g)) ==> kv[k].NodeValue? && k == NodeKey(g, kv[k].id))
      && (HasPrefix(k, ClientDir(g)) ==> kv[k].ClientValue? && k == ClientKey(g, kv[k].id))
      && (HasPrefix(k, SubDir(g)) ==> kv[k].SubValue? && k == SubKey(g, kv[k].topic, kv[k].client))
  }

  // ---------- prefixes ----------

  lemma PrefixUnder(a: string, x: string, y: string)
    ensures HasPrefix(a + x, a + y) <==> HasPrefix(x, y)
  {
    if |y| <= |x| {
      assert (a + x)[..|a + y|] == a + x[..|y|];
      assert (a + x[..|y|])[|a|..] == x[..|y|] && (a + y)[|a|..] == y;
    }
  }

  lemma PrefixTransitive(x: string, y: string, z: string)
    requires HasPrefix(x, y) && HasPrefix(y, z)
    ensures HasPrefix(x, z)
  {
    assert x[..|z|] == x[..|y|][..|z|];
  }

  /** A key of one directory is under no other: the directories differ in their first letter. */
  lemma DirsApart(g: Config, a: string, b: string, x: string)
    requires |a| > 1 && |b| > 1 && a[1] != b[1]
    ensures !HasPrefix(g.sys + a + x, g.sys + b)
  {
    var k := g.sys + a + x;
    assert k[|g.sys| + 1] == a[1];
    assert (g.sys + b)[|g.sys| + 1] == b[1];
  }

  lemma ClientPrefix(g: Config, c: string, d: string)
    ensures HasPrefix(ClientKey(g, c), ClientKey(g, d)) <==> HasPrefix(c, d)
    ensures ClientKey(g, c) == ClientKey(g, d) <==> c == d
    ensures HasPrefix(ClientKey(g, c), ClientDir(g))
  {
    PrefixUnder("/", c, d);
    PrefixUnder(ClientDir(g), "/" + c, "/" + d);
    PrefixUnder(ClientDir(g), "/" + c, "");
    assert ClientDir(g) + "" == ClientDir(g);
    assert ClientKey(g, c)[|ClientDir(g)| + 1..] == c && ClientKey(g, d)[|ClientDir(g)| + 1..] == d;
  }

  lemma SubPrefix(g: Config, t: string, c: string, u: string, d: string)
    requires ConfigOk(g)
    ensures HasPrefix(SubKey(g, t, c), SubKey(g, u, d)) <==> g.digest(t) == g.digest(u) && HasPrefix(c, d)
    ensures SubKey(g, t, c) == SubKey(g, u, d) ==> c == d
    ensures HasPrefix(SubKey(g, t, c), SubDir(g))
  {
    var x, y := SubId(g, t, c), SubId(g, u, d);
    PrefixUnder(SubDir(g), "/" + x, "/" + y);
    PrefixUnder(SubDir(g), "/" + x, "");
    assert SubDir(g) + "" == SubDir(g);
    PrefixUnder("/", x, y);
    PrefixUnder(":", c, d);
    IdPrefix(g.digest(t), ":" + c, g.digest(u), ":" + d);
    if SubKey(g, t, c) == SubKey(g, u, d) {
      assert SubKey(g, t, c)[|SubDir(g)| + 34..] == c;
      assert SubKey(g, u, d)[|SubDir(g)| + 34..] == d;
    }
  }

  lemma IdPrefix(h: string, x: string, i: string, y: string)
    requires |h| == |i|
    ensures HasPrefix(h + x, i + y) <==> h == i && HasPrefix(x, y)
  {
    PrefixUnder(h, x, y);
    assert |y| <= |x| ==> (h + x)[..|i + y|][..|i|] == h;
    assert (i + y)[..|i|] == i;
  }

  lemma OtherDirs(g: Config, k: string, a: string, b: string)
    requires HasPrefix(k, g.sys + a) && |a| > 1 && |b| > 1 && a[1] != b[1]
    ensures !HasPrefix(k, g.sys + b)
  {
    var x := k[|g.sys + a|..];
    assert k == g.sys + a + x;
    DirsApart(g, a, b, x);
  }

  /** The keys as they are in the store. */
  lemma KeysAre(g: Config, id: string, topic: string)
    ensures NodeKey(g, id) == g.sys + "/nodes/" + id
    ensures ClientKey(g, id) == g.sys + "/clients/" + id
    ensures SubKey(g, topic, id) == g.sys + "/subscriptions/" + g.digest(topic) + ":" + id
  {
    assert "/nodes" + "/" == "/nodes/" && "/clients" + "/" == "/clients/" && "/subscriptions" + "/" == "/subscriptions/";
    Grouped(g.sys, "/nodes", "/", id);
    Grouped(g.sys, "/clients", "/", id);
    Grouped(g.sys, "/subscriptions", "/", g.digest(topic) + (":" + id));
    assert g.digest(topic) + (":" + id) == g.digest(topic) + ":" + id;
    assert g.sys + "/subscriptions/" + (g.digest(topic) + ":" + id) == g.sys + "/subscriptions/" + g.digest(topic) + ":" + id;
  }

  lemma Grouped(a: string, b: string, c: string, d: string)
    ensures a + b + (c + d) == a + (b + c) + d
  {
  }

  // ---------- the pass ----------

  /** A client whose node is not registered. */
  ghost predicate Dead(g: Config, kv: Store, id: string) {
    && ClientKey(g, id) in kv && kv[ClientKey(g, id)].ClientValue?
    && NodeKey(g, kv[ClientKey(g, id)].node) !in kv
  }

  /** A client that should stay. */
  ghost predicate Kept(g: Config, kv: Store, id: string) {
    && ClientKey(g, id) in kv && kv[ClientKey(g, id)].ClientValue?
    && NodeKey(g, kv[ClientKey(g, id)].node) in kv
  }

  /** The key is deleted by the removal of a dead client. */
  ghost predicate ClientHit(g: Config, kv: Store, k: string) {
    exists d :: Dead(g, kv, d) && HasPrefix(k, ClientKey(g, d))
  }

  ghost function AfterClients(g: Config, kv: Store): Store {
    map k | k in kv && !ClientHit(g, kv, k) :: kv[k]
  }

  /** A subscription without a client. */
  ghost predicate Orphan(g: Config, kv: Store, k: string) {
    k in kv && HasPrefix(k, SubDir(g)) && kv[k].SubValue? && ClientKey(g, kv[k].client) !in kv
  }

  ghost predicate SubHit(g: Config, kv: Store, k: string) {
    exists o :: Orphan(g, kv, o) && HasPrefix(k, SubKey(g, kv[o].topic, kv[o].client))
  }

  ghost function AfterSubs(g: Config, kv: Store): Store {
    map k | k in kv && !SubHit(g, kv, k) :: kv[k]
  }

  ghost function Pass(g: Config, kv: Store): Store {
    AfterSubs(g, AfterClients(g, kv))
  }

  // ---------- when the pass is exact ----------

  /** What the pass is for: the clients left are those whose node is registered, the
      subscriptions left are those whose client is left, and nothing else changes. */
  ghost predicate ClientsExact(g: Config, kv: Store, after: Store) {
    forall c :: ClientKey(g, c) in after <==> Kept(g, kv, c)
  }

  ghost predicate SubsExact(g: Config, kv: Store, after: Store) {
    forall t, c :: SubKey(g, t, c) in after <==> SubKey(g, t, c) in kv && Kept(g, kv, c)
  }

  ghost predicate Exact(g: Config, kv: Store, after: Store) {
    && ClientsExact(g, kv, after) && SubsExact(g, kv, after)
    && (forall k | k in after :: k in kv && after[k] == kv[k])
    && (forall k | k in kv && !HasPrefix(k, ClientDir(g)) && !HasPrefix(k, SubDir(g)) :: k in after)
  }

  /** No client to keep has an identifier that extends a dead one's. */
  ghost predicate ClientsApart(g: Config, kv: Store) {
    forall c, d | Kept(g, kv, c) && Dead(g, kv, d) :: !HasPrefix(c, d)
  }

  /** No subscription to keep has, on the same topic digest, a client that extends the client
      of one to drop. */
  ghost predicate SubsApart(g: Config, kv: Store) {
    forall t, c, u, d | SubKey(g, t, c) in kv && SubKey(g, u, d) in kv && Kept(g, kv, c) && !Kept(g, kv, d) ::
      g.digest(t) == g.digest(u) ==> !HasPrefix(c, d)
  }

  lemma ClientsLeft(g: Config, kv: Store, c: string)
    requires StoreOk(g, kv)
    ensures ClientKey(g, c) in AfterClients(g, kv) <==>
            ClientKey(g, c) in kv && forall d | Dead(g, kv, d) :: !HasPrefix(c, d)
    ensures ClientKey(g, c) in kv ==> (Kept(g, kv, c) <==> !Dead(g, kv, c))
    ensures Dead(g, kv, c) ==> ClientKey(g, c) !in AfterClients(g, kv)
  {
    forall d
      ensures HasPrefix(ClientKey(g, c), ClientKey(g, d)) <==> HasPrefix(c, d)
    {
      ClientPrefix(g, c, d);
    }
    ClientPrefix(g, c, c);
    assert HasPrefix(ClientKey(g, c), ClientKey(g, c));
  }

  /** The subscription loop leaves the clients alone, and the client loop the rest. */
  lemma OthersLeft(g: Config, kv: Store, k: string)
    ensures !HasPrefix(k, SubDir(g)) ==> !SubHit(g, kv, k)
    ensures !HasPrefix(k, ClientDir(g)) ==> !ClientHit(g, kv, k)
  {
    if SubHit(g, kv, k) {
      var o :| Orphan(g, kv, o) && HasPrefix(k, SubKey(g, kv[o].topic, kv[o].client));
      var rest := "/" + SubId(g, kv[o].topic, kv[o].client);
      PrefixUnder(SubDir(g), rest, "");
      assert SubDir(g) + "" == SubDir(g);
      PrefixTransitive(k, SubKey(g, kv[o].topic, kv[o].client), SubDir(g));
    }
    if ClientHit(g, kv, k) {
      var d :| Dead(g, kv, d) && HasPrefix(k, ClientKey(g, d));
      ClientPrefix(g, d, d);
      PrefixTransitive(k, ClientKey(g, d), ClientDir(g));
    }
  }

  lemma ClientsAfter(g: Config, kv: Store, c: string)
    ensures ClientKey(g, c) in Pass(g, kv) <==> ClientKey(g, c) in AfterClients(g, kv)
  {
    ClientPrefix(g, c, c);
    OtherDirs(g, ClientKey(g, c), "/clients", "/subscriptions");
    OthersLeft(g, AfterClients(g, kv), ClientKey(g, c));
  }

  lemma ClientsExactIff(g: Config, kv: Store)
    requires StoreOk(g, kv)
    ensures ClientsExact(g, kv, Pass(g, kv)) <==> ClientsApart(g, kv)
  {
    forall c
      ensures ClientKey(g, c) in Pass(g, kv) <==> ClientKey(g, c) in kv && forall d | Dead(g, kv, d) :: !HasPrefix(c, d)
      ensures ClientKey(g, c) in kv ==> (Kept(g, kv, c) <==> !Dead(g, kv, c))
      ensures Dead(g, kv, c) ==> HasPrefix(c, c)
    {
      ClientsAfter(g, kv, c);
      ClientsLeft(g, kv, c);
    }
    if ClientsExact(g, kv, Pass(g, kv)) {
      forall c, d | Kept(g, kv, c) && Dead(g, kv, d)
        ensures !HasPrefix(c, d)
      {
        assert ClientKey(g, c) in Pass(g, kv);
      }
    }
  }

  lemma SubsThere(g: Config, kv: Store, t: string, c: string)
    requires ConfigOk(g)
    ensures SubKey(g, t, c) in AfterClients(g, kv) <==> SubKey(g, t, c) in kv
  {
    SubPrefix(g, t, c, t, c);
    OtherDirs(g, SubKey(g, t, c), "/subscriptions", "/clients");
    OthersLeft(g, kv, SubKey(g, t, c));
  }

  /** With the right clients left, an orphan is a subscription whose client was not to keep. */
  lemma OrphansAre(g: Config, kv: Store, o: string)
    requires ConfigOk(g) && StoreOk(g, kv) && ClientsExact(g, kv, Pass(g, kv))
    ensures Orphan(g, AfterClients(g, kv), o) <==>
            o in kv && HasPrefix(o, SubDir(g)) && !Kept(g, kv, kv[o].client)
  {
    if o in kv && HasPrefix(o, SubDir(g)) {
      ClientsAfter(g, kv, kv[o].client);
      SubsThere(g, kv, kv[o].topic, kv[o].client);
      assert ClientKey(g, kv[o].client) in Pass(g, kv) <==> Kept(g, kv, kv[o].client);
    }
  }

  lemma SubLeft(g: Config, kv: Store, t: string, c: string)
    requires ConfigOk(g) && StoreOk(g, kv) && ClientsExact(g, kv, Pass(g, kv))
    ensures SubKey(g, t, c) in Pass(g, kv) <==>
            && SubKey(g, t, c) in kv
            && forall u, d | SubKey(g, u, d) in kv && !Kept(g, kv, d) :: !(g.digest(t) == g.digest(u) && HasPrefix(c, d))
  {
    var kv1, k := AfterClients(g, kv), SubKey(g, t, c);
    SubsThere(g, kv, t, c);
    if SubHit(g, kv1, k) {
      var o :| Orphan(g, kv1, o) && HasPrefix(k, SubKey(g, kv1[o].topic, kv1[o].client));
      OrphansAre(g, kv, o);
      SubPrefix(g, t, c, kv[o].topic, kv[o].client);
      assert SubKey(g, kv[o].topic, kv[o].client) in kv;
    }
    forall u, d | SubKey(g, u, d) in kv && !Kept(g, kv, d) && g.digest(t) == g.digest(u) && HasPrefix(c, d)
      ensures SubHit(g, kv1, k)
    {
      var o := SubKey(g, u, d);
      SubPrefix(g, u, d, kv[o].topic, kv[o].client);
      assert o == SubKey(g, kv[o].topic, kv[o].client) && d == kv[o].client;
      OrphansAre(g, kv, o);
      SubPrefix(g, t, c, u, d);
    }
  }

  lemma SubsExactIff(g: Config, kv: Store)
    requires ConfigOk(g) && StoreOk(g, kv) && ClientsExact(g, kv, Pass(g, kv))
    ensures SubsExact(g, kv, Pass(g, kv)) <==> SubsApart(g, kv)
  {
    forall t, c
      ensures SubKey(g, t, c) in Pass(g, kv) <==>
              && SubKey(g, t, c) in kv
              && forall u, d | SubKey(g, u, d) in kv && !Kept(g, kv, d) :: !(g.digest(t) == g.digest(u) && HasPrefix(c, d))
      ensures HasPrefix(c, c)
    {
      SubLeft(g, kv, t, c);
    }
    if SubsExact(g, kv, Pass(g, kv)) {
      forall t, c, u, d | SubKey(g, t, c) in kv && SubKey(g, u, d) in kv && Kept(g, kv, c) && !Kept(g, kv, d)
        ensures g.digest(t) == g.digest(u) ==> !HasPrefix(c, d)
      {
        assert SubKey(g, t, c) in Pass(g, kv);
      }
    }
  }

  /** One pass is exact if and only if no identifier to keep extends one to drop. */
  lemma PassExactIff(g: Config, kv: Store)
    requires ConfigOk(g) && StoreOk(g, kv)
    ensures Exact(g, kv, Pass(g, kv)) <==> ClientsApart(g, kv) && SubsApart(g, kv)
  {
    ClientsExactIff(g, kv);
    if ClientsApart(g, kv) {
      SubsExactIff(g, kv);
    }
    forall k | k in kv && !HasPrefix(k, ClientDir(g)) && !HasPrefix(k, SubDir(g))
      ensures k in Pass(g, kv)
    {
      OthersLeft(g, kv, k);
      OthersLeft(g, AfterClients(g, kv), k);
    }
  }

  /** The client identifiers that occur, on a client or on a subscription. */
  ghost predicate Occurs(g: Config, kv: Store, id: string) {
    ClientKey(g, id) in kv || exists t :: SubKey(g, t, id) in kv
  }

  /** In particular: identifiers none of which extends another. */
  lemma PrefixFreeIsExact(g: Config, kv: Store)
    requires ConfigOk(g) && StoreOk(g, kv)
    requires forall c, d | Occurs(g, kv, c) && Occurs(g, kv, d) && HasPrefix(c, d) :: c == d
    ensures Exact(g, kv, Pass(g, kv))
  {
    forall c, d | Kept(g, kv, c) && Dead(g, kv, d)
      ensures !HasPrefix(c, d)
    {
      assert Occurs(g, kv, c) && Occurs(g, kv, d);
    }
    forall t, c, u, d | SubKey(g, t, c) in kv && SubKey(g, u, d) in kv && Kept(g, kv, c) && !Kept(g, kv, d)
      ensures g.digest(t) == g.digest(u) ==> !HasPrefix(c, d)
    {
      assert Occurs(g, kv, c) && Occurs(g, kv, d);
    }
    PassExactIff(g, kv);
  }

  /** A live client "ab" goes with the dead client "a". */
  lemma ExtensionIsLost(g: Config)
    requires ConfigOk(g)
    ensures var kv := map[NodeKey(g, "n") := NodeValue("n"), ClientKey(g, "a") := ClientValue("a", "m"),
                          ClientKey(g, "ab") := ClientValue("ab", "n")];
            StoreOk(g, kv) && Kept(g, kv, "ab") && ClientKey(g, "ab") !in Pass(g, kv)
  {
    var kv := map[NodeKey(g, "n") := NodeValue("n"), ClientKey(g, "a") := ClientValue("a", "m"),
                  ClientKey(g, "ab") := ClientValue("ab", "n")];
    assert "ab"[..1] == "a" && HasPrefix("ab", "a");
    ClientPrefix(g, "ab", "a");
    ClientPrefix(g, "a", "a");
    NodeKeys(g, "n", "m");
    OtherDirs(g, NodeKey(g, "n"), "/nodes", "/clients");
    OtherDirs(g, NodeKey(g, "n"), "/nodes", "/subscriptions");
    forall c
      ensures !HasPrefix(ClientKey(g, c), NodeDir(g)) && !HasPrefix(ClientKey(g, c), SubDir(g))
      ensures ClientKey(g, c) != NodeKey(g, "n") && ClientKey(g, c) != NodeKey(g, "m")
    {
      ClientPrefix(g, c, c);
      OtherDirs(g, ClientKey(g, c), "/clients", "/nodes");
      OtherDirs(g, ClientKey(g, c), "/clients", "/subscriptions");
    }
    assert StoreOk(g, kv);
    assert Dead(g, kv, "a") && Kept(g, kv, "ab");
    ClientsLeft(g, kv, "ab");
    ClientsAfter(g, kv, "ab");
  }

  lemma NodeKeys(g: Config, a: string, b: string)
    ensures NodeKey(g, a) == NodeKey(g, b) <==> a == b
    ensures HasPrefix(NodeKey(g, a), NodeDir(g)) && HasPrefix(NodeKey(g, b), NodeDir(g))
  {
    PrefixUnder(NodeDir(g), "/" + a, "");
    PrefixUnder(NodeDir(g), "/" + b, "");
    assert NodeDir(g) + "" == NodeDir(g);
    assert NodeKey(g, a)[|NodeDir(g)| + 1..] == a && NodeKey(g, b)[|NodeDir(g)| + 1..] == b;
  }

  // ---------- the pass as loops ----------

  class EtcdStore {
    var kv: Store

    method Put(key: string, value: Value)
      modifies this
      ensures kv == old(kv)[key := value]
    {
      kv := kv[key := value];
    }

    /** The keys under a prefix. No key at all and an empty answer are the same here. */
    method All(prefix: string) returns (keys: set<string>)
      ensures forall k :: k in keys <==> k in kv && HasPrefix(k, prefix)
    {
      keys := set k | k in kv && HasPrefix(k, prefix);
    }

    /** Deletes by prefix. */
    method Del(key: string)
      modifies this
      ensures kv == map k | k in old(kv) && !HasPrefix(k, key) :: old(kv)[k]
    {
      kv := map k | k in kv && !HasPrefix(k, key) :: kv[k];
    }
  }

  /** What is left when the clients of a set have been removed one by one. */
  ghost function Without(g: Config, kv: Store, gone: set<string>): Store {
    map k | k in kv && !(exists d | d in gone :: HasPrefix(k, ClientKey(g, d))) :: kv[k]
  }

  lemma WithoutOne(g: Config, kv: Store, gone: set<string>, c: string)
    ensures Without(g, kv, gone + {c}) ==
            map k | k in Without(g, kv, gone) && !HasPrefix(k, ClientKey(g, c)) :: Without(g, kv, gone)[k]
  {
  }

  lemma WithoutDead(g: Config, kv: Store, gone: set<string>)
    requires forall d :: d in gone <==> Dead(g, kv, d)
    ensures Without(g, kv, gone) == AfterClients(g, kv)
  {
    assert forall k | k in kv :: ClientHit(g, kv, k) <==> exists d | d in gone :: HasPrefix(k, ClientKey(g, d));
  }

  ghost function WithoutKeys(kv: Store, gone: set<string>): Store {
    map k | k in kv && !(exists o | o in gone :: HasPrefix(k, o)) :: kv[k]
  }

  lemma WithoutOneKey(kv: Store, gone: set<string>, key: string)
    ensures WithoutKeys(kv, gone + {key}) ==
            map k | k in WithoutKeys(kv, gone) && !HasPrefix(k, key) :: WithoutKeys(kv, gone)[k]
  {
  }

  /** The subscriptions as read, each under the key its delete will use. */
  ghost predicate Loaded(g: Config, kv: Store, subs: map<string, Value>) {
    && (forall id | id in subs ::
          && subs[id].SubValue? && id == SubId(g, subs[id].topic, subs[id].client)
          && SubKey(g, subs[id].topic, subs[id].client) in kv
          && kv[SubKey(g, subs[id].topic, subs[id].client)] == subs[id])
    && (forall k | k in kv && HasPrefix(k, SubDir(g)) ::
          kv[k].SubValue? && SubId(g, kv[k].topic, kv[k].client) in subs)
  }

  /** Once every orphan's key was deleted, all orphans are gone. */
  lemma AllOrphansFound(g: Config, kv: Store, subs: map<string, Value>, clients: set<string>, gone: set<string>)
    requires StoreOk(g, kv) && Loaded(g, kv, subs) && forall id :: id in clients <==> ClientKey(g, id) in kv
    requires forall id | id in subs && subs[id].client !in clients :: SubKey(g, subs[id].topic, subs[id].client) in gone
    ensures forall o | Orphan(g, kv, o) :: o in gone
  {
    forall o | Orphan(g, kv, o)
      ensures o in gone
    {
      var id := SubId(g, kv[o].topic, kv[o].client);
      assert o == SubKey(g, kv[o].topic, kv[o].client);
      assert SubKey(g, subs[id].topic, subs[id].client) == SubDir(g) + ("/" + id) == o;
    }
  }

  lemma WithoutOrphans(g: Config, kv: Store, gone: set<string>)
    requires StoreOk(g, kv) && forall o :: o in gone <==> Orphan(g, kv, o)
    ensures WithoutKeys(kv, gone) == AfterSubs(g, kv)
  {
    assert forall o | o in gone :: o == SubKey(g, kv[o].topic, kv[o].client);
    assert forall k | k in kv :: SubHit(g, kv, k) <==> exists o | o in gone :: HasPrefix(k, o);
  }

  class Cluster {
    const store: EtcdStore
    const g: Config

    constructor (store: EtcdStore, g: Config)
      ensures this.store == store && this.g == g
    {
      this.store, this.g := store, g;
    }

    method StoreAddORUpdateClient(id: string, node: string)
      requires StoreOk(g, store.kv)
      modifies store
      ensures StoreOk(g, store.kv) && store.kv == old(store.kv)[ClientKey(g, id) := ClientValue(id, node)]
    {
      ClientPrefix(g, id, id);
      OtherDirs(g, ClientKey(g, id), "/clients", "/nodes");
      OtherDirs(g, ClientKey(g, id), "/clients", "/subscriptions");
      store.Put(ClientKey(g, id), ClientValue(id, node));
    }

    method StoreAddORUpdateSubscription(topic: string, client: string)
      requires ConfigOk(g) && StoreOk(g, store.kv)
      modifies store
      ensures StoreOk(g, store.kv) && store.kv == old(store.kv)[SubKey(g, topic, client) := SubValue(topic, client)]
    {
      SubPrefix(g, topic, client, topic, client);
      OtherDirs(g, SubKey(g, topic, client), "/subscriptions", "/nodes");
      OtherDirs(g, SubKey(g, topic, client), "/subscriptions", "/clients");
      store.Put(SubKey(g, topic, client), SubValue(topic, client));
    }

    method GetNodes() returns (nodes: set<string>)
      requires StoreOk(g, store.kv)
      ensures forall id :: id in nodes <==> NodeKey(g, id) in store.kv
    {
      var keys := store.All(NodeDir(g));
      nodes := {};
      var todo := keys;
      while todo != {}
        invariant todo <= keys
        invariant forall id :: id in nodes <==> exists k | k in keys - todo :: store.kv[k].id == id
      {
        var k :| k in todo;
        ghost var before := keys - todo;
        todo := todo - {k};
        assert keys - todo == before + {k};
        nodes := nodes + {store.kv[k].id};
      }
      forall id
        ensures id in nodes <==> NodeKey(g, id) in store.kv
      {
        NodeKeys(g, id, id);
        if NodeKey(g, id) in store.kv {
          NodeKeys(g, id, store.kv[NodeKey(g, id)].id);
          assert NodeKey(g, id) in keys - todo;
        }
      }
    }

    method GetClients() returns (clients: map<string, string>)
      requires StoreOk(g, store.kv)
      ensures forall id :: id in clients <==> ClientKey(g, id) in store.kv
      ensures forall id | id in clients :: store.kv[ClientKey(g, id)] == ClientValue(id, clients[id])
    {
      var keys := store.All(ClientDir(g));
      clients := map[];
      var todo := keys;
      while todo != {}
        invariant todo <= keys
        invariant forall id :: id in clients <==> exists k | k in keys - todo :: store.kv[k].id == id
        invariant forall id | id in clients ::
                    ClientKey(g, id) in store.kv && store.kv[ClientKey(g, id)] == ClientValue(id, clients[id])
      {
        var k :| k in todo;
        ghost var before := keys - todo;
        todo := todo - {k};
        assert keys - todo == before + {k};
        clients := clients[store.kv[k].id := store.kv[k].node];
      }
      forall id | ClientKey(g, id) in store.kv
        ensures id in clients
      {
        ClientPrefix(g, id, store.kv[ClientKey(g, id)].id);
        assert ClientKey(g, id) in keys - todo;
      }
    }

    /** By identifier. */
    method GetSubscriptions() returns (subs: map<string, Value>)
      requires StoreOk(g, store.kv)
      ensures Loaded(g, store.kv, subs)
    {
      var keys := store.All(SubDir(g));
      subs := map[];
      var todo := keys;
      while todo != {}
        invariant todo <= keys
        invariant forall id | id in subs ::
                    && subs[id].SubValue? && id == SubId(g, subs[id].topic, subs[id].client)
                    && SubKey(g, subs[id].topic, subs[id].client) in store.kv
                    && store.kv[SubKey(g, subs[id].topic, subs[id].client)] == subs[id]
        invariant forall k | k in keys && k !in todo :: SubId(g, store.kv[k].topic, store.kv[k].client) in subs
      {
        var k :| k in todo;
        todo := todo - {k};
        var v := store.kv[k];
        subs := subs[SubId(g, v.topic, v.client) := v];
      }
    }

    /** The first loop, in any order, with the changes it makes. */
    method RemoveDeadClients(nodes: set<string>, clients: map<string, string>) returns (change: bool)
      requires StoreOk(g, store.kv)
      requires forall id :: id in nodes <==> NodeKey(g, id) in store.kv
      requires forall id :: id in clients <==> ClientKey(g, id) in store.kv
      requires forall id | id in clients :: store.kv[ClientKey(g, id)] == ClientValue(id, clients[id])
      modifies store
      ensures store.kv == AfterClients(g, old(store.kv))
      ensures !change ==> store.kv == old(store.kv)
    {
      change := false;
      ghost var kv := store.kv;
      ghost var gone := {};
      var todo := clients.Keys;
      assert Without(g, kv, {}) == kv;
      while todo != {}
        invariant todo <= clients.Keys
        invariant forall d :: d in gone <==> d in clients && d !in todo && clients[d] !in nodes
        invariant store.kv == Without(g, kv, gone)
        invariant !change ==> gone == {}
      {
        var cid :| cid in todo;
        todo := todo - {cid};
        if clients[cid] !in nodes {
          WithoutOne(g, kv, gone, cid);
          store.Del(ClientKey(g, cid));
          gone := gone + {cid};
          change := true;
        }
      }
      assert forall d :: d in gone <==> Dead(g, kv, d);
      WithoutDead(g, kv, gone);
    }

    method RemoveOrphans(clients: map<string, string>, subs: map<string, Value>)
      requires StoreOk(g, store.kv)
      requires forall id :: id in clients <==> ClientKey(g, id) in store.kv
      requires Loaded(g, store.kv, subs)
      modifies store
      ensures store.kv == AfterSubs(g, old(store.kv))
    {
      ghost var kv := store.kv;
      ghost var gone := {};
      var todo := subs.Keys;
      assert WithoutKeys(kv, {}) == kv;
      while todo != {}
        invariant todo <= subs.Keys
        invariant forall o | o in gone :: Orphan(g, kv, o)
        invariant forall id | id in subs && id !in todo && subs[id].client !in clients ::
                    SubKey(g, subs[id].topic, subs[id].client) in gone
        invariant store.kv == WithoutKeys(kv, gone)
      {
        var id :| id in todo;
        todo := todo - {id};
        var v := subs[id];
        if v.client !in clients {
          var key := SubKey(g, v.topic, v.client);
          UnderSubDir(g, v.topic, v.client);
          WithoutOneKey(kv, gone, key);
          store.Del(key);
          gone := gone + {key};
        }
      }
      AllOrphansFound(g, kv, subs, clients.Keys, gone);
      WithoutOrphans(g, kv, gone);
    }

    /** One pass of the manager. */
    method ManagerPass()
      requires StoreOk(g, store.kv)
      modifies store
      ensures store.kv == Pass(g, old(store.kv))
    {
      var nodes := GetNodes();
      var clients := GetClients();
      var change := RemoveDeadClients(nodes, clients);
      assert StoreOk(g, store.kv);
      if change {
        clients := GetClients();
      }
      var subs := GetSubscriptions();
      RemoveOrphans(clients, subs);
    }
  }

  lemma UnderSubDir(g: Config, t: string, c: string)
    ensures HasPrefix(SubKey(g, t, c), SubDir(g))
  {
    PrefixUnder(SubDir(g), "/" + SubId(g, t, c), "");
    assert SubDir(g) + "" == SubDir(g);
  }
}
