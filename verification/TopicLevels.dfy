/** Topic names and filters: the broker's level splitter, the plain '/' split used by
    the client and the bridge, and the flat matching rule of section 4.7 of MQTT 3.1.1.
    A topic is a string whose characters stand for the bytes the program works on. */
module TopicLevels {

  datatype Option<+T> = None | Some(value: T)

  const MWC := "#"
  const SWC := "+"

  // ---------- the splitter ----------

  /** What one call of the splitter returns: a level and what follows it, or an error. */
  datatype Next = Level(level: string, rest: string) | Malformed

  predicate HasWildcard(s: string) {
    '#' in s || '+' in s
  }

  /** Index of the first separator, or the length when there is none. */
  function SepIndex(t: string): (n: nat)
    ensures n <= |t|
    ensures n < |t| ==> t[n] == '/'
    ensures '/' !in t[..n]
  {
    if t == "" then 0
    else if t[0] == '/' then 0
    else
      var n := SepIndex(t[1..]);
      assert t[..n + 1] == [t[0]] + t[1..][..n];
      n + 1
  }

  /** A level is acceptable when it is '+', a final '#', or free of wildcards. */
  predicate LevelOk(level: string, last: bool) {
    level == SWC || (level == MWC && last) || !HasWildcard(level)
  }

  /** The splitter, stated on the first level as a whole. */
  function NextLevel(topic: string): Next {
    var n := SepIndex(topic);
    if !LevelOk(topic[..n], n == |topic|) then Malformed
    else if n == |topic| then Level(topic, "")
    else if n == 0 then Level(SWC, topic[1..])
    else Level(topic[..n], topic[n + 1..])
  }

  lemma SepIndexUnique(t: string, i: nat)
    requires i <= |t| && '/' !in t[..i] && (i < |t| ==> t[i] == '/')
    ensures SepIndex(t) == i
  {
    var n := SepIndex(t);
    assert forall k | 0 <= k < i :: t[..i][k] == t[k] != '/';
    assert forall k | 0 <= k < n :: t[..n][k] == t[k] != '/';
  }

  datatype ScanState = Chr | Mwc | Swc

  /** The scan as written: one pass over the bytes with a small state. */
  method NextTopicLevel(topic: string) returns (r: Next)
    ensures r == NextLevel(topic)
  {
    var s := Chr;
    for i := 0 to |topic|
      invariant '/' !in topic[..i]
      invariant s == Mwc <==> topic[..i] == MWC
      invariant s == Swc <==> topic[..i] == SWC
      invariant s == Chr ==> !HasWildcard(topic[..i])
    {
      var c := topic[i];
      assert topic[..i + 1] == topic[..i] + [c];
      if c == '/' {
        SepIndexUnique(topic, i);
        if s == Mwc {
          return Malformed;
        }
        if i == 0 {
          return Level(SWC, topic[i + 1..]);
        }
        return Level(topic[..i], topic[i + 1..]);
      } else if c == '#' {
        if i != 0 {
          WildcardInside(topic, i);
          return Malformed;
        }
        s := Mwc;
      } else if c == '+' {
        if i != 0 {
          WildcardInside(topic, i);
          return Malformed;
        }
        s := Swc;
      } else {
        if s == Mwc || s == Swc {
          WildcardInside(topic, i);
          return Malformed;
        }
        s := Chr;
      }
    }
    assert topic[..|topic|] == topic;
    SepIndexUnique(topic, |topic|);
    return Level(topic, "");
  }

  /** A wildcard sharing its level with another byte spoils the level, wherever it ends. */
  lemma WildcardInside(topic: string, i: nat)
    requires 0 < i < |topic| && '/' !in topic[..i + 1]
    requires HasWildcard(topic[..i + 1])
    ensures NextLevel(topic) == Malformed
  {
    var n := SepIndex(topic);
    assert forall k | 0 <= k <= i :: topic[..i + 1][k] == topic[k] != '/';
    var level := topic[..n];
    assert topic[..i + 1] == level[..i + 1];
    assert HasWildcard(level) by {
      var k :| 0 <= k < i + 1 && (topic[..i + 1][k] == '#' || topic[..i + 1][k] == '+');
      assert level[k] == topic[k];
    }
    assert |level| > 1;
  }

  // ---------- levels ----------

  /** The levels of a topic: the splitter iterated until nothing remains. */
  function Levels(topic: string): Option<seq<string>>
    decreases |topic|
  {
    if topic == "" then Some([])
    else
      match NextLevel(topic)
      case Malformed => None
      case Level(level, rest) =>
        match Levels(rest)
        case None => None
        case Some(tail) => Some([level] + tail)
  }

  /** The levels the splitter yields before it stops or fails. */
  function GoodLevels(topic: string): seq<string>
    decreases |topic|
  {
    if topic == "" then []
    else
      match NextLevel(topic)
      case Malformed => []
      case Level(level, rest) => [level] + GoodLevels(rest)
  }

  /** '#' stands nowhere but last. */
  predicate HashLast(path: seq<string>) {
    forall i | 0 <= i < |path| - 1 :: path[i] != MWC
  }

  lemma {:induction false} LevelsHashLast(topic: string)
    requires Levels(topic).Some?
    ensures HashLast(Levels(topic).value)
    decreases |topic|
  {
    if topic != "" {
      var next := NextLevel(topic);
      LevelsHashLast(next.rest);
      var path := Levels(topic).value;
      forall i | 0 <= i < |path| - 1
        ensures path[i] != MWC
      {
        if i == 0 {
          assert next.rest != "";
        } else {
          assert path[i] == Levels(next.rest).value[i - 1];
        }
      }
    }
  }

  lemma {:induction false} GoodLevelsComplete(topic: string)
    requires Levels(topic).Some?
    ensures GoodLevels(topic) == Levels(topic).value
    decreases |topic|
  {
    if topic != "" {
      GoodLevelsComplete(NextLevel(topic).rest);
    }
  }

  // ---------- flat matching ----------

  /** The flat matching rule on split names. */
  predicate Match(route: seq<string>, topic: seq<string>)
    decreases |route|
  {
    if route == [] then topic == []
    else if topic == [] then route[0] == MWC
    else if route[0] == MWC then true
    else if route[0] == SWC || route[0] == topic[0] then Match(route[1..], topic[1..])
    else false
  }

  /** The first n levels agree, and there the names both end or the filter goes on with '#'. */
  predicate AgreeUpTo(route: seq<string>, topic: seq<string>, n: nat) {
    && n <= |route| && n <= |topic|
    && (forall i | 0 <= i < n :: route[i] != MWC && (route[i] == SWC || route[i] == topic[i]))
    && (if n == |route| then n == |topic| else route[n] == MWC)
  }

  /** What the rule means, position by position. */
  lemma {:induction false} MatchMeaning(route: seq<string>, topic: seq<string>)
    ensures Match(route, topic) <==> exists n: nat :: AgreeUpTo(route, topic, n)
    decreases |route|
  {
    if route == [] || topic == [] || route[0] == MWC {
      assert Match(route, topic) ==> AgreeUpTo(route, topic, 0);
    } else {
      MatchMeaning(route[1..], topic[1..]);
      if Match(route, topic) {
        var n: nat :| AgreeUpTo(route[1..], topic[1..], n);
        assert forall i | 0 < i < n + 1 :: route[i] == route[1..][i - 1] && topic[i] == topic[1..][i - 1];
        assert AgreeUpTo(route, topic, n + 1);
      }
      if n: nat :| AgreeUpTo(route, topic, n) {
        assert AgreeUpTo(route[1..], topic[1..], n - 1);
      }
    }
  }

  // ---------- the plain split ----------

  /** The plain split on '/': never empty, one part more than there are separators. */
  function Split(s: string): (parts: seq<string>)
    ensures |parts| > 0
    decreases |s|
  {
    var n := SepIndex(s);
    if n == |s| then [s] else [s[..n]] + Split(s[n + 1..])
  }

  predicate PartsOk(parts: seq<string>) {
    forall i | 0 <= i < |parts| :: LevelOk(parts[i], i == |parts| - 1)
  }

  /** What the splitter makes of the plain parts: an empty part becomes '+', and an empty
      last part disappears. */
  function Canonical(parts: seq<string>): seq<string> {
    if parts == [] || parts == [""] then []
    else [if parts[0] == "" then SWC else parts[0]] + Canonical(parts[1..])
  }

  lemma PartsOkStep(parts: seq<string>)
    requires |parts| > 1
    ensures PartsOk(parts) <==> LevelOk(parts[0], false) && PartsOk(parts[1..])
  {
    if PartsOk(parts) {
      assert forall i | 0 <= i < |parts[1..]| :: parts[1..][i] == parts[i + 1];
    }
    if LevelOk(parts[0], false) && PartsOk(parts[1..]) {
      assert forall i | 0 < i < |parts| :: parts[i] == parts[1..][i - 1];
    }
  }

  /** One call of the splitter on a string with a separator. */
  lemma NextLevelInside(s: string, n: nat)
    requires n == SepIndex(s) < |s|
    ensures NextLevel(s) == if LevelOk(s[..n], false) then Level(if n == 0 then SWC else s[..n], s[n + 1..]) else Malformed
  {
    assert n == 0 ==> s[n + 1..] == s[1..];
  }

  /** The splitter against the plain split, on every string. */
  lemma {:induction false} LevelsFromSplit(s: string)
    ensures Levels(s) == if PartsOk(Split(s)) then Some(Canonical(Split(s))) else None
    decreases |s|
  {
    var n := SepIndex(s);
    var parts := Split(s);
    if n == |s| {
      assert s[..n] == s && parts == [s];
      assert PartsOk(parts) <==> LevelOk(s, true);
      assert parts[1..] == [];
    } else {
      var rest := s[n + 1..];
      LevelsFromSplit(rest);
      assert parts[1..] == Split(rest) && parts[0] == s[..n];
      PartsOkStep(parts);
      NextLevelInside(s, n);
    }
  }

  predicate NoEmptyLevel(s: string) {
    "" !in Split(s)
  }

  lemma {:induction false} CanonicalFixed(parts: seq<string>)
    requires "" !in parts
    ensures Canonical(parts) == parts
  {
    if parts != [] {
      CanonicalFixed(parts[1..]);
      assert parts == [parts[0]] + parts[1..];
    }
  }

  lemma SplitFirst(level: string, rest: string)
    requires '/' !in level
    ensures Split(level + "/" + rest) == [level] + Split(rest)
  {
    var s := level + "/" + rest;
    assert s[..|level|] == level && s[|level|] == '/' && s[|level| + 1..] == rest;
    SepIndexUnique(s, |level|);
  }

  // ---------- the splitter's matching against the plain one ----------

  function Join(parts: seq<string>): string {
    if parts == [] then ""
    else if |parts| == 1 then parts[0]
    else parts[0] + "/" + Join(parts[1..])
  }

  predicate NoSeparator(parts: seq<string>) {
    forall i | 0 <= i < |parts| :: '/' !in parts[i]
  }

  lemma {:induction false} SplitJoin(parts: seq<string>)
    requires parts != [] && NoSeparator(parts)
    ensures Split(Join(parts)) == parts
    decreases |parts|
  {
    if |parts| == 1 {
      SepIndexUnique(parts[0], |parts[0]|);
      assert parts[0][..|parts[0]|] == parts[0];
    } else {
      SplitFirst(parts[0], Join(parts[1..]));
      SplitJoin(parts[1..]);
      assert parts == [parts[0]] + parts[1..];
    }
  }

  lemma {:induction false} SplitParts(s: string)
    ensures NoSeparator(Split(s))
    decreases |s|
  {
    var n := SepIndex(s);
    if n == |s| {
      assert s[..n] == s;
    } else {
      var parts, rest := Split(s), Split(s[n + 1..]);
      SplitParts(s[n + 1..]);
      assert parts == [s[..n]] + rest;
      assert forall i | 0 < i < |parts| :: parts[i] == rest[i - 1];
    }
  }

  /** Matching over the splitter's levels and over the plain parts gives the same answer. */
  predicate MatchAlike(filter: string, topic: string)
    requires Levels(filter).Some? && Levels(topic).Some?
  {
    Match(Levels(filter).value, Levels(topic).value) == Match(Split(filter), Split(topic))
  }

  predicate LastEmpty(s: string) {
    Split(s)[|Split(s)| - 1] == ""
  }

  /** Empty parts before the last do not matter to a filter that has none. */
  lemma {:induction false} CanonicalTopic(route: seq<string>, parts: seq<string>)
    requires "" !in route && (parts == [] || parts[|parts| - 1] != "")
    ensures Match(route, Canonical(parts)) == Match(route, parts)
    decreases |route|
  {
    if route != [] && parts != [] {
      assert parts != [""];
      assert Canonical(parts)[1..] == Canonical(parts[1..]);
      assert route[0] in route && route[0] != "";
      CanonicalTopic(route[1..], parts[1..]);
    }
  }

  /** On a filter without an empty level and a topic that does not end in one, matching over
      the splitter's levels is the client's and the bridge's matching over the plain split. */
  lemma MatchOnPlainNames(filter: string, topic: string)
    requires Levels(filter).Some? && Levels(topic).Some?
    requires NoEmptyLevel(filter) && !LastEmpty(topic)
    ensures MatchAlike(filter, topic)
  {
    LevelsFromSplit(filter);
    LevelsFromSplit(topic);
    CanonicalFixed(Split(filter));
    CanonicalTopic(Split(filter), Split(topic));
  }

  // A topic that ends in an empty level.

  lemma {:induction false} MatchSelf(names: seq<string>)
    ensures Match(names, names)
    decreases |names|
  {
    if names != [] {
      MatchSelf(names[1..]);
    }
  }

  lemma {:induction false} MatchLength(route: seq<string>, topic: seq<string>)
    requires MWC !in route && Match(route, topic)
    ensures |route| == |topic|
    decreases |route|
  {
    if route != [] {
      assert route[0] in route;
      MatchLength(route[1..], topic[1..]);
    }
  }

  /** What the splitter makes of acceptable parts that end in an empty one. */
  lemma CanonicalOpen(parts: seq<string>)
    requires parts != [] && PartsOk(parts) && NoSeparator(parts) && parts[|parts| - 1] == ""
    ensures var c := Canonical(parts);
            |c| == |parts| - 1 && "" !in c && MWC !in c && PartsOk(c) && NoSeparator(c)
  {
    if parts != [""] {
      CanonicalAt(parts);
      CanonicalShape(parts);
      forall i | 0 <= i < |parts| - 1
        ensures parts[i] != MWC
      {
        assert LevelOk(parts[i], false);
      }
    }
  }

  /** A filter without an empty level on which such a topic is read differently. */
  lemma OpenTopicDiffers(topic: string) returns (filter: string)
    requires Levels(topic).Some? && LastEmpty(topic)
    ensures Levels(filter).Some? && NoEmptyLevel(filter) && !MatchAlike(filter, topic)
  {
    var parts := Split(topic);
    SplitParts(topic);
    LevelsFromSplit(topic);
    CanonicalOpen(parts);
    var c := Canonical(parts);
    if c == [] {
      filter := Join([SWC]);
      PlainNames([SWC]);
      assert parts == [""];
      assert Match([SWC], [""]) by { assert Match([], []); }
    } else {
      filter := Join(c);
      PlainNames(c);
      MatchSelf(c);
      if Match(c, parts) {
        MatchLength(c, parts);
      }
    }
  }

  /** Exactly the topics on which both matchings agree for every filter without an empty
      level: those that do not end in one. */
  lemma TopicAlikeIff(topic: string)
    requires Levels(topic).Some?
    ensures (forall f | Levels(f).Some? && NoEmptyLevel(f) :: MatchAlike(f, topic)) <==> !LastEmpty(topic)
  {
    if LastEmpty(topic) {
      var f := OpenTopicDiffers(topic);
    } else {
      forall f | Levels(f).Some? && NoEmptyLevel(f)
        ensures MatchAlike(f, topic)
      {
        MatchOnPlainNames(f, topic);
      }
    }
  }

  // A filter with an empty level.

  /** A topic for the filter: its wildcards filled in. */
  function Filled(names: seq<string>): (t: seq<string>)
    ensures |t| == |names|
    ensures forall i | 0 <= i < |names| :: t[i] == if names[i] == SWC || names[i] == MWC then "a" else names[i]
  {
    seq(|names|, i requires 0 <= i < |names| => if names[i] == SWC || names[i] == MWC then "a" else names[i])
  }

  lemma {:induction false} MatchFilled(names: seq<string>)
    requires HashLast(names)
    ensures Match(names, Filled(names))
    decreases |names|
  {
    if names != [] {
      assert forall i | 0 <= i < |names[1..]| :: names[1..][i] == names[i + 1];
      MatchFilled(names[1..]);
      assert Filled(names)[1..] == Filled(names[1..]);
    }
  }

  /** What the splitter makes of parts, other than the one empty part. */
  lemma {:induction false} CanonicalAt(parts: seq<string>)
    requires parts != [] && parts != [""]
    ensures var c := Canonical(parts);
            && c != [] && |c| == |parts| - (if parts[|parts| - 1] == "" then 1 else 0)
            && (forall i | 0 <= i < |c| :: c[i] == if parts[i] == "" then SWC else parts[i])
    decreases |parts|
  {
    var c, rest := Canonical(parts), parts[1..];
    assert c == [c[0]] + Canonical(rest);
    if rest == [] || rest == [""] {
      assert Canonical(rest) == [];
      assert |parts| == 1 || parts == [parts[0], ""];
    } else {
      CanonicalAt(rest);
      assert forall i | 0 < i < |c| :: c[i] == Canonical(rest)[i - 1];
    }
  }

  lemma CanonicalShape(parts: seq<string>)
    requires parts != [] && parts != [""] && PartsOk(parts) && NoSeparator(parts)
    ensures var c := Canonical(parts); "" !in c && PartsOk(c) && NoSeparator(c)
  {
    CanonicalAt(parts);
    var c := Canonical(parts);
    forall i | 0 <= i < |c|
      ensures LevelOk(c[i], i == |c| - 1) && '/' !in c[i]
    {
      assert LevelOk(parts[i], i == |parts| - 1);
    }
  }

  lemma PartsHashLast(parts: seq<string>)
    requires PartsOk(parts)
    ensures HashLast(parts)
  {
    forall i | 0 <= i < |parts| - 1
      ensures parts[i] != MWC
    {
      assert LevelOk(parts[i], false);
    }
  }

  lemma FilledOk(names: seq<string>)
    requires "" !in names && PartsOk(names) && NoSeparator(names)
    ensures "" !in Filled(names) && PartsOk(Filled(names)) && NoSeparator(Filled(names))
  {
    assert forall i | 0 <= i < |names| :: names[i] in names;
  }

  /** Names that are acceptable, and none empty, are the levels and the parts of their join. */
  lemma PlainNames(names: seq<string>)
    requires names != [] && "" !in names && PartsOk(names) && NoSeparator(names)
    ensures Split(Join(names)) == names && Levels(Join(names)) == Some(names)
  {
    SplitJoin(names);
    LevelsFromSplit(Join(names));
    CanonicalFixed(names);
  }

  /** An empty part is met before anything that could end the comparison early. */
  lemma {:induction false} EmptyPartFails(parts: seq<string>, topic: seq<string>)
    requires parts != [] && PartsOk(parts) && "" in parts && "" !in topic && |topic| <= |parts|
    ensures !Match(parts, topic)
    decreases |parts|
  {
    if topic != [] && parts[0] != "" {
      assert topic[0] in topic;
      var rest := parts[1..];
      assert parts == [parts[0]] + rest;
      assert forall i | 0 <= i < |rest| :: rest[i] == parts[i + 1];
      assert "" in rest;
      assert LevelOk(parts[0], false);
      assert parts[0] != MWC;
      EmptyPartFails(rest, topic[1..]);
    } else if topic != [] {
      assert topic[0] in topic;
    } else {
      assert LevelOk(parts[0], |parts| == 1);
    }
  }

  /** A topic without an empty level on which a filter with one is read differently. */
  lemma EmptyFilterDiffers(filter: string) returns (topic: string)
    requires filter != "" && Levels(filter).Some? && !NoEmptyLevel(filter)
    ensures Levels(topic).Some? && NoEmptyLevel(topic) && !MatchAlike(filter, topic)
  {
    var parts := Split(filter);
    SplitParts(filter);
    LevelsFromSplit(filter);
    OneEmptyPart(filter);
    CanonicalAt(parts);
    CanonicalShape(parts);
    var c := Canonical(parts);
    PartsHashLast(c);
    FilledOk(c);
    PlainNames(Filled(c));
    MatchFilled(c);
    EmptyPartFails(parts, Filled(c));
    topic := Join(Filled(c));
  }

  lemma OneEmptyPart(s: string)
    requires s != ""
    ensures Split(s) != [""]
  {
    assert s[..|s|] == s;
  }

  /** Exactly the filters on which both matchings agree for every topic without an empty
      level: those that have none themselves. */
  lemma FilterAlikeIff(filter: string)
    requires filter != "" && Levels(filter).Some?
    ensures (forall t | Levels(t).Some? && NoEmptyLevel(t) :: MatchAlike(filter, t)) <==> NoEmptyLevel(filter)
  {
    if !NoEmptyLevel(filter) {
      var t := EmptyFilterDiffers(filter);
    } else {
      forall t | Levels(t).Some? && NoEmptyLevel(t)
        ensures MatchAlike(filter, t)
      {
        assert Split(t)[|Split(t)| - 1] in Split(t);
        MatchOnPlainNames(filter, t);
      }
    }
  }

  /** With an empty level the two disagree: the filter "/x" reaches "a/x" through the
      splitter, and not through the plain split. */
  lemma EmptyLevelDisagrees()
    ensures Levels("/x") == Some(["+", "x"]) && Levels("a/x") == Some(["a", "x"])
    ensures Match(Levels("/x").value, Levels("a/x").value)
    ensures !Match(Split("/x"), Split("a/x"))
  {
    SepIndexUnique("/x", 0);
    SepIndexUnique("a/x", 1);
    SepIndexUnique("x", 1);
    assert "/x"[1..] == "x" && "a/x"[2..] == "x" && "a/x"[..1] == "a" && "/x"[..0] == "";
    assert "x"[..1] == "x";
    assert NextLevel("x") == Level("x", "");
    assert ["x"] + [] == ["x"];
    assert Levels("") == Some([]);
    assert Levels("x") == Some(["x"]);
    assert NextLevel("/x") == Level("+", "x") && NextLevel("a/x") == Level("a", "x");
    assert ["+"] + ["x"] == ["+", "x"] && ["a"] + ["x"] == ["a", "x"];
    assert Split("x") == ["x"];
    assert Split("/x") == ["", "x"] && Split("a/x") == ["a", "x"];
    assert ["+", "x"][1..] == ["x"] && ["a", "x"][1..] == ["x"];
    assert Match(["x"], ["x"]);
  }

  // ---------- shared subscriptions ----------

  const SHARE := "$share/"

  predicate GroupChar(c: char) {
    '0' <= c <= '9' || 'a' <= c <= 'z' || 'A' <= c <= 'Z' || c == '_' || c == '-'
  }

  predicate HasPrefix(s: string, prefix: string) {
    |prefix| <= |s| && s[..|prefix|] == prefix
  }

  /** How the broker reads a subscription topic: a filter, possibly behind a group name.
      None is the rejected case: the share prefix without a well-formed group. */
  datatype Target = Target(share: bool, group: string, filter: string)

  function ParseTarget(topic: string): Option<Target> {
    if !HasPrefix(topic, SHARE) then Some(Target(false, "", topic))
    else
      var body := topic[|SHARE|..];
      var n := SepIndex(body);
      if 0 < n < |body| && (forall i | 0 <= i < n :: GroupChar(body[i])) && '\n' !in body[n + 1..]
      then Some(Target(true, body[..n], body[n + 1..]))
      else None
  }

  /** One or more letters, digits, '_' or '-'. */
  predicate GroupName(g: string) {
    g != "" && forall i | 0 <= i < |g| ::
                 '0' <= g[i] <= '9' || 'a' <= g[i] <= 'z' || 'A' <= g[i] <= 'Z' || g[i] == '_' || g[i] == '-'
  }

  /** The topic shares the filter in the group. */
  ghost predicate SharesIn(topic: string, g: string, f: string) {
    topic == "$share/" + (g + "/" + f) && GroupName(g) && '\n' !in f
  }

  lemma ParseShared(topic: string, g: string, f: string)
    requires SharesIn(topic, g, f)
    ensures ParseTarget(topic) == Some(Target(true, g, f))
  {
    var body := g + "/" + f;
    assert topic[..7] == "$share/" && topic[7..] == body;
    assert body[..|g|] == g && body[|g|] == '/' && body[|g| + 1..] == f;
    assert '/' !in g;
    SepIndexUnique(body, |g|);
    assert forall i | 0 <= i < |g| :: body[i] == g[i] && GroupChar(g[i]);
  }

  lemma ParsedShares(topic: string)
    requires HasPrefix(topic, "$share/") && ParseTarget(topic).Some?
    ensures SharesIn(topic, ParseTarget(topic).value.group, ParseTarget(topic).value.filter)
  {
    var body := topic[7..];
    var n := SepIndex(body);
    assert topic == "$share/" + body;
    assert body == body[..n] + "/" + body[n + 1..];
    assert forall i | 0 <= i < n :: body[..n][i] == body[i];
  }

  /** How a subscription topic is read, in full: behind "$share/", a group and a filter in that
      group, or nothing at all; and any other topic as it stands, in no group. */
  lemma ParseTargetExact(topic: string)
    ensures !HasPrefix(topic, "$share/") ==> ParseTarget(topic) == Some(Target(false, "", topic))
    ensures forall g, f | SharesIn(topic, g, f) :: ParseTarget(topic) == Some(Target(true, g, f))
    ensures HasPrefix(topic, "$share/") ==> (ParseTarget(topic).Some? <==> exists g, f :: SharesIn(topic, g, f))
  {
    forall g, f | SharesIn(topic, g, f)
      ensures ParseTarget(topic) == Some(Target(true, g, f))
    {
      ParseShared(topic, g, f);
    }
    if HasPrefix(topic, "$share/") && ParseTarget(topic).Some? {
      ParsedShares(topic);
    }
  }

  /** The client's way to drop the share prefix from a route. None is the index panic. */
  function RouteSplit(route: string): Option<seq<string>> {
    if !HasPrefix(route, "$share") then Some(Split(route))
    else if |Split(route)| < 2 then None
    else Some(Split(route)[2..])
  }

  /** Of a topic the broker accepts, both ends keep the same levels if and only if it does not
      begin with "$share" without being shared. */
  lemma ShareStripsAlikeIff(topic: string)
    requires ParseTarget(topic).Some?
    ensures RouteSplit(topic) == Some(Split(ParseTarget(topic).value.filter)) <==>
            HasPrefix(topic, SHARE) || !HasPrefix(topic, "$share")
  {
    if HasPrefix(topic, SHARE) {
      SharedStrips(topic);
    }
  }

  lemma TwoLevelsOff(a: string, g: string, rest: string)
    requires '/' !in a && '/' !in g
    ensures |Split(a + "/" + (g + "/" + rest))| >= 2 && Split(a + "/" + (g + "/" + rest))[2..] == Split(rest)
  {
    SplitFirst(a, g + "/" + rest);
    SplitFirst(g, rest);
    DropTwo(a, g, Split(rest));
  }

  lemma DropTwo(x: string, y: string, more: seq<string>)
    ensures |[x] + ([y] + more)| >= 2 && ([x] + ([y] + more))[2..] == more
  {
  }

  /** A shared topic in its three parts. */
  lemma SharedParts(topic: string, t: Target)
    requires ParseTarget(topic) == Some(t) && HasPrefix(topic, SHARE)
    ensures '/' !in t.group && topic == "$share" + "/" + (t.group + "/" + t.filter) && HasPrefix(topic, "$share")
  {
    var body := topic[|SHARE|..];
    assert body == t.group + "/" + t.filter;
    assert "$share" + "/" == SHARE;
    assert topic == SHARE + body;
    assert topic[..6] == "$share";
  }

  lemma SharedStrips(topic: string)
    requires ParseTarget(topic).Some? && HasPrefix(topic, SHARE)
    ensures RouteSplit(topic) == Some(Split(ParseTarget(topic).value.filter))
  {
    var t := ParseTarget(topic).value;
    SharedParts(topic, t);
    TwoLevelsOff("$share", t.group, t.filter);
  }

  /** Two topics on which the ends differ: on the first the client's way fails altogether. */
  lemma ShareStripsDiffer()
    ensures ParseTarget("$share").Some? && RouteSplit("$share") == None
    ensures ParseTarget("$shared/b").Some? && RouteSplit("$shared/b") != Some(Split(ParseTarget("$shared/b").value.filter))
  {
    assert "$share"[..6] == "$share";
    SepIndexUnique("$share", 6);
    var t := "$shared/b";
    assert t[..6] == "$share";
    assert t[..7][6] == 'd' && SHARE[6] == '/';
    assert !HasPrefix(t, SHARE) && ParseTarget(t).Some?;
    ShareStripsAlikeIff(t);
  }
}
