/** The client's packet identifiers: the wrap-around allocator, and the index from
    identifiers to the tokens that wait for an acknowledgement. */
module MessageIds {
  import opened TopicLevels

  const MID_MAX := 65535

  /** A 16-bit packet identifier; 0 is never issued. */
  type Id = x: int | 0 <= x <= 65535

  // ---------- the allocator ----------

  /** The k-th candidate after the last issued identifier: up to the maximum, then from 1. */
  function Candidate(last: Id, k: nat): (i: Id)
    requires 1 <= k <= MID_MAX
    ensures i != 0
  {
    if last + k <= MID_MAX then last + k else last + k - MID_MAX
  }

  /** Every identifier is a candidate, at one distance only. */
  lemma CandidatesCover(last: Id, i: Id)
    requires i != 0
    ensures var k := if i > last then i - last else i - last + MID_MAX;
            1 <= k <= MID_MAX && Candidate(last, k) == i
            && forall j: nat | 1 <= j <= MID_MAX && Candidate(last, j) == i :: j == k
  {
  }

  /** First candidate not in use from distance k on; 0 when there is none. */
  function FreeFrom(used: set<Id>, last: Id, k: nat): Id
    requires k >= 1
    decreases MID_MAX + 1 - k
  {
    if k > MID_MAX then 0
    else if Candidate(last, k) !in used then Candidate(last, k)
    else FreeFrom(used, last, k + 1)
  }

  function NextId(used: set<Id>, last: Id): Id {
    FreeFrom(used, last, 1)
  }

  lemma {:induction false} FreeFromSkips(used: set<Id>, last: Id, k: nat, n: nat)
    requires 1 <= k <= n <= MID_MAX + 1
    requires forall j | k <= j < n :: Candidate(last, j) in used
    ensures FreeFrom(used, last, k) == FreeFrom(used, last, n)
    decreases n - k
  {
    if k < n {
      FreeFromSkips(used, last, k + 1, n);
    }
  }

  lemma {:induction false} FreeFromFound(used: set<Id>, last: Id, k: nat)
    requires 1 <= k <= MID_MAX + 1
    ensures var r := FreeFrom(used, last, k);
            if r == 0 then forall j | k <= j <= MID_MAX :: Candidate(last, j) in used
            else r !in used && exists n :: k <= n <= MID_MAX && r == Candidate(last, n)
                                           && forall j | k <= j < n :: Candidate(last, j) in used
    decreases MID_MAX + 1 - k
  {
    if k <= MID_MAX && Candidate(last, k) in used {
      FreeFromFound(used, last, k + 1);
      var r := FreeFrom(used, last, k);
      if r != 0 {
        var n :| k + 1 <= n <= MID_MAX && r == Candidate(last, n) && forall j | k + 1 <= j < n :: Candidate(last, j) in used;
        assert forall j | k <= j < n :: Candidate(last, j) in used;
      }
    }
  }

  /** The allocator, exactly: 0 if and only if 1..65535 are all in use, and otherwise the
      first free identifier in cyclic order after the last issued one. */
  lemma NextIdExact(used: set<Id>, last: Id)
    ensures NextId(used, last) == 0 <==> forall i: Id | i != 0 :: i in used
    ensures NextId(used, last) != 0 ==>
      && NextId(used, last) !in used
      && exists n :: 1 <= n <= MID_MAX && NextId(used, last) == Candidate(last, n)
                     && forall j | 1 <= j < n :: Candidate(last, j) in used
  {
    FreeFromFound(used, last, 1);
    if NextId(used, last) == 0 {
      forall i: Id | i != 0
        ensures i in used
      {
        CandidatesCover(last, i);
      }
    }
  }

  // ---------- tokens ----------

  datatype Kind = Publish | Subscribe | Unsubscribe | PlaceHolder

  datatype Token = Token(kind: Kind, complete: bool, err: Option<string>)

  /** Waiting on the token returns. A placeholder never makes anybody wait. */
  predicate Done(t: Token) {
    t.complete || t.kind == PlaceHolder
  }

  function FlowComplete(t: Token): Token {
    if t.kind == PlaceHolder then t else t.(complete := true)
  }

  function SetError(t: Token, e: string): Token {
    if t.kind == PlaceHolder then t else t.(complete := true, err := Some(e))
  }

  function LostMessage(k: Kind): string {
    match k
    case Publish => "connection lost before Publish completed"
    case Subscribe => "connection lost before Subscribe completed"
    case Unsubscribe => "connection lost before Unsubscribe completed"
    case PlaceHolder => ""
  }

  /** What the waiter of a token sees after an acknowledgement: no error that was not there. */
  ghost function Finished(t: Token): Token {
    Token(t.kind, t.complete || t.kind != PlaceHolder, t.err)
  }

  /** What the waiter of a token sees after the connection is lost. */
  ghost predicate IsLost(was: Token, t: Token) {
    && (was.kind == Publish ==> t == Token(Publish, true, Some("connection lost before Publish completed")))
    && (was.kind == Subscribe ==> t == Token(Subscribe, true, Some("connection lost before Subscribe completed")))
    && (was.kind == Unsubscribe ==> t == Token(Unsubscribe, true, Some("connection lost before Unsubscribe completed")))
    && (was.kind == PlaceHolder ==> t == was)
  }

  /** Token objects by address, and the index that refers to them. */
  datatype Ids = Ids(index: map<Id, nat>, last: Id, tokens: map<nat, Token>)

  ghost predicate IdsOk(s: Ids) {
    forall id | id in s.index :: s.index[id] in s.tokens
  }

  function Complete(s: Ids, t: nat): Ids {
    if t in s.tokens then s.(tokens := s.tokens[t := FlowComplete(s.tokens[t])]) else s
  }

  /** Where an identifier is handed out to a token. */
  function Place(s: Ids, t: nat, id: Id): Ids {
    s.(index := s.index[id := t], last := id)
  }

  function Claim(s: Ids, t: nat, id: Id): Ids {
    var s1 := if id in s.index then Complete(s, s.index[id]) else s;
    s1.(index := s1.index[id := t], last := if id > s.last then id else s.last)
  }

  function Free(s: Ids, id: Id): Ids {
    s.(index := s.index - {id})
  }

  /** The first half of handling an acknowledgement: complete the token found. */
  function Lookup(s: Ids, id: Id): Ids {
    if id in s.index then Complete(s, s.index[id]) else s
  }

  function Fail(t: Token): Token {
    SetError(t, LostMessage(t.kind))
  }

  function CleanUp(s: Ids): Ids {
    Ids(map[], s.last, map t | t in s.tokens :: if t in s.index.Values then Fail(s.tokens[t]) else s.tokens[t])
  }

  predicate IsSub(s: Ids, t: nat) {
    t in s.tokens && (s.tokens[t].kind == Subscribe || s.tokens[t].kind == Unsubscribe)
  }

  function CleanUpSubscribe(s: Ids): Ids {
    Ids(map id | id in s.index && !IsSub(s, s.index[id]) :: s.index[id], s.last,
        map t | t in s.tokens :: if t in s.index.Values && IsSub(s, t) then Fail(s.tokens[t]) else s.tokens[t])
  }

  class MessageIdTable {
    var index: map<Id, nat>
    var lastIssuedID: Id
    var tokens: map<nat, Token>

    ghost function State(): Ids
      reads this
    {
      Ids(index, lastIssuedID, tokens)
    }

    constructor ()
      ensures State() == Ids(map[], 0, map[])
    {
      index, lastIssuedID, tokens := map[], 0, map[];
    }

    /** One more, on 16 bits, passing over zero. */
    method Advance(i: Id, looped: bool) returns (j: Id, wrapped: bool)
      ensures j == if i == MID_MAX then 1 else i + 1
      ensures wrapped == (looped || i == MID_MAX)
    {
      j, wrapped := (i + 1) % 65536, looped;
      if j == 0 {
        j := (j + 1) % 65536;
        wrapped := true;
      }
    }

    /** The search as written, on 16-bit arithmetic. It takes at most 65535 rounds. */
    method GetID(t: nat) returns (id: Id, ghost rounds: nat)
      modifies this
      ensures id == NextId(old(index.Keys), old(lastIssuedID))
      ensures State() == if id == 0 then old(State()) else Place(old(State()), t, id)
      ensures rounds <= MID_MAX
    {
      var i: Id := lastIssuedID;
      var looped := false;
      rounds := 0;
      while true
        invariant rounds < MID_MAX
        invariant State() == old(State())
        invariant i == if rounds == 0 then lastIssuedID else Candidate(lastIssuedID, rounds)
        invariant looped <==> lastIssuedID + rounds > MID_MAX
        invariant forall j | 1 <= j <= rounds :: Candidate(lastIssuedID, j) in index
        decreases MID_MAX - rounds
      {
        i, looped := Advance(i, looped);
        rounds := rounds + 1;
        FreeFromSkips(index.Keys, lastIssuedID, 1, rounds);
        if i !in index {
          index := index[i := t];
          lastIssuedID := i;
          return i, rounds;
        }
        if (looped && i == lastIssuedID) || (lastIssuedID == 0 && i == MID_MAX) {
          assert rounds == MID_MAX;
          assert FreeFrom(index.Keys, lastIssuedID, MID_MAX + 1) == 0;
          return 0, rounds;
        }
      }
    }

    method FlowCompleteToken(t: nat)
      modifies this`tokens
      ensures State() == Complete(old(State()), t)
    {
      if t in tokens && tokens[t].kind != PlaceHolder {
        tokens := tokens[t := tokens[t].(complete := true)];
      } else if t in tokens {
        assert tokens[t := tokens[t]] == tokens;
      }
    }

    method ClaimID(t: nat, id: Id)
      modifies this
      ensures State() == Claim(old(State()), t, id)
      ensures index == old(index)[id := t] && lastIssuedID >= old(lastIssuedID) && lastIssuedID >= id
      ensures lastIssuedID in {old(lastIssuedID), id}
      ensures forall u | u in old(tokens) ::
        tokens[u] == if id in old(index) && old(index[id]) == u then Finished(old(tokens)[u]) else old(tokens)[u]
    {
      if id !in index {
        index := index[id := t];
      } else {
        FlowCompleteToken(index[id]);
        index := index[id := t];
      }
      if id > lastIssuedID {
        lastIssuedID := id;
      }
    }

    method FreeID(id: Id)
      modifies this
      ensures State() == Free(old(State()), id)
    {
      index := index - {id};
    }

    /** The two halves of an acknowledgement: the token waiting under the identifier is
        completed, and the identifier freed; a stray one completes nobody. */
    method HandleAck(id: Id)
      requires IdsOk(State())
      modifies this
      ensures State() == Free(Lookup(old(State()), id), id)
      ensures IdsOk(State()) && index == old(index) - {id} && lastIssuedID == old(lastIssuedID)
      ensures tokens.Keys == old(tokens).Keys
      ensures forall u | u in tokens ::
        tokens[u] == if id in old(index) && old(index[id]) == u then Finished(old(tokens)[u]) else old(tokens)[u]
    {
      if id in index {
        FlowCompleteToken(index[id]);
      }
      FreeID(id);
    }

    /** Every waiting token fails, in any order, and the index starts afresh. */
    method CleanUpAll()
      requires IdsOk(State())
      modifies this
      ensures State() == CleanUp(old(State()))
      ensures index == map[] && lastIssuedID == old(lastIssuedID) && tokens.Keys == old(tokens).Keys
      ensures forall t | t in tokens && t in old(index.Values) :: IsLost(old(tokens)[t], tokens[t])
      ensures forall t | t in tokens && t !in old(index.Values) :: tokens[t] == old(tokens)[t]
    {
      var todo := index.Values;
      while todo != {}
        invariant todo <= index.Values && index == old(index) && lastIssuedID == old(lastIssuedID)
        invariant tokens == map t | t in old(tokens) ::
                    if t in index.Values - todo then Fail(old(tokens)[t]) else old(tokens)[t]
      {
        var t :| t in todo;
        assert t in tokens;
        todo := todo - {t};
        tokens := tokens[t := Fail(tokens[t])];
      }
      index := map[];
    }

    /** Waiting subscribe and unsubscribe tokens fail and leave the index, in any order. */
    method CleanUpSubscribes()
      requires IdsOk(State())
      modifies this
      ensures State() == CleanUpSubscribe(old(State()))
      ensures lastIssuedID == old(lastIssuedID) && tokens.Keys == old(tokens).Keys
      ensures forall id :: id in index <==> id in old(index) && old(tokens)[old(index)[id]].kind in {Publish, PlaceHolder}
      ensures forall id | id in index :: index[id] == old(index)[id]
      ensures forall t | t in tokens && t in old(index.Values) && old(tokens)[t].kind in {Subscribe, Unsubscribe} ::
        IsLost(old(tokens)[t], tokens[t])
      ensures forall t | t in tokens && !(t in old(index.Values) && old(tokens)[t].kind in {Subscribe, Unsubscribe}) ::
        tokens[t] == old(tokens)[t]
    {
      ghost var start := State();
      var todo := index.Keys;
      while todo != {}
        invariant todo <= index.Keys
        invariant PartlyClean(start, State(), todo)
      {
        var id :| id in todo;
        var t := index[id];
        ghost var before := State();
        if tokens[t].kind == Subscribe || tokens[t].kind == Unsubscribe {
          tokens := tokens[t := SetError(tokens[t], LostMessage(tokens[t].kind))];
          index := index - {id};
        }
        CleanOne(start, before, State(), todo, id);
        todo := todo - {id};
      }
      CleanEnd(start, State());
    }
  }

  /** The subscription clean-up with the identifiers in `todo` still to come. */
  ghost predicate PartlyClean(start: Ids, s: Ids, todo: set<Id>) {
    && IdsOk(start) && todo <= start.index.Keys && s.last == start.last && s.tokens.Keys == start.tokens.Keys
    && (forall id :: id in s.index <==> id in start.index && (id in todo || !IsSub(start, start.index[id])))
    && (forall id | id in s.index :: s.index[id] == start.index[id])
    && (forall t | t in s.tokens :: s.tokens[t] == start.tokens[t] || (IsSub(start, t) && t in start.index.Values && s.tokens[t] == Fail(start.tokens[t])))
    && (forall id | id in start.index && id !in todo && IsSub(start, start.index[id]) ::
          s.tokens[start.index[id]] == Fail(start.tokens[start.index[id]]))
  }

  lemma CleanOne(start: Ids, s: Ids, r: Ids, todo: set<Id>, id: Id)
    requires PartlyClean(start, s, todo) && id in todo && id in s.index
    requires
      var t := s.index[id];
      t in s.tokens && r == if IsSub(s, t) then Ids(s.index - {id}, s.last, s.tokens[t := Fail(s.tokens[t])]) else s
    ensures PartlyClean(start, r, todo - {id})
  {
    if IsSub(s, s.index[id]) {
      CleanSub(start, s, r, todo, id);
    }
  }

  lemma CleanSub(start: Ids, s: Ids, r: Ids, todo: set<Id>, id: Id)
    requires PartlyClean(start, s, todo) && id in todo && id in s.index
    requires s.index[id] in s.tokens && IsSub(s, s.index[id])
    requires r == Ids(s.index - {id}, s.last, s.tokens[s.index[id] := Fail(s.tokens[s.index[id]])])
    ensures PartlyClean(start, r, todo - {id})
  {
    var t := s.index[id];
    assert t == start.index[id] && IsSub(start, t);
    assert r.tokens[t] == Fail(start.tokens[t]);
  }

  lemma CleanEnd(start: Ids, s: Ids)
    requires PartlyClean(start, s, {})
    ensures s == CleanUpSubscribe(start)
  {
    forall t | t in start.tokens && t in start.index.Values && IsSub(start, t)
      ensures s.tokens[t] == Fail(start.tokens[t])
    {
      var id :| id in start.index && start.index[id] == t;
    }
    assert s.index == CleanUpSubscribe(start).index;
    assert s.tokens == CleanUpSubscribe(start).tokens;
  }

  // ---------- whole runs ----------

  /** The table over time. An acknowledgement is handled in two locked sections: looking the
      token up, and freeing the identifier; `acking` is the identifier in between. `placed`
      remembers every token ever put in the index, and `late` those put there for an
      identifier that was being freed. */
  datatype World = World(ids: Ids, acking: Option<Id>, placed: set<(Id, nat)>, late: set<nat>)

  datatype Step =
    | Issue(t: nat, kind: Kind)
    | Reclaim(t: nat, kind: Kind, id: Id)
    | AckLookup(id: Id)
    | AckFree
    | Timeout(t: nat, e: string)
    | LoseAll
    | LoseSubs

  ghost predicate Enabled(w: World, step: Step) {
    match step
    case Issue(t, _) => t !in w.ids.tokens
    case Reclaim(t, _, id) => t !in w.ids.tokens && id != 0
    case AckLookup(_) => w.acking.None?
    case AckFree => w.acking.Some?
    case Timeout(t, _) => t in w.ids.tokens
    case LoseAll => true
    case LoseSubs => true
  }

  function NewToken(s: Ids, t: nat, kind: Kind): Ids {
    s.(tokens := s.tokens[t := Token(kind, false, None)])
  }

  function Record(w: World, ids: Ids, t: nat, id: Id): World {
    World(ids, w.acking, w.placed + {(id, t)}, if w.acking == Some(id) then w.late + {t} else w.late)
  }

  ghost function Next(w: World, step: Step): World
    requires Enabled(w, step)
  {
    match step
    case Issue(t, kind) =>
      var id := NextId(w.ids.index.Keys, w.ids.last);
      var s := NewToken(w.ids, t, kind);
      if id == 0 then w.(ids := s) else Record(w, Place(s, t, id), t, id)
    case Reclaim(t, kind, id) => Record(w, Claim(NewToken(w.ids, t, kind), t, id), t, id)
    case AckLookup(id) => w.(ids := Lookup(w.ids, id), acking := Some(id))
    case AckFree => w.(ids := Free(w.ids, w.acking.value), acking := None)
    case Timeout(t, e) => w.(ids := w.ids.(tokens := w.ids.tokens[t := SetError(w.ids.tokens[t], e)]))
    case LoseAll => w.(ids := CleanUp(w.ids))
    case LoseSubs => w.(ids := CleanUpSubscribe(w.ids))
  }

  const START := World(Ids(map[], 0, map[]), None, {}, {})

  ghost predicate IsRun(ws: seq<World>, steps: seq<Step>) {
    && |ws| == |steps| + 1 && ws[0] == START
    && forall i | 0 <= i < |steps| :: Enabled(ws[i], steps[i]) && ws[i + 1] == Next(ws[i], steps[i])
  }

  /** Still waiting under its identifier, or completed. */
  ghost predicate Accounted(w: World, id: Id, t: nat) {
    || (id in w.ids.index && w.ids.index[id] == t)
    || (t in w.ids.tokens && Done(w.ids.tokens[t]))
  }

  ghost predicate Inv(w: World) {
    && IdsOk(w.ids)
    && (forall p | p in w.placed :: p.1 in w.ids.tokens && (Accounted(w, p.0, p.1) || p.1 in w.late))
    && (w.acking.Some? && w.acking.value in w.ids.index ==>
          var t := w.ids.index[w.acking.value]; Done(w.ids.tokens[t]) || t in w.late)
  }

  lemma StepKeepsInv(w: World, step: Step)
    requires Inv(w) && Enabled(w, step)
    ensures Inv(Next(w, step))
  {
    match step
    case Issue(_, _) => NextIdExact(w.ids.index.Keys, w.ids.last);
    case LoseAll => CleanUpKeepsInv(w);
    case LoseSubs => CleanSubsKeepsInv(w);
    case _ =>
  }

  lemma CleanUpKeepsInv(w: World)
    requires Inv(w)
    ensures Inv(w.(ids := CleanUp(w.ids)))
  {
  }

  lemma CleanSubsKeepsInv(w: World)
    requires Inv(w)
    ensures Inv(w.(ids := CleanUpSubscribe(w.ids)))
  {
  }

  lemma {:induction false} RunKeepsInv(ws: seq<World>, steps: seq<Step>, i: nat)
    requires IsRun(ws, steps) && i < |ws|
    ensures Inv(ws[i])
  {
    if i > 0 {
      RunKeepsInv(ws, steps, i - 1);
      StepKeepsInv(ws[i - 1], steps[i - 1]);
    }
  }

  /** Over every sequence of claims, acknowledgements, timeouts, losses and clean-ups, a token
      ever placed is still in the index under its identifier or has been completed, unless
      it was placed for an identifier that was just being freed. */
  lemma NoTokenIsLost(ws: seq<World>, steps: seq<Step>, i: nat, id: Id, t: nat)
    requires IsRun(ws, steps) && i < |ws|
    requires (id, t) in ws[i].placed && t !in ws[i].late
    ensures Accounted(ws[i], id, t)
  {
    RunKeepsInv(ws, steps, i);
    var p := (id, t);
    assert p in ws[i].placed;
  }

  /** What a new token gets: the next free identifier, if there is one, or the one it claims;
      nobody else's place moves. */
  lemma PlacesExactly(w: World, step: Step)
    requires IdsOk(w.ids) && Enabled(w, step) && (step.Issue? || step.Reclaim?)
    ensures var d := Next(w, step);
            && step.t in d.ids.tokens && d.ids.tokens[step.t] == Token(step.kind, false, None)
            && if step.Issue? && forall i: Id | i != 0 :: i in w.ids.index then d.ids.index == w.ids.index && d.placed == w.placed
               else exists id: Id | id != 0 && (step.Issue? ==> id !in w.ids.index) && (step.Reclaim? ==> id == step.id) ::
                      d.ids.index == w.ids.index[id := step.t] && d.placed == w.placed + {(id, step.t)}
  {
    NextIdExact(w.ids.index.Keys, w.ids.last);
  }

  /** A step that finishes token t as a success: an acknowledgement finds it in the index, or
      a claim of its identifier displaces it. */
  ghost predicate Succeeds(w: World, step: Step, t: nat) {
    (step.AckLookup? || step.Reclaim?) && step.id in w.ids.index && w.ids.index[step.id] == t
  }

  /** A step that fails token t with the error e. */
  ghost predicate Fails(w: World, step: Step, t: nat, e: string) {
    match step
    case Timeout(u, why) => u == t && why == e
    case LoseAll => t in w.ids.index.Values && t in w.ids.tokens && LostWith(w.ids.tokens[t].kind, e)
    case LoseSubs => t in w.ids.index.Values && IsSub(w.ids, t) && LostWith(w.ids.tokens[t].kind, e)
    case _ => false
  }

  ghost predicate LostWith(k: Kind, e: string) {
    && (k == Publish ==> e == "connection lost before Publish completed")
    && (k == Subscribe ==> e == "connection lost before Subscribe completed")
    && (k == Unsubscribe ==> e == "connection lost before Unsubscribe completed")
    && k != PlaceHolder
  }

  /** A token's outcome, exactly, over one step: a success keeps the error there was, a
      failure sets its own, and no other step touches the token. */
  lemma StepOutcome(w: World, step: Step, t: nat)
    requires IdsOk(w.ids) && Enabled(w, step) && t in w.ids.tokens
    ensures t in Next(w, step).ids.tokens
    ensures var was, res := w.ids.tokens[t], Next(w, step).ids.tokens[t];
      if was.kind == PlaceHolder then res == was
      else if Succeeds(w, step, t) then res == Token(was.kind, true, was.err)
      else if exists e :: Fails(w, step, t, e) then exists e :: Fails(w, step, t, e) && res == Token(was.kind, true, Some(e))
      else res == was
  {
    var was := w.ids.tokens[t];
    match step
    case Timeout(u, e) => if u == t { assert Fails(w, step, t, e); }
    case LoseAll => if t in w.ids.index.Values && was.kind != PlaceHolder { assert Fails(w, step, t, LostMessage(was.kind)); }
    case LoseSubs => if t in w.ids.index.Values && IsSub(w.ids, t) { assert Fails(w, step, t, LostMessage(was.kind)); }
    case _ =>
  }

  /** Over every run: a token that ended without an error was acknowledged, or displaced by
      a claim of its identifier; one that ended with an error was failed by that very step. */
  lemma {:induction false} EndedBecause(ws: seq<World>, steps: seq<Step>, i: nat, t: nat)
    requires IsRun(ws, steps) && i < |ws| && t in ws[i].ids.tokens
    ensures ws[i].ids.tokens[t].complete && ws[i].ids.tokens[t].err.None? ==>
              exists j | 0 <= j < i :: Succeeds(ws[j], steps[j], t)
    ensures ws[i].ids.tokens[t].err.Some? ==>
              exists j | 0 <= j < i :: Fails(ws[j], steps[j], t, ws[i].ids.tokens[t].err.value)
  {
    if i > 0 {
      var w, step := ws[i - 1], steps[i - 1];
      RunKeepsInv(ws, steps, i - 1);
      assert Enabled(w, step) && ws[i] == Next(w, step);
      if t in w.ids.tokens {
        EndedBecause(ws, steps, i - 1, t);
        StepOutcome(w, step, t);
      } else {
        FreshToken(w, step, t);
      }
    }
  }

  lemma FreshToken(w: World, step: Step, t: nat)
    requires IdsOk(w.ids) && Enabled(w, step) && t !in w.ids.tokens && t in Next(w, step).ids.tokens
    ensures !Next(w, step).ids.tokens[t].complete && Next(w, step).ids.tokens[t].err.None?
  {
  }

  /** Each acknowledgement is handled in one go. */
  predicate PacketAtomic(steps: seq<Step>) {
    forall i | 0 <= i < |steps| && steps[i].AckLookup? :: i + 1 == |steps| || steps[i + 1].AckFree?
  }

  /** When packets are handled in one go, no token is ever late, so none is lost. */
  lemma {:induction false} PacketAtomicNeverLate(ws: seq<World>, steps: seq<Step>, i: nat)
    requires IsRun(ws, steps) && PacketAtomic(steps) && i < |ws|
    ensures ws[i].late == {}
    ensures ws[i].acking.Some? ==> i > 0 && steps[i - 1].AckLookup?
  {
    if i > 0 {
      PacketAtomicNeverLate(ws, steps, i - 1);
      assert Enabled(ws[i - 1], steps[i - 1]);
    }
  }

  ghost predicate AllAccounted(w: World) {
    forall p | p in w.placed :: Accounted(w, p.0, p.1)
  }

  /** The index refers to existing tokens, all of them once placed. */
  ghost predicate PlacedOk(w: World) {
    && IdsOk(w.ids) && (forall p | p in w.placed :: p.1 in w.ids.tokens)
    && (forall id | id in w.ids.index :: (id, w.ids.index[id]) in w.placed)
  }

  lemma StepKeepsPlaced(w: World, step: Step)
    requires PlacedOk(w) && Enabled(w, step)
    ensures PlacedOk(Next(w, step))
  {
  }

  /** The identifier being freed belongs to a token that is done, or to none. */
  ghost predicate FreesDone(w: World)
    requires IdsOk(w.ids)
  {
    w.acking.Some? && w.acking.value in w.ids.index ==> Done(w.ids.tokens[w.ids.index[w.acking.value]])
  }

  lemma StepAccounts(w: World, step: Step)
    requires PlacedOk(w) && AllAccounted(w) && Enabled(w, step) && (step.AckFree? ==> FreesDone(w))
    ensures AllAccounted(Next(w, step))
  {
    if step.Issue? {
      NextIdExact(w.ids.index.Keys, w.ids.last);
    }
  }

  lemma FreeLoses(w: World)
    requires PlacedOk(w) && Enabled(w, AckFree) && !FreesDone(w)
    ensures !AllAccounted(Next(w, AckFree))
  {
    var id := w.acking.value;
    var t := w.ids.index[id];
    assert (id, t) in w.placed;
    assert !Accounted(Next(w, AckFree), (id, t).0, (id, t).1);
  }

  lemma {:induction false} RunKeepsPlaced(ws: seq<World>, steps: seq<Step>, i: nat)
    requires IsRun(ws, steps) && i < |ws|
    ensures PlacedOk(ws[i])
  {
    if i > 0 {
      RunKeepsPlaced(ws, steps, i - 1);
      StepKeepsPlaced(ws[i - 1], steps[i - 1]);
    }
  }

  lemma {:induction false} RunAccounts(ws: seq<World>, steps: seq<Step>, i: nat)
    requires IsRun(ws, steps) && i < |ws|
    requires forall k | 0 <= k < |steps| && steps[k].AckFree? :: IdsOk(ws[k].ids) && FreesDone(ws[k])
    ensures AllAccounted(ws[i])
  {
    if i > 0 {
      RunAccounts(ws, steps, i - 1);
      RunKeepsPlaced(ws, steps, i - 1);
      StepAccounts(ws[i - 1], steps[i - 1]);
    }
  }

  /** Exactly when no token is lost in a run: whenever an identifier is freed, its token is
      done by then. */
  lemma NoneLostIff(ws: seq<World>, steps: seq<Step>)
    requires IsRun(ws, steps)
    ensures (forall i | 0 <= i < |ws| :: AllAccounted(ws[i])) <==>
            (forall k | 0 <= k < |steps| && steps[k].AckFree? :: IdsOk(ws[k].ids) && FreesDone(ws[k]))
  {
    forall i | 0 <= i < |ws|
      ensures PlacedOk(ws[i])
    {
      RunKeepsPlaced(ws, steps, i);
    }
    if forall k | 0 <= k < |steps| && steps[k].AckFree? :: IdsOk(ws[k].ids) && FreesDone(ws[k]) {
      forall i | 0 <= i < |ws|
        ensures AllAccounted(ws[i])
      {
        RunAccounts(ws, steps, i);
      }
    } else {
      var k :| 0 <= k < |steps| && steps[k].AckFree? && !(IdsOk(ws[k].ids) && FreesDone(ws[k]));
      assert PlacedOk(ws[k]) && Enabled(ws[k], steps[k]);
      FreeLoses(ws[k]);
      assert !AllAccounted(ws[k + 1]);
    }
  }

  /** The exception is real: an acknowledgement for an identifier nobody uses, a publish that
      is given the same identifier between its two sections, and the token is gone. */
  lemma LateTokenIsLost()
    ensures exists ws: seq<World>, steps: seq<Step> ::
      && IsRun(ws, steps) && |ws| == 4
      && (1, 0) in ws[3].placed && !Accounted(ws[3], 1, 0)
  {
    var steps := [AckLookup(1), Issue(0, Publish), AckFree];
    var w1 := START.(acking := Some(1));
    var ids: map<Id, nat> := map[];
    assert ids.Keys == {};
    assert NextId({}, 0) == Candidate(0, 1) == 1;
    var one: Id := 1;
    var w2 := World(Ids(map[one := 0], 1, map[0 := Token(Publish, false, None)]), Some(1), {(1, 0)}, {0});
    var w3 := World(Ids(map[], 1, map[0 := Token(Publish, false, None)]), None, {(1, 0)}, {0});
    var ws := [START, w1, w2, w3];
    assert Next(START, steps[0]) == w1;
    assert Next(w1, steps[1]) == w2;
    assert map[one := 0 as nat] - {one} == map[];
    assert Next(w2, steps[2]) == w3;
    assert IsRun(ws, steps);
    assert !Accounted(ws[3], 1, 0);
  }
}
