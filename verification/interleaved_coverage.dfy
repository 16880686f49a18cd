/** The service and its loop towards the State Manager when requests interleave: a POST first stores
    its record and only then puts its body on the loop's channel. */
module InterleavedCoverage {
  import opened Types
  import opened Store
  import opened Subscriptions
  import opened Service
  import opened Interleaving
  import opened InterleavedRuns
  import opened InterleavedLaws
  import opened HsmCoverage
  import H = HsmTracker

  /** Besides the goroutines: the bodies of POSTs about to store, and of POSTs that have stored and
      not yet reached the channel. */
  datatype Full = Full(whole: Whole, hsm: H.HsmState, posting: map<nat, ScnSubscribe>, owed: map<nat, ScnSubscribe>)

  datatype FullMove = Running(move: Move) | Enqueueing(id: nat) | Passing(postOk: bool)

  /** The request's first step has led to this state of the service. */
  function Begun(f: Full, id: nat, e: Event, whole: Whole): Full {
    if id in f.owed then f
    else if id !in f.whole.ops && (e.PostV1? || e.PostV2?) && id in whole.ops
    then f.(whole := whole, posting := f.posting[id := LowerBody(e.body)])
    else f.(whole := whole)
  }

  /** A POST's store step. */
  predicate PostsNow(f: Full, id: nat) {
    id in f.whole.ops && f.whole.ops[id].Storing? && id in f.posting
  }

  /** A later step of a goroutine has led to this state of the service. */
  function Advanced(f: Full, id: nat, whole: Whole): Full {
    if PostsNow(f, id)
    then Full(whole, f.hsm, f.posting - {id}, if f.whole.ops[id].ok then f.owed[id := f.posting[id]] else f.owed)
    else f.(whole := whole)
  }

  function LoopMove(f: Full, m: FullMove): Full
    requires !m.Running?
  {
    match m
    case Enqueueing(id) =>
      if id in f.owed then f.(hsm := H.Step(f.hsm, H.Enqueue(f.owed[id])), owed := f.owed - {id}) else f
    case Passing(ok) => f.(hsm := H.Serve(f.hsm, ok))
  }

  ghost function FullAfter(f: Full, m: FullMove): Full {
    match m
    case Running(Begin(id, e)) => Begun(f, id, e, After(f.whole, Begin(id, e)))
    case Running(Advance(id)) => Advanced(f, id, After(f.whole, Advance(id)))
    case _ => LoopMove(f, m)
  }

  // ---------- what is asked for or owed ----------

  function Owed(owed: map<nat, ScnSubscribe>): set<H.Attribute> {
    set id, a | id in owed && a in H.Attributes(owed[id]) :: a
  }

  /** Attributes asked for, or in a body that a POST has still to put on the channel. */
  function AskedOrOwed(f: Full): set<H.Attribute> {
    Asked(f.hsm) + Owed(f.owed)
  }

  /** What a move adds to them: the body of a POST that stores. */
  ghost function Brings(f: Full, m: FullMove): set<H.Attribute> {
    if m.Running? && m.move.Advance? && PostsNow(f, m.move.id) && f.whole.ops[m.move.id].ok
    then H.Attributes(f.posting[m.move.id])
    else {}
  }

  lemma OwedMore(owed: map<nat, ScnSubscribe>, id: nat, body: ScnSubscribe)
    requires id !in owed
    ensures Owed(owed[id := body]) == Owed(owed) + H.Attributes(body)
  {
    var more := owed[id := body];
    forall a | a in Owed(owed) ensures a in Owed(more) {
      var i :| i in owed && a in H.Attributes(owed[i]);
      assert i in more && more[i] == owed[i];
    }
    forall a | a in H.Attributes(body) ensures a in Owed(more) {
      assert id in more && more[id] == body;
    }
  }

  lemma OwedLess(owed: map<nat, ScnSubscribe>, id: nat)
    requires id in owed
    ensures Owed(owed) == Owed(owed - {id}) + H.Attributes(owed[id])
  {
    OwedMore(owed - {id}, id, owed[id]);
    assert (owed - {id})[id := owed[id]] == owed;
  }

  /** The goroutine is about to store a key that names only attributes of this body. */
  ghost predicate Prepared(op: Op, body: ScnSubscribe) {
    op.Storing? && CoveredKey(op.key, H.Attributes(body) + {H.Enabled})
  }

  /** POST goroutines know which key they are about to store, and owe nothing yet. */
  ghost predicate PostingSound(f: Full) {
    forall id :: id in f.posting ==> id !in f.owed && id in f.whole.ops && Prepared(f.whole.ops[id], f.posting[id])
  }

  lemma AdvancedBrings(f: Full, id: nat, whole: Whole)
    requires PostingSound(f)
    ensures AskedOrOwed(Advanced(f, id, whole)) == AskedOrOwed(f) + Brings(f, Running(Advance(id)))
  {
    if PostsNow(f, id) && f.whole.ops[id].ok {
      OwedMore(f.owed, id, f.posting[id]);
    }
  }

  lemma LoopBringsNothing(f: Full, m: FullMove)
    requires !m.Running?
    ensures AskedOrOwed(LoopMove(f, m)) == AskedOrOwed(f)
  {
    match m
    case Enqueueing(id) =>
      if id in f.owed {
        OwedLess(f.owed, id);
        H.UnionAppend(f.hsm.pending, f.owed[id]);
      }
    case Passing(ok) => AskedStays(f.hsm, ok);
  }

  lemma BegunBringsNothing(f: Full, id: nat, e: Event, whole: Whole)
    ensures AskedOrOwed(Begun(f, id, e, whole)) == AskedOrOwed(f)
  {
  }

  lemma AskedOrOwedAfter(f: Full, m: FullMove)
    requires PostingSound(f)
    ensures AskedOrOwed(FullAfter(f, m)) == AskedOrOwed(f) + Brings(f, m)
  {
    if !m.Running? {
      LoopBringsNothing(f, m);
    } else if m.move.Begin? {
      BegunBringsNothing(f, m.move.id, m.move.e, After(f.whole, m.move));
      assert FullAfter(f, m) == Begun(f, m.move.id, m.move.e, After(f.whole, m.move));
    } else {
      AdvancedBrings(f, m.move.id, After(f.whole, m.move));
      assert FullAfter(f, m) == Advanced(f, m.move.id, After(f.whole, m.move));
    }
  }

  lemma PostBegins(s: Whole, id: nat, e: Event)
    requires id !in s.ops && (e.PostV1? || e.PostV2?) && id in After(s, Begin(id, e)).ops && PlainInput(e)
    ensures After(s, Begin(id, e)).ops[id] == StoringOf(e)
    ensures CoveredKey(NewSub(e).Key(), H.Attributes(LowerBody(e.body)) + {H.Enabled})
  {
    assert First(s.svc, s.pruning, e) == FirstPost(s.svc, s.pruning, e);
    PlainKeyCovered(NewSub(e), H.Attributes(LowerBody(e.body)) + {H.Enabled});
    KeyAttributesOf(LowerBody(e.body));
  }

  /** Goroutines other than this one are where they were. */
  ghost predicate OthersStay(s: Whole, whole: Whole, moved: nat) {
    forall id :: id in s.ops && id != moved ==> id in whole.ops && whole.ops[id] == s.ops[id]
  }

  lemma AfterOthersStay(s: Whole, move: Move)
    ensures OthersStay(s, After(s, move), move.id)
    ensures move.Begin? && move.id in s.ops ==> After(s, move) == s
  {
    forall id | id in s.ops && id != move.id
      ensures id in After(s, move).ops && After(s, move).ops[id] == s.ops[id]
    {
      OthersKeepOp(s, move, id);
    }
  }

  lemma AdvancedStaysSound(f: Full, id: nat, whole: Whole)
    requires PostingSound(f) && OthersStay(f.whole, whole, id)
    ensures PostingSound(Advanced(f, id, whole))
  {
  }

  lemma BegunStaysSound(f: Full, id: nat, e: Event, whole: Whole)
    requires PostingSound(f) && OthersStay(f.whole, whole, id) && (id in f.whole.ops ==> whole == f.whole)
    requires id !in f.whole.ops && (e.PostV1? || e.PostV2?) && id in whole.ops ==>
               Prepared(whole.ops[id], LowerBody(e.body))
    ensures PostingSound(Begun(f, id, e, whole))
  {
  }

  lemma PostingStaysSound(f: Full, m: FullMove)
    requires PostingSound(f) && (m.Running? && m.move.Begin? ==> PlainInput(m.move.e))
    ensures PostingSound(FullAfter(f, m))
  {
    match m
    case Running(Begin(id, e)) =>
      AfterOthersStay(f.whole, m.move);
      if id !in f.whole.ops && (e.PostV1? || e.PostV2?) && id in After(f.whole, m.move).ops {
        PostBegins(f.whole, id, e);
      }
      BegunStaysSound(f, id, e, After(f.whole, m.move));
    case Running(Advance(id)) =>
      AfterOthersStay(f.whole, m.move);
      AdvancedStaysSound(f, id, After(f.whole, m.move));
    case _ =>
  }

  // ---------- steps ----------

  /** The move is no store step of a PATCH whose key names an attribute outside this set. */
  ghost predicate NamesOnly(f: Full, m: FullMove, asked: set<H.Attribute>) {
    m.Running? && StoresKey(f.whole, m.move) && m.move.id !in f.posting ==>
      CoveredKey(f.whole.ops[m.move.id].key, asked)
  }

  lemma CoveredKeyMore(key: string, asked: set<H.Attribute>, more: set<H.Attribute>)
    requires CoveredKey(key, asked) && asked <= more
    ensures CoveredKey(key, more)
  {
  }

  lemma StoringIsCovered(f: Full, id: nat, whole: Whole)
    requires PostingSound(f) && StoresKey(f.whole, Advance(id))
    requires Covered(f.whole.svc.data, AskedOrOwed(f)) && H.Enabled in AskedOrOwed(f)
    requires var key := f.whole.ops[id].key;
             key in whole.svc.data && whole.svc.data.Keys <= f.whole.svc.data.Keys + {key}
    ensures Covered(whole.svc.data, AskedOrOwed(Advanced(f, id, whole))) <==>
            (id !in f.posting ==> CoveredKey(f.whole.ops[id].key, AskedOrOwed(f)))
  {
    var key, more := f.whole.ops[id].key, AskedOrOwed(Advanced(f, id, whole));
    AdvancedBrings(f, id, whole);
    CoveredOneMore(f.whole.svc.data, whole.svc.data, key, AskedOrOwed(f), more);
    if id in f.posting {
      CoveredKeyMore(key, H.Attributes(f.posting[id]) + {H.Enabled}, more);
    }
  }

  lemma OtherMovesCovered(f: Full, m: FullMove)
    requires PostingSound(f) && Covered(f.whole.svc.data, AskedOrOwed(f))
    requires m.Running? ==> !StoresKey(f.whole, m.move)
    ensures Covered(FullAfter(f, m).whole.svc.data, AskedOrOwed(FullAfter(f, m)))
  {
    AskedOrOwedAfter(f, m);
    if m.Running? {
      MoveKeys(f.whole, m.move);
    }
    CoveredMore(f.whole.svc.data, FullAfter(f, m).whole.svc.data, AskedOrOwed(f), AskedOrOwed(FullAfter(f, m)));
  }

  /** In every state between the steps of requests: every attribute a stored key names stays asked for,
      or owed by a POST that has stored, exactly if the move is no store step of a PATCH that brings
      another one. */
  lemma FullStepExactly(f: Full, m: FullMove)
    requires PostingSound(f) && Covered(f.whole.svc.data, AskedOrOwed(f)) && H.Enabled in AskedOrOwed(f)
    ensures var after := FullAfter(f, m);
            Covered(after.whole.svc.data, AskedOrOwed(after)) <==> NamesOnly(f, m, AskedOrOwed(f))
  {
    if m.Running? && StoresKey(f.whole, m.move) {
      MoveKeys(f.whole, m.move);
      StoringIsCovered(f, m.move.id, After(f.whole, m.move));
    } else {
      OtherMovesCovered(f, m);
    }
  }

  // ---------- runs ----------

  ghost function FullRun(data: Db, url: string, moves: seq<FullMove>): Full {
    if moves == [] then
      Full(Whole(Service.START.(data := data), false, map[]), H.Step(H.START, H.Enqueue(Mandatory(url))), map[], map[])
    else FullAfter(FullRun(data, url, moves[..|moves| - 1]), moves[|moves| - 1])
  }

  /** The start-up list and the bodies of the POSTs that have stored. */
  ghost function Known(data: Db, url: string, moves: seq<FullMove>): set<H.Attribute> {
    if moves == [] then H.Attributes(Mandatory(url))
    else
      var before := moves[..|moves| - 1];
      Known(data, url, before) + Brings(FullRun(data, url, before), moves[|moves| - 1])
  }

  ghost predicate PlainMoves(moves: seq<FullMove>) {
    forall i :: 0 <= i < |moves| && moves[i].Running? && moves[i].move.Begin? ==> PlainInput(moves[i].move.e)
  }

  lemma {:induction false} KnownExactly(data: Db, url: string, moves: seq<FullMove>)
    requires PlainMoves(moves)
    ensures var f := FullRun(data, url, moves);
            PostingSound(f) && AskedOrOwed(f) == Known(data, url, moves) && H.Enabled in Known(data, url, moves)
  {
    AskedAtStart(url);
    if moves == [] {
      assert Owed(map[]) == {};
    } else {
      var before, m := moves[..|moves| - 1], moves[|moves| - 1];
      KnownExactly(data, url, before);
      PostingStaysSound(FullRun(data, url, before), m);
      AskedOrOwedAfter(FullRun(data, url, before), m);
    }
  }

  ghost predicate CoveredNow(data: Db, url: string, moves: seq<FullMove>) {
    var f := FullRun(data, url, moves); Covered(f.whole.svc.data, AskedOrOwed(f))
  }

  ghost predicate CoveredThroughout(data: Db, url: string, moves: seq<FullMove>) {
    CoveredNow(data, url, moves) && (moves != [] ==> CoveredThroughout(data, url, moves[..|moves| - 1]))
  }

  /** The keys found at start-up name only attributes of the start-up list, and every PATCH that stored
      named only attributes of that list or of POSTs that had stored before. */
  ghost predicate OnlyKnown(data: Db, url: string, moves: seq<FullMove>) {
    if moves == [] then Covered(data, H.Attributes(Mandatory(url)))
    else
      var before := moves[..|moves| - 1];
      OnlyKnown(data, url, before) && NamesOnly(FullRun(data, url, before), moves[|moves| - 1],
          Known(data, url, before))
  }

  /** However requests interleave, every attribute a stored key names is throughout asked for or owed by
      a POST between its store and the channel, exactly under that condition. */
  lemma {:induction false} CoveredThroughoutExactly(data: Db, url: string, moves: seq<FullMove>)
    requires PlainMoves(moves)
    ensures CoveredThroughout(data, url, moves) <==> OnlyKnown(data, url, moves)
  {
    if moves == [] {
      AskedAtStart(url);
      assert Owed(map[]) == {};
    } else {
      var before, m := moves[..|moves| - 1], moves[|moves| - 1];
      CoveredThroughoutExactly(data, url, before);
      KnownExactly(data, url, before);
      if CoveredThroughout(data, url, before) {
        assert CoveredNow(data, url, before);
        FullStepExactly(FullRun(data, url, before), m);
      }
    }
  }
}
