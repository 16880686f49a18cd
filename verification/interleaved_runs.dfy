/** Runs in which any number of requests, sends, fanouts and prune rounds interleave step by step. */
module InterleavedRuns {
  import opened Text
  import opened Types
  import opened Scanners
  import opened Store
  import opened Fanout
  import opened Subscriptions
  import opened SubscriptionLaws
  import opened Service
  import opened Interleaving
  import opened Availability
  import C = Coalescer

  /** The shared state, whether the prune loop holds the prune map's lock, and the goroutines. */
  datatype Whole = Whole(svc: State, pruning: bool, ops: map<nat, Op>)

  /** A process begins with no request in progress. */
  ghost predicate Idle(s: Whole) {
    Beginning(s.svc) && !s.pruning && s.ops == map[]
  }

  datatype Move = Begin(id: nat, e: Event) | Advance(id: nat)

  function WithTurn(ops: map<nat, Op>, id: nat, t: Turn): Whole {
    Whole(t.svc, t.pruning, if t.next.Some? then ops[id := t.next.value] else ops - {id})
  }

  ghost function After(s: Whole, move: Move): Whole {
    match move
    case Begin(id, e) => if id in s.ops then s else WithTurn(s.ops, id, First(s.svc, s.pruning, e))
    case Advance(id) =>
      if id in s.ops && Proper(s.ops[id]) then WithTurn(s.ops, id, Next(s.svc, s.pruning, s.ops[id])) else s
  }

  ghost predicate MoveAt(moves: seq<Move>, states: seq<Whole>, i: nat)
    requires i < |moves| && i + 1 < |states|
  {
    states[i + 1] == After(states[i], moves[i])
  }

  ghost predicate IsRunning(moves: seq<Move>, states: seq<Whole>) {
    |states| == |moves| + 1 && Idle(states[0]) && forall i :: 0 <= i < |moves| ==> MoveAt(moves, states, i)
  }

  ghost predicate SoundMoves(moves: seq<Move>) {
    forall i :: 0 <= i < |moves| && moves[i].Begin? ==> SoundInput(moves[i].e) && PlainComponents(moves[i].e)
  }

  // ---------- what every interleaving keeps ----------

  ghost predicate SoundRecord(rec: Record) {
    SoundKey(rec.key) && Usable(rec.value)
  }

  ghost predicate SoundList(todo: seq<Record>) {
    forall i :: 0 <= i < |todo| ==> SoundRecord(todo[i])
  }

  ghost predicate SoundLabel(owner: string) {
    exists s :: Sound(s) && owner == OwnerLabel(s.xname, s.agent)
  }

  ghost predicate SoundOp(op: Op) {
    match op
    case Removing(e, todo, owed) => TargetOf(e).Some? && SoundList(todo) && (owed.Some? ==> SoundLabel(owed.value))
    case Patching(e, todo) => (e.PatchV1? || e.PatchV2?) && Accepted(e) && SoundInput(e) && SoundList(todo)
    case Storing(key, value, _) => SoundKey(key) && Usable(value)
    case Pruning(_, todo) => SoundList(todo)
    case Noticing(_, _, _) => true
    case Fanning(_, _, todo) => SoundList(todo)
    case Burying(_, todo) => SoundList(todo)
    case Sending(job, _) => XnameShape(job.subscriber)
  }

  ghost predicate SoundState(s: State) {
    StoreInv(s.data) && JobsSound(s.jobs) && CachePlain(s.cache)
  }

  ghost predicate SoundTurn(t: Turn) {
    SoundState(t.svc) && (t.next.Some? ==> SoundOp(t.next.value))
  }

  lemma ListingSound(data: Db, lo: string, hi: string)
    requires StoreInv(data)
    ensures SoundList(ListingOf(data, lo, hi))
  {
  }

  lemma NewSubSound(e: Event)
    requires (e.PostV1? || e.PostV2?) && Accepted(e) && SoundInput(e)
    ensures SoundOp(StoringOf(e))
  {
    assert Sound(NewSub(e));
  }

  /** The subscription a PATCH stores in place of one it has found is sound. */
  lemma PatchedSubSound(e: Event, rec: Record)
    requires (e.PatchV1? || e.PatchV2?) && Accepted(e) && SoundInput(e)
    requires SoundKey(rec.key) && PatchMatch(WhoOf(e), rec)
    ensures SoundOp(StoringOf(e))
  {
    var s :| Sound(s) && s.Key() == rec.key;
    var made := NewSub(e);
    if e.PatchV1? {
      LowerIdempotent(e.body.subscriber);
    }
    PatchFindsItsOwner(s, WhoOf(e), made.xname, made.agent, rec.value);
    assert Sound(made);
  }

  lemma FirstPostKeepsSound(s: State, pruning: bool, e: Event)
    requires SoundState(s) && SoundInput(e) && (e.PostV1? || e.PostV2?)
    ensures SoundTurn(FirstPost(s, pruning, e))
  {
    if Accepted(e) {
      NewSubSound(e);
    }
  }

  lemma FirstPatchKeepsSound(s: State, pruning: bool, e: Event)
    requires SoundState(s) && SoundInput(e) && (e.PatchV1? || e.PatchV2?)
    ensures SoundTurn(FirstPatch(s, pruning, e))
  {
    var start := PatchStart(LowerBody(e.body).subscriber);
    ListingSound(s.data, start, start + "z");
  }

  lemma FirstDeleteKeepsSound(s: State, pruning: bool, e: Event)
    requires SoundState(s) && (e.DeleteV1? || e.DeleteAgent? || e.DeleteXname?)
    ensures SoundTurn(First(s, pruning, e))
  {
    ListingSound(s.data, RANGE_START, RANGE_END);
  }

  lemma FirstPruneKeepsSound(s: State, pruning: bool, e: Event)
    requires SoundState(s) && e.PruneTick?
    ensures SoundTurn(First(s, pruning, e))
  {
    assert First(s, pruning, e) == Turn(s, pruning, None)
           || First(s, pruning, e) == Turn(s, true, Some(Pruning(e.io, All(s))))
           || First(s, pruning, e) == Turn(s.(marks := {}), false, None);
    ListingSound(s.data, RANGE_START, RANGE_END);
  }

  lemma FirstDeadWoodKeepsSound(s: State, pruning: bool, e: Event)
    requires SoundState(s) && e.DeadWood?
    ensures SoundTurn(First(s, pruning, e))
  {
    assert First(s, pruning, e) == Turn(s, pruning, if e.io.rangeOk then Some(Burying(e.bad, All(s))) else None);
    ListingSound(s.data, RANGE_START, RANGE_END);
  }

  lemma FirstScnKeepsSound(s: State, pruning: bool, e: Event)
    requires SoundState(s) && PlainComponents(e) && (e.ReceiveScn? || e.CacheTick? || e.HandleScn?)
    ensures SoundTurn(First(s, pruning, e))
  {
    StepKeepsPlain(CacheAfter(s, e), s, e);
  }

  lemma FirstSendKeepsSound(s: State, pruning: bool, e: Event)
    requires SoundState(s) && e.RunJob?
    ensures SoundTurn(First(s, pruning, e))
  {
  }

  lemma FirstKeepsSound(s: State, pruning: bool, e: Event)
    requires SoundState(s) && SoundInput(e) && PlainComponents(e)
    ensures SoundTurn(First(s, pruning, e))
  {
    if e.PostV1? || e.PostV2? {
      FirstPostKeepsSound(s, pruning, e);
      assert First(s, pruning, e) == FirstPost(s, pruning, e);
    } else if e.PatchV1? || e.PatchV2? {
      FirstPatchKeepsSound(s, pruning, e);
      assert First(s, pruning, e) == FirstPatch(s, pruning, e);
    } else if e.PruneTick? {
      FirstPruneKeepsSound(s, pruning, e);
    } else if e.DeadWood? {
      FirstDeadWoodKeepsSound(s, pruning, e);
    } else if e.RunJob? {
      FirstSendKeepsSound(s, pruning, e);
    } else if e.ReceiveScn? || e.CacheTick? || e.HandleScn? {
      FirstScnKeepsSound(s, pruning, e);
    } else {
      FirstDeleteKeepsSound(s, pruning, e);
    }
  }

  lemma SoundTail(todo: seq<Record>)
    requires SoundList(todo) && todo != []
    ensures SoundRecord(todo[0]) && SoundList(todo[1..])
  {
  }

  lemma LabelOfSound(rec: Record)
    requires SoundRecord(rec)
    ensures SoundLabel(KeyLabel(rec.key))
  {
    var s :| Sound(s) && s.Key() == rec.key;
    OwnerRead(s);
  }

  lemma NextRemovingKeepsSound(s: State, pruning: bool, e: Event, todo: seq<Record>, owed: Option<string>)
    requires SoundState(s) && SoundOp(Removing(e, todo, owed))
    ensures SoundTurn(NextRemoving(s, pruning, e, todo, owed))
  {
    if owed.None? && todo != [] {
      SoundTail(todo);
      LabelOfSound(todo[0]);
      RemovalKeepsInv(s.data, {todo[0].key});
    }
  }

  lemma PatchTurnCases(s: State, pruning: bool, e: Event, found: bool, made: Op, fails: set<string>, todo: seq<Record>)
    requires made.Storing?
    ensures var t := PatchTurn(s, pruning, e, found, made, fails, todo);
            (t.svc == s || (todo != [] && t.svc == s.(data := s.data - {todo[0].key})))
            && (t.next.Some? ==>
                  todo != [] && (t.next.value == Patching(e, todo[1..]) || (t.next.value == made && found)))
  {
  }

  lemma NextPatchingKeepsSound(s: State, pruning: bool, e: Event, todo: seq<Record>)
    requires SoundState(s) && SoundOp(Patching(e, todo))
    ensures SoundTurn(NextPatching(s, pruning, e, todo))
  {
    PatchTurnCases(s, pruning, e, Found(e, todo), StoringOf(e), e.io.deleteFails, todo);
    if todo != [] {
      SoundTail(todo);
      RemovalKeepsInv(s.data, {todo[0].key});
      if Found(e, todo) {
        PatchedSubSound(e, todo[0]);
      }
    }
  }

  lemma NextPruningKeepsSound(s: State, io: KvIo, todo: seq<Record>)
    requires SoundState(s) && SoundList(todo)
    ensures SoundTurn(NextPruning(s, io, todo))
  {
    if todo != [] {
      SoundTail(todo);
      RemovalKeepsInv(s.data, RemovedOne(todo[0], OfMarks(s.marks), io));
    }
  }

  lemma JobsOfOneSound(rec: Record, scn: Scn, suppressed: set<string>)
    requires SoundRecord(rec)
    ensures JobsSound(JobsOfOne(rec, scn, suppressed))
  {
    var o :| Sound(o) && o.Key() == rec.key;
    OwnerRead(o);
  }

  lemma MoreJobsSound(jobs: seq<Job>, more: seq<Job>)
    requires JobsSound(jobs) && JobsSound(more)
    ensures JobsSound(jobs + more)
  {
  }

  lemma NextFanningKeepsSound(s: State, pruning: bool, scn: Scn, suppressed: set<string>, todo: seq<Record>)
    requires SoundState(s) && SoundList(todo)
    ensures SoundTurn(NextFanning(s, pruning, scn, suppressed, todo))
  {
    if todo != [] {
      SoundTail(todo);
      JobsOfOneSound(todo[0], scn, suppressed);
      MoreJobsSound(s.jobs, JobsOfOne(todo[0], scn, suppressed));
    }
  }

  lemma NextBuryingKeepsSound(s: State, pruning: bool, bad: set<string>, todo: seq<Record>)
    requires SoundState(s) && SoundList(todo)
    ensures SoundTurn(NextBurying(s, pruning, bad, todo))
  {
    if todo != [] {
      SoundTail(todo);
    }
  }

  lemma StoringKeepsSound(s: State, pruning: bool, key: string, value: SubData, ok: bool)
    requires SoundState(s) && SoundKey(key) && Usable(value)
    ensures SoundTurn(Next(s, pruning, Storing(key, value, ok)))
  {
  }

  lemma NoticingKeepsSound(s: State, pruning: bool, scn: Scn, suppressed: set<string>, io: KvIo)
    requires SoundState(s)
    ensures SoundTurn(Next(s, pruning, Noticing(scn, suppressed, io)))
  {
    ListingSound(s.data, RANGE_START, RANGE_END);
  }

  lemma SendingKeepsSound(s: State, pruning: bool, job: Job, gaveUp: bool)
    requires SoundState(s) && XnameShape(job.subscriber)
    ensures SoundTurn(NextSending(s, pruning, job, gaveUp))
  {
  }

  lemma NextKeepsSound(s: State, pruning: bool, op: Op)
    requires SoundState(s) && SoundOp(op)
    ensures Proper(op) && SoundTurn(Next(s, pruning, op))
  {
    var t := Next(s, pruning, op);
    match op
    case Removing(e, todo, owed) => NextRemovingKeepsSound(s, pruning, e, todo, owed);
    case Patching(e, todo) => NextPatchingKeepsSound(s, pruning, e, todo);
    case Storing(key, value, ok) => StoringKeepsSound(s, pruning, key, value, ok);
    case Pruning(io, todo) => NextPruningKeepsSound(s, io, todo);
    case Noticing(scn, suppressed, io) => NoticingKeepsSound(s, pruning, scn, suppressed, io);
    case Fanning(scn, suppressed, todo) => NextFanningKeepsSound(s, pruning, scn, suppressed, todo);
    case Burying(bad, todo) => NextBuryingKeepsSound(s, pruning, bad, todo);
    case Sending(job, gaveUp) => SendingKeepsSound(s, pruning, job, gaveUp);
  }

  ghost predicate SoundWhole(s: Whole) {
    SoundState(s.svc) && forall id :: id in s.ops ==> SoundOp(s.ops[id])
  }

  lemma AfterKeepsSound(s: Whole, move: Move)
    requires SoundWhole(s) && (move.Begin? ==> SoundInput(move.e) && PlainComponents(move.e))
    ensures SoundWhole(After(s, move))
  {
    match move
    case Begin(id, e) => FirstKeepsSound(s.svc, s.pruning, e);
    case Advance(id) =>
      if id in s.ops {
        NextKeepsSound(s.svc, s.pruning, s.ops[id]);
      }
  }

  /** However the goroutines interleave, the store invariant holds, every snapshot a goroutine still
      works on holds only sound records, and whatever it is about to store is sound. */
  lemma {:induction false} AlwaysSound(moves: seq<Move>, states: seq<Whole>, n: nat)
    requires IsRunning(moves, states) && n <= |moves| && SoundMoves(moves)
    ensures SoundWhole(states[n])
  {
    if n > 0 {
      AlwaysSound(moves, states, n - 1);
      AfterKeepsSound(states[n - 1], moves[n - 1]);
      assert MoveAt(moves, states, n - 1);
    }
  }

  function TodoOf(op: Op): seq<Record> {
    match op
    case Removing(_, todo, _) => todo
    case Patching(_, todo) => todo
    case Pruning(_, todo) => todo
    case Fanning(_, _, todo) => todo
    case Burying(_, todo) => todo
    case _ => []
  }

  /** So no goroutine's index or slice expression is out of range, on records that may long be gone. */
  lemma NothingPanicsInterleaved(moves: seq<Move>, states: seq<Whole>, n: nat, id: nat, rec: Record)
    requires IsRunning(moves, states) && n <= |moves| && SoundMoves(moves)
    requires id in states[n].ops && rec in TodoOf(states[n].ops[id])
    ensures !ScanAgent(rec.key).OutOfRange? && !ScanAgentPatch(rec.key).OutOfRange? && |Split(rec.key, '#')| >= 2
            && rec.value.scnNodes != []
  {
    AlwaysSound(moves, states, n);
    assert SoundOp(states[n].ops[id]);
    var i :| 0 <= i < |TodoOf(states[n].ops[id])| && TodoOf(states[n].ops[id])[i] == rec;
    assert SoundRecord(rec);
    var s :| Sound(s) && s.Key() == rec.key;
    OwnerRead(s);
    ScannedHasXname(rec.key);
  }

  // ---------- marks ----------

  /** The move empties the prune map. */
  predicate Clears(s: Whole, move: Move) {
    match move
    case Begin(id, e) => id !in s.ops && e.PruneTick? && !s.pruning && !e.io.rangeOk
    case Advance(id) => id in s.ops && s.ops[id].Pruning? && s.ops[id].todo == []
  }

  /** The move adds this mark. */
  predicate Adds(s: Whole, move: Move, m: string) {
    match move
    case Begin(id, e) =>
      id !in s.ops && e.HandleScn? && s.svc.cache.queue != [] && m in MarksOf(s.svc.cache.queue[0]) && !s.pruning
    case Advance(id) => id in s.ops && !s.pruning && OpAdds(s.ops[id], m)
  }

  predicate OpAdds(op: Op, m: string) {
    match op
    case Removing(_, _, owed) => owed == Some(m)
    case Burying(bad, todo) => todo != [] && XnameOf(todo[0].key) in bad && XnameOf(todo[0].key) == m
    case Sending(job, gaveUp) => gaveUp && job.subscriber == m
    case _ => false
  }

  lemma FirstMarks(s: State, pruning: bool, e: Event, m: string)
    ensures m in First(s, pruning, e).svc.marks <==>
              !(e.PruneTick? && !pruning && !e.io.rangeOk)
              && (m in s.marks || (e.HandleScn? && s.cache.queue != [] && m in MarksOf(s.cache.queue[0]) && !pruning))
  {
  }

  lemma NextMarks(s: State, pruning: bool, op: Op, m: string)
    requires Proper(op)
    ensures m in Next(s, pruning, op).svc.marks <==>
              !(op.Pruning? && op.todo == []) && (m in s.marks || (!pruning && OpAdds(op, m)))
  {
    match op
    case Removing(e, todo, owed) => assert Next(s, pruning, op) == NextRemoving(s, pruning, e, todo, owed);
    case Patching(e, todo) =>
      assert Next(s, pruning, op) == PatchTurn(s, pruning, e, Found(e, todo), StoringOf(e), e.io.deleteFails, todo);
    case _ =>
  }

  lemma AfterMarks(s: Whole, move: Move, m: string)
    requires SoundWhole(s)
    ensures m in After(s, move).svc.marks <==> !Clears(s, move) && (m in s.svc.marks || Adds(s, move, m))
  {
    match move
    case Begin(id, e) => FirstMarks(s.svc, s.pruning, e, m);
    case Advance(id) =>
      if id in s.ops {
        NextKeepsSound(s.svc, s.pruning, s.ops[id]);
        NextMarks(s.svc, s.pruning, s.ops[id], m);
      }
  }

  lemma MarksAt(moves: seq<Move>, states: seq<Whole>, i: nat, m: string)
    requires IsRunning(moves, states) && i < |moves| && SoundMoves(moves)
    ensures m in states[i + 1].svc.marks <==>
              !Clears(states[i], moves[i]) && (m in states[i].svc.marks || Adds(states[i], moves[i], m))
  {
    AlwaysSound(moves, states, i);
    AfterMarks(states[i], moves[i], m);
    assert MoveAt(moves, states, i);
  }

  /** Since move j nothing has emptied the prune map. */
  ghost predicate NotCleared(moves: seq<Move>, states: seq<Whole>, j: int, n: int)
    requires |states| == |moves| + 1 && 0 <= j <= n <= |moves|
  {
    forall i :: j < i < n ==> !Clears(states[i], moves[i])
  }

  /** Every mark in force was added by a move since the prune map was last emptied. */
  lemma {:induction false} MarkCause(moves: seq<Move>, states: seq<Whole>, n: nat, m: string) returns (j: nat)
    requires IsRunning(moves, states) && n <= |moves| && SoundMoves(moves) && m in states[n].svc.marks
    ensures j < n && NotCleared(moves, states, j, n) && Adds(states[j], moves[j], m)
  {
    assert n > 0;
    MarksAt(moves, states, n - 1, m);
    if Adds(states[n - 1], moves[n - 1], m) {
      j := n - 1;
    } else {
      j := MarkCause(moves, states, n - 1, m);
    }
  }

  // ---------- why a subscription can disappear, however requests interleave ----------

  /** The move condemns the owner: it starts on an unavailability notice listing the xname, or
      records that a send to it was given up, that the dead-node pass found it, or that a DELETE
      has deleted a record of the bare xname or of agent@xname. */
  predicate Condemning(s: Whole, move: Move, xname: string, agent: string) {
    match move
    case Begin(_, e) =>
      e.HandleScn? && s.svc.cache.queue != [] && IsStateUnavailable(s.svc.cache.queue[0])
      && xname in LowerAll(s.svc.cache.queue[0].components)
    case Advance(id) => id in s.ops && OpCondemns(s.ops[id], xname, agent)
  }

  predicate OpCondemns(op: Op, xname: string, agent: string) {
    match op
    case Removing(_, _, owed) => owed == Some(xname) || owed == Some(OwnerLabel(xname, agent))
    case Burying(bad, _) => xname in bad
    case Sending(job, gaveUp) => gaveUp && job.subscriber == xname
    case _ => false
  }

  lemma OpAddsCondemns(op: Op, m: string, xname: string, agent: string)
    requires SoundOp(op) && OpAdds(op, m) && XnameShape(xname) && (m == xname || m == PruneMark(xname, agent))
    ensures OpCondemns(op, xname, agent)
  {
    MarkShapes(xname, agent);
    match op
    case Removing(_, _, owed) =>
      var s :| Sound(s) && owed.value == OwnerLabel(s.xname, s.agent);
      MarkShapes(s.xname, s.agent);
    case Burying(bad, todo) =>
      assert SoundRecord(todo[0]);
      var s :| Sound(s) && s.Key() == todo[0].key;
      OwnerRead(s);
    case _ =>
  }

  lemma AddsCondemns(s: Whole, move: Move, m: string, xname: string, agent: string)
    requires SoundWhole(s) && Adds(s, move, m) && XnameShape(xname) && (m == xname || m == PruneMark(xname, agent))
    ensures Condemning(s, move, xname, agent)
  {
    match move
    case Begin(_, e) => NoticeCondemns(s.svc, e, xname, agent, m);
    case Advance(id) => OpAddsCondemns(s.ops[id], m, xname, agent);
  }

  /** The move is a step of a DELETE or PATCH that names the owner. */
  predicate NamedBy(s: Whole, move: Move, xname: string, agent: string) {
    move.Advance? && move.id in s.ops
    && match s.ops[move.id]
       case Removing(e, _, _) => Names(e, xname, agent)
       case Patching(e, _) => Names(e, xname, agent)
       case _ => false
  }

  lemma HitNames(e: Event, o: Subscription, value: SubData)
    requires Sound(o) && TargetOf(e).Some? && Hit(TargetOf(e).value, o.Key(), value)
    ensures Names(e, o.xname, o.agent)
  {
    OwnerRead(o);
  }

  lemma MatchNames(e: Event, o: Subscription, value: SubData)
    requires Sound(o) && (e.PatchV1? || e.PatchV2?) && PatchMatch(WhoOf(e), Record(o.Key(), value))
    ensures Names(e, o.xname, o.agent)
  {
    OwnerRead(o);
  }

  lemma FirstRemovesNothing(s: State, pruning: bool, e: Event)
    ensures First(s, pruning, e).svc.data == s.data
  {
  }

  lemma RemovingData(s: State, pruning: bool, e: Event, todo: seq<Record>, owed: Option<string>)
    requires TargetOf(e).Some?
    ensures var after := NextRemoving(s, pruning, e, todo, owed).svc.data;
            after == s.data || (todo != [] && after == s.data - {todo[0].key}
                                && Hit(TargetOf(e).value, todo[0].key, todo[0].value))
  {
  }

  lemma PatchTurnData(s: State, pruning: bool, e: Event, found: bool, made: Op, fails: set<string>, todo: seq<Record>)
    requires made.Storing?
    ensures var after := PatchTurn(s, pruning, e, found, made, fails, todo).svc.data;
            after == s.data || (todo != [] && found && after == s.data - {todo[0].key})
  {
  }

  lemma PruningData(s: State, io: KvIo, todo: seq<Record>)
    ensures var after := NextPruning(s, io, todo).svc.data;
            after.Keys <= s.data.Keys
            && forall k :: k in s.data && k !in after ==>
                 todo != [] && k == todo[0].key && Hit(OfMarks(s.marks), k, todo[0].value)
  {
  }

  lemma NextRemoves(s: State, pruning: bool, op: Op, k: string)
    requires Proper(op) && k in s.data && k !in Next(s, pruning, op).svc.data
    ensures op.Removing? || op.Patching? || op.Pruning?
    ensures TodoOf(op) != [] && TodoOf(op)[0].key == k
    ensures op.Removing? ==> Hit(TargetOf(op.e).value, k, TodoOf(op)[0].value)
    ensures op.Patching? ==> PatchMatch(WhoOf(op.e), TodoOf(op)[0])
    ensures op.Pruning? ==> Hit(OfMarks(s.marks), k, TodoOf(op)[0].value)
  {
    match op
    case Removing(e, todo, owed) => RemovingData(s, pruning, e, todo, owed);
    case Patching(e, todo) =>
      PatchTurnData(s, pruning, e, Found(e, todo), StoringOf(e), e.io.deleteFails, todo);
    case Pruning(io, todo) => PruningData(s, io, todo);
    case _ =>
  }

  lemma MoveRemoves(s: Whole, move: Move, o: Subscription)
    requires SoundWhole(s) && Sound(o) && o.Key() in s.svc.data && o.Key() !in After(s, move).svc.data
    ensures NamedBy(s, move, o.xname, o.agent)
            || (move.Advance? && move.id in s.ops && s.ops[move.id].Pruning?
                && (o.xname in s.svc.marks || PruneMark(o.xname, o.agent) in s.svc.marks))
  {
    match move
    case Begin(_, e) => FirstRemovesNothing(s.svc, s.pruning, e);
    case Advance(id) =>
      var op := s.ops[id];
      NextRemoves(s.svc, s.pruning, op, o.Key());
      var value := TodoOf(op)[0].value;
      assert TodoOf(op)[0] == Record(o.Key(), value);
      if op.Removing? {
        HitNames(op.e, o, value);
      } else if op.Patching? {
        MatchNames(op.e, o, value);
      } else {
        OwnerRead(o);
      }
  }

  /** The event whose first step the move takes, if it does not have to wait. */
  function Started(s: Whole, move: Move): seq<Event> {
    if move.Begin? && move.id !in s.ops
       && !(move.e.HandleScn? && s.pruning && s.svc.cache.queue != [] && IsStateUnavailable(s.svc.cache.queue[0]))
    then [move.e]
    else []
  }

  /** The events started so far, in order. */
  ghost function StartedBefore(moves: seq<Move>, states: seq<Whole>, n: nat): seq<Event>
    requires n <= |moves| && |states| == |moves| + 1
  {
    if n == 0 then [] else StartedBefore(moves, states, n - 1) + Started(states[n - 1], moves[n - 1])
  }

  lemma FirstCache(s: Whole, e: Event, id: nat)
    requires id !in s.ops
    ensures First(s.svc, s.pruning, e).svc.cache ==
            if Started(s, Begin(id, e)) == [] then s.svc.cache else CacheAfter(s.svc, e)
  {
  }

  lemma NextCache(s: State, pruning: bool, op: Op)
    requires Proper(op)
    ensures Next(s, pruning, op).svc.cache == s.cache
  {
  }

  lemma CacheMoves(s: Whole, move: Move, before: seq<Event>)
    requires s.svc.cache == C.Run(CacheEvents(before)).st
    ensures After(s, move).svc.cache == C.Run(CacheEvents(before + Started(s, move))).st
  {
    if Started(s, move) == [] {
      assert before + [] == before;
    } else {
      assert (before + Started(s, move))[..|before|] == before;
      CacheRunStep(CacheEvents(before), s.svc, move.e);
    }
    match move
    case Begin(id, e) => if id !in s.ops { FirstCache(s, e, id); }
    case Advance(id) => if id in s.ops && Proper(s.ops[id]) { NextCache(s.svc, s.pruning, s.ops[id]); }
  }

  /** However requests interleave, the cache and queue are those of the coalescing cache on the events
      started so far. */
  lemma {:induction false} CacheOfMoves(moves: seq<Move>, states: seq<Whole>, n: nat)
    requires IsRunning(moves, states) && n <= |moves|
    ensures states[n].svc.cache == C.Run(CacheEvents(StartedBefore(moves, states, n))).st
  {
    if n == 0 {
      assert C.Run([]).st == Service.START.cache;
    } else {
      CacheOfMoves(moves, states, n - 1);
      CacheMoves(states[n - 1], moves[n - 1], StartedBefore(moves, states, n - 1));
      assert MoveAt(moves, states, n - 1);
    }
  }

  /** An xname condemned by a batch was reported by SCNs received before. */
  lemma ReportedBefore(moves: seq<Move>, states: seq<Whole>, j: nat, xname: string, agent: string)
    requires IsRunning(moves, states) && j < |moves| && moves[j].Begin? && Condemning(states[j], moves[j], xname, agent)
    ensures Reported(Received(StartedBefore(moves, states, j)), xname)
  {
    CacheOfMoves(moves, states, j);
    AcceptedIsReceived(StartedBefore(moves, states, j));
    QueuedMarksAreReported(CacheEvents(StartedBefore(moves, states, j)), xname);
  }

  /** Whole-run provenance under every interleaving: a stored subscription disappears only in a step
      of a DELETE or PATCH naming its owner, or in a step of a prune round preceded, since the prune
      map was last emptied, by a move that condemned the owner; and an SCN does that only if received
      SCNs reported the xname. */
  lemma WhyItDisappears(moves: seq<Move>, states: seq<Whole>, n: nat, o: Subscription)
    requires IsRunning(moves, states) && n < |moves| && SoundMoves(moves)
    requires Sound(o) && o.Key() in states[n].svc.data && o.Key() !in states[n + 1].svc.data
    ensures NamedBy(states[n], moves[n], o.xname, o.agent)
            || (moves[n].Advance? && moves[n].id in states[n].ops && states[n].ops[moves[n].id].Pruning?
                && exists j :: 0 <= j < n && NotCleared(moves, states, j, n)
                               && Condemning(states[j], moves[j], o.xname, o.agent)
                               && (moves[j].Begin? ==> Reported(Received(StartedBefore(moves, states, j)), o.xname)))
  {
    AlwaysSound(moves, states, n);
    assert MoveAt(moves, states, n);
    MoveRemoves(states[n], moves[n], o);
    if !NamedBy(states[n], moves[n], o.xname, o.agent) {
      var m := if o.xname in states[n].svc.marks then o.xname else PruneMark(o.xname, o.agent);
      var j := MarkCause(moves, states, n, m);
      AlwaysSound(moves, states, j);
      AddsCondemns(states[j], moves[j], m, o.xname, o.agent);
      if moves[j].Begin? {
        ReportedBefore(moves, states, j, o.xname, o.agent);
      }
    }
  }

  // ---------- one prune round among everything else ----------

  /** At most one prune round runs at a time, and it holds the lock. */
  ghost predicate OneRound(s: Whole) {
    (forall id :: id in s.ops && s.ops[id].Pruning? ==> s.pruning)
    && (forall i, j :: i in s.ops && j in s.ops && s.ops[i].Pruning? && s.ops[j].Pruning? ==> i == j)
  }

  lemma FirstLock(s: State, pruning: bool, e: Event)
    ensures var t := First(s, pruning, e);
            if t.next.Some? && t.next.value.Pruning? then !pruning && t.pruning else t.pruning == pruning
  {
  }

  lemma NextLock(s: State, pruning: bool, op: Op)
    requires Proper(op) && (op.Pruning? ==> pruning)
    ensures var t := Next(s, pruning, op);
            if op.Pruning? then t.pruning == t.next.Some? && (t.next.Some? ==> t.next.value.Pruning?)
            else t.pruning == pruning && (t.next.Some? ==> !t.next.value.Pruning?)
  {
    match op
    case Removing(e, todo, owed) => assert Next(s, pruning, op) == NextRemoving(s, pruning, e, todo, owed);
    case Patching(e, todo) =>
      assert Next(s, pruning, op) == PatchTurn(s, pruning, e, Found(e, todo), StoringOf(e), e.io.deleteFails, todo);
    case _ =>
  }

  lemma AfterOneRound(s: Whole, move: Move)
    requires OneRound(s)
    ensures OneRound(After(s, move))
  {
    match move
    case Begin(_, e) => FirstLock(s.svc, s.pruning, e);
    case Advance(id) =>
      if id in s.ops && Proper(s.ops[id]) {
        NextLock(s.svc, s.pruning, s.ops[id]);
      }
  }

  lemma {:induction false} AlwaysOneRound(moves: seq<Move>, states: seq<Whole>, n: nat)
    requires IsRunning(moves, states) && n <= |moves|
    ensures OneRound(states[n])
  {
    if n > 0 {
      AlwaysOneRound(moves, states, n - 1);
      AfterOneRound(states[n - 1], moves[n - 1]);
      assert MoveAt(moves, states, n - 1);
    }
  }

  /** A POST or PATCH stores this key now. */
  predicate Stores(s: Whole, move: Move, key: string) {
    move.Advance? && move.id in s.ops && s.ops[move.id].Storing? && s.ops[move.id].key == key
  }

  ghost predicate StoredBetween(moves: seq<Move>, states: seq<Whole>, b: int, i: int, key: string)
    requires |states| == |moves| + 1 && 0 <= b <= i <= |moves|
  {
    exists k :: b <= k < i && Stores(states[k], moves[k], key)
  }

  lemma NextGains(s: State, pruning: bool, op: Op, k: string)
    requires Proper(op) && k !in s.data && k in Next(s, pruning, op).svc.data
    ensures op.Storing? && op.key == k
  {
    match op
    case Removing(e, todo, owed) => RemovingData(s, pruning, e, todo, owed);
    case Patching(e, todo) =>
      PatchTurnData(s, pruning, e, Found(e, todo), StoringOf(e), e.io.deleteFails, todo);
    case Pruning(io, todo) => PruningData(s, io, todo);
    case _ =>
  }

  lemma AfterGains(s: Whole, move: Move, k: string)
    requires SoundWhole(s) && k !in s.svc.data && k in After(s, move).svc.data
    ensures Stores(s, move, k)
  {
    match move
    case Begin(_, e) => FirstRemovesNothing(s.svc, s.pruning, e);
    case Advance(id) => NextGains(s.svc, s.pruning, s.ops[id], k);
  }

  /** The move starts a prune round: it takes the lock and reads the store. */
  predicate Starts(s: Whole, move: Move, id: nat) {
    move.Begin? && move.id == id && id !in s.ops && !s.pruning && s.svc.marks != {} && move.e.PruneTick?
      && move.e.io.rangeOk
  }

  predicate Listed(todo: seq<Record>, key: string) {
    exists i :: 0 <= i < |todo| && todo[i].key == key
  }

  /** What the round that started in s is about to do to this key, in a later state of it. */
  ghost predicate InRound(s: Whole, later: Whole, id: nat, io: KvIo, key: string, stored: bool) {
    id in later.ops && later.ops[id].Pruning? && later.ops[id].io == io && later.pruning
    && later.svc.marks == s.svc.marks
    && (key in later.svc.data && !stored ==> Listed(later.ops[id].todo, key))
  }

  lemma RoundStarts(s: Whole, move: Move, id: nat, key: string)
    requires Starts(s, move, id) && Scanned(key)
    ensures InRound(s, After(s, move), id, move.e.io, key, false)
  {
    if key in s.svc.data {
      assert HasKey(All(s.svc), key);
    }
  }

  lemma RoundAdvances(s: Whole, now: Whole, id: nat, io: KvIo, key: string, stored: bool)
    requires InRound(s, now, id, io, key, stored) && now.ops[id].todo != []
    requires (XnameOf(key) in s.svc.marks || PruneLabel(key) in s.svc.marks) && key !in io.deleteFails
    ensures InRound(s, After(now, Advance(id)), id, io, key, stored)
  {
    var todo := now.ops[id].todo;
    var after := After(now, Advance(id));
    assert after.ops[id] == Pruning(io, todo[1..]);
    if key in after.svc.data && !stored {
      var i :| 0 <= i < |todo| && todo[i].key == key;
      assert key in RemovedOne(todo[0], OfMarks(s.svc.marks), io) || todo[0].key != key;
      assert i > 0 && todo[1..][i - 1].key == key;
    }
  }

  lemma OthersLeaveTheRound(s: Whole, now: Whole, move: Move, id: nat, io: KvIo, key: string, stored: bool)
    requires InRound(s, now, id, io, key, stored) && SoundWhole(now) && OneRound(now) && move != Advance(id)
    ensures InRound(s, After(now, move), id, io, key, stored || Stores(now, move, key))
  {
    var after := After(now, move);
    assert move.id == id ==> move.Begin? && after == now;
    AfterOneRound(now, move);
    assert id in after.ops && after.ops[id] == now.ops[id];
    forall m ensures m in after.svc.marks <==> m in now.svc.marks {
      AfterMarks(now, move, m);
    }
    if key in after.svc.data && key !in now.svc.data {
      AfterGains(now, move, key);
    }
  }

  lemma RoundContinues(s: Whole, now: Whole, move: Move, id: nat, io: KvIo, key: string, stored: bool)
    requires InRound(s, now, id, io, key, stored) && SoundWhole(now) && OneRound(now) && id in After(now, move).ops
    requires (XnameOf(key) in s.svc.marks || PruneLabel(key) in s.svc.marks) && key !in io.deleteFails
    ensures InRound(s, After(now, move), id, io, key, stored || Stores(now, move, key))
  {
    if move == Advance(id) {
      RoundAdvances(s, now, id, io, key, stored);
    } else {
      OthersLeaveTheRound(s, now, move, id, io, key, stored);
    }
  }

  lemma StoredLater(moves: seq<Move>, states: seq<Whole>, b: nat, i: nat, key: string)
    requires |states| == |moves| + 1 && b < i <= |moves|
    ensures StoredBetween(moves, states, b, i, key) <==>
              StoredBetween(moves, states, b, i - 1, key) || Stores(states[i - 1], moves[i - 1], key)
  {
  }

  /** The round and the key it is about to deal with. */
  ghost predicate Round(moves: seq<Move>, states: seq<Whole>, b: nat, id: nat, key: string)
    requires |states| == |moves| + 1 && b < |moves|
  {
    Starts(states[b], moves[b], id) && Scanned(key) && key !in moves[b].e.io.deleteFails
    && (XnameOf(key) in states[b].svc.marks || PruneLabel(key) in states[b].svc.marks)
  }

  ghost predicate RoundAt(moves: seq<Move>, states: seq<Whole>, b: nat, i: nat, id: nat, key: string)
    requires |states| == |moves| + 1 && b < i <= |moves| && Round(moves, states, b, id, key)
  {
    InRound(states[b], states[i], id, moves[b].e.io, key, StoredBetween(moves, states, b, i, key))
  }

  lemma RoundFirst(moves: seq<Move>, states: seq<Whole>, b: nat, id: nat, key: string)
    requires IsRunning(moves, states) && b < |moves| && Round(moves, states, b, id, key)
    ensures RoundAt(moves, states, b, b + 1, id, key)
  {
    assert MoveAt(moves, states, b);
    RoundStarts(states[b], moves[b], id, key);
  }

  lemma RoundNext(moves: seq<Move>, states: seq<Whole>, b: nat, i: nat, id: nat, key: string)
    requires IsRunning(moves, states) && SoundMoves(moves) && b < i < |moves| && Round(moves, states, b, id, key)
    requires id in states[i + 1].ops && RoundAt(moves, states, b, i, id, key)
    ensures RoundAt(moves, states, b, i + 1, id, key)
  {
    AlwaysSound(moves, states, i);
    AlwaysOneRound(moves, states, i);
    assert MoveAt(moves, states, i);
    StoredLater(moves, states, b, i + 1, key);
    RoundContinues(states[b], states[i], moves[i], id, moves[b].e.io, key, StoredBetween(moves, states, b, i, key));
  }

  lemma {:induction false} RoundInProgress(moves: seq<Move>, states: seq<Whole>, b: nat, i: nat, id: nat, key: string)
    requires IsRunning(moves, states) && SoundMoves(moves) && b < i <= |moves| && Round(moves, states, b, id, key)
    requires forall k :: b < k <= i ==> id in states[k].ops
    ensures RoundAt(moves, states, b, i, id, key)
    decreases i
  {
    if i == b + 1 {
      RoundFirst(moves, states, b, id, key);
    } else {
      RoundInProgress(moves, states, b, i - 1, id, key);
      RoundNext(moves, states, b, i - 1, id, key);
    }
  }

  /** A prune round does its work whatever interleaves with it: from its end on, no key that was
      marked at its start is in the store unless a POST or PATCH stored it during the round. */
  lemma PruneRoundRemoves(moves: seq<Move>, states: seq<Whole>, b: nat, c: nat, id: nat, key: string)
    requires IsRunning(moves, states) && SoundMoves(moves) && b < c < |moves| && Starts(states[b], moves[b], id)
    requires (forall k :: b < k <= c ==> id in states[k].ops) && id !in states[c + 1].ops
    requires Scanned(key) && key !in moves[b].e.io.deleteFails
    requires XnameOf(key) in states[b].svc.marks || PruneLabel(key) in states[b].svc.marks
    ensures key in states[c + 1].svc.data ==> StoredBetween(moves, states, b, c, key)
    ensures states[c + 1].svc.marks == {} && !states[c + 1].pruning
  {
    RoundInProgress(moves, states, b, c, id, key);
    assert MoveAt(moves, states, c);
    RoundEnds(states[b], states[c], moves[c], id, moves[b].e.io, key, StoredBetween(moves, states, b, c, key));
  }

  lemma RoundEnds(s: Whole, now: Whole, move: Move, id: nat, io: KvIo, key: string, stored: bool)
    requires InRound(s, now, id, io, key, stored) && id !in After(now, move).ops
    ensures key in After(now, move).svc.data ==> stored
    ensures After(now, move).svc.marks == {} && !After(now, move).pruning
  {
    assert move == Advance(id);
  }

  /** A mark is in force until the prune map is next emptied. */
  lemma {:induction false} MarkPersists(moves: seq<Move>, states: seq<Whole>, j: nat, n: nat, m: string)
    requires IsRunning(moves, states) && SoundMoves(moves) && j < n <= |moves|
    requires NotCleared(moves, states, j, n) && Adds(states[j], moves[j], m)
    ensures m in states[n].svc.marks
    decreases n - j
  {
    MarksAt(moves, states, n - 1, m);
    if n == j + 1 {
      assert !Clears(states[j], moves[j]);
    } else {
      MarkPersists(moves, states, j, n - 1, m);
    }
  }

  /** No mark is lost: whatever is marked, and not stored again during it, is gone after the next
      prune round in which all calls to the store succeed. */
  lemma MarkedAreRemoved(moves: seq<Move>, states: seq<Whole>, j: nat, b: nat, c: nat, id: nat, o: Subscription)
    requires IsRunning(moves, states) && SoundMoves(moves) && j < b < c < |moves| && NotCleared(moves, states, j, b)
    requires Sound(o)
             && (Adds(states[j], moves[j], o.xname) || Adds(states[j], moves[j], PruneMark(o.xname, o.agent)))
    requires Starts(states[b], moves[b], id) && moves[b].e.io.deleteFails == {}
    requires (forall k :: b < k <= c ==> id in states[k].ops) && id !in states[c + 1].ops
    ensures o.Key() in states[c + 1].svc.data ==> StoredBetween(moves, states, b, c, o.Key())
  {
    OwnerRead(o);
    var m := if Adds(states[j], moves[j], o.xname) then o.xname else PruneMark(o.xname, o.agent);
    MarkPersists(moves, states, j, b, m);
    PruneRoundRemoves(moves, states, b, c, id, o.Key());
  }
}
