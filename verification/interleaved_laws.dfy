/** What single requests still guarantee when others interleave with them, and what they do not:
    the PATCH that adds a record, the fanout of a snapshot, the send to a marked subscriber. */
module InterleavedLaws {
  import opened Text
  import opened Types
  import opened Scanners
  import opened Store
  import opened Fanout
  import opened Subscriptions
  import opened SubscriptionLaws
  import opened Service
  import opened Interleaving
  import opened InterleavedRuns

  /** A goroutine only moves by its own moves. */
  lemma OthersKeepOp(s: Whole, move: Move, id: nat)
    requires id in s.ops && move != Advance(id)
    ensures id in After(s, move).ops && After(s, move).ops[id] == s.ops[id]
  {
  }

  // ---------- when an interleaved PATCH adds a record ----------

  lemma RemovedSize(data: Db, k: string)
    ensures |data - {k}| == |data| - if k in data then 1 else 0
  {
    assert (data - {k}).Keys == data.Keys - {k};
  }

  lemma StoredSize(data: Db, k: string, v: SubData)
    ensures |data[k := v]| == |data| + if k in data then 0 else 1
  {
    assert data[k := v].Keys == data.Keys + {k};
  }

  /** The goroutine is a PATCH about to replace the first record of its list, and can. */
  predicate Replacing(s: Whole, id: nat) {
    id in s.ops && s.ops[id].Patching? && var e := s.ops[id].e;
    (e.PatchV1? || e.PatchV2?) && Found(e, s.ops[id].todo)
    && (NewSub(e).Key() == s.ops[id].todo[0].key || s.ops[id].todo[0].key !in e.io.deleteFails)
  }

  lemma PatchTurnFound(s: State, pruning: bool, e: Event, made: Op, fails: set<string>, todo: seq<Record>)
    requires made.Storing? && todo != [] && (made.key == todo[0].key || todo[0].key !in fails)
    ensures PatchTurn(s, pruning, e, true, made, fails, todo)
            == Turn(if made.key == todo[0].key then s else s.(data := s.data - {todo[0].key}), pruning, Some(made))
  {
  }

  lemma ReplacingMove(s: Whole, id: nat)
    requires Replacing(s, id)
    ensures var e, key, next := s.ops[id].e, s.ops[id].todo[0].key, After(s, Advance(id));
            next.svc.data == (if NewSub(e).Key() == key then s.svc.data else s.svc.data - {key})
            && id in next.ops && next.ops[id] == StoringOf(e)
  {
    var e, todo := s.ops[id].e, s.ops[id].todo;
    PatchTurnFound(s.svc, s.pruning, e, StoringOf(e), e.io.deleteFails, todo);
    assert Next(s.svc, s.pruning, s.ops[id])
           == PatchTurn(s.svc, s.pruning, e, true, StoringOf(e), e.io.deleteFails, todo);
  }

  lemma StoringMove(s: Whole, id: nat, key: string, value: SubData, ok: bool)
    requires id in s.ops && s.ops[id] == Storing(key, value, ok)
    ensures After(s, Advance(id)).svc.data == if ok then s.svc.data[key := value] else s.svc.data
  {
  }

  /** How many records a move adds to the store. */
  ghost function Growth(s: Whole, move: Move): int {
    |After(s, move).svc.data| - |s.svc.data|
  }

  /** The two steps of a PATCH that has found a record, whatever others do to the store in between:
      they add a record exactly if the store call succeeds, the new key is free when it is made, and
      the found key is the new one or was gone when it was deleted. */
  lemma PatchStepsAddExactly(d: Whole, t: Whole, id: nat)
    requires Replacing(d, id) && id in t.ops && t.ops[id] == StoringOf(d.ops[id].e)
    ensures var e, key := d.ops[id].e, d.ops[id].todo[0].key;
            var made, added := NewSub(e).Key(), Growth(d, Advance(id)) + Growth(t, Advance(id));
            added == (if e.io.storeOk && made !in t.svc.data then 1 else 0)
                     - (if made != key && key in d.svc.data then 1 else 0)
            && (added > 0 <==> e.io.storeOk && made !in t.svc.data && (made == key || key !in d.svc.data))
  {
    var e := d.ops[id].e;
    ReplacingMove(d, id);
    RemovedSize(d.svc.data, d.ops[id].todo[0].key);
    StoringMove(t, id, NewSub(e).Key(), DataOf(LowerBody(e.body)), e.io.storeOk);
    StoredSize(t.svc.data, NewSub(e).Key(), DataOf(LowerBody(e.body)));
  }

  /** A PATCH begins in state b, is about to replace what it found in state i, and stores in state k. */
  ghost predicate PatchRuns(moves: seq<Move>, states: seq<Whole>, b: nat, i: nat, k: nat, id: nat) {
    IsRunning(moves, states) && b < i < k < |moves|
    && moves[b].Begin? && moves[b].id == id && id !in states[b].ops
    && (forall j :: b < j <= i ==> id in states[j].ops && states[j].ops[id].Patching?)
    && Replacing(states[i], id) && moves[i] == Advance(id) && moves[k] == Advance(id)
    && (forall j :: i < j < k ==> moves[j] != Advance(id))
  }

  /** The goroutine is the PATCH begun in state b, with records of b still to look at. */
  ghost predicate PatchingFrom(b: Whole, e: Event, now: Whole, id: nat) {
    id in now.ops && now.ops[id].Patching? && now.ops[id].e == e && (e.PatchV1? || e.PatchV2?)
    && forall r :: r in now.ops[id].todo ==> r.key in b.svc.data
  }

  lemma PatchBegins(b: Whole, move: Move, id: nat)
    requires move.Begin? && move.id == id && id !in b.ops
    requires id in After(b, move).ops && After(b, move).ops[id].Patching?
    ensures PatchingFrom(b, move.e, After(b, move), id) && After(b, move).svc == b.svc
  {
    var e := move.e;
    assert e.PatchV1? || e.PatchV2?;
    var start := PatchStart(LowerBody(e.body).subscriber);
    ListingHas(b.svc.data, start, start + "z", PatchListing(b.svc, e));
    assert First(b.svc, b.pruning, e) == FirstPatch(b.svc, b.pruning, e);
  }

  lemma PatchTurnStays(s: State, pruning: bool, e: Event, found: bool, made: Op, fails: set<string>, todo: seq<Record>)
    requires made.Storing?
    ensures var t := PatchTurn(s, pruning, e, found, made, fails, todo);
            t.next.Some? && t.next.value.Patching? ==>
              todo != [] && t.next.value == Patching(e, todo[1..]) && t.svc == s
  {
  }

  lemma PatchGoesOn(b: Whole, e: Event, now: Whole, id: nat)
    requires PatchingFrom(b, e, now, id)
    requires id in After(now, Advance(id)).ops && After(now, Advance(id)).ops[id].Patching?
    ensures PatchingFrom(b, e, After(now, Advance(id)), id) && After(now, Advance(id)).svc == now.svc
  {
    var todo := now.ops[id].todo;
    PatchTurnStays(now.svc, now.pruning, e, Found(e, todo), StoringOf(e), e.io.deleteFails, todo);
    assert Next(now.svc, now.pruning, now.ops[id]) == NextPatching(now.svc, now.pruning, e, todo);
    assert todo != [] ==> forall r :: r in todo[1..] ==> r in todo;
  }

  lemma {:induction false} PatchReads(moves: seq<Move>, states: seq<Whole>, b: nat, j: nat, id: nat)
    requires IsRunning(moves, states) && b < j <= |moves|
    requires moves[b].Begin? && moves[b].id == id && id !in states[b].ops
    requires forall k :: b < k <= j ==> id in states[k].ops && states[k].ops[id].Patching?
    ensures PatchingFrom(states[b], moves[b].e, states[j], id)
    ensures moves[j - 1] == Advance(id) || j - 1 == b ==> states[j].svc.data == states[j - 1].svc.data
    decreases j
  {
    assert MoveAt(moves, states, j - 1);
    if j == b + 1 {
      PatchBegins(states[b], moves[b], id);
    } else {
      PatchReads(moves, states, b, j - 1, id);
      if moves[j - 1] == Advance(id) {
        PatchGoesOn(states[b], moves[b].e, states[j - 1], id);
      } else {
        OthersKeepOp(states[j - 1], moves[j - 1], id);
      }
    }
  }

  lemma {:induction false} StoringWaits(moves: seq<Move>, states: seq<Whole>, i: nat, k: nat, id: nat)
    requires IsRunning(moves, states) && i <= k <= |moves| && id in states[i].ops
    requires forall j :: i <= j < k ==> moves[j] != Advance(id)
    ensures id in states[k].ops && states[k].ops[id] == states[i].ops[id]
    decreases k
  {
    if i < k {
      StoringWaits(moves, states, i, k - 1, id);
      assert MoveAt(moves, states, k - 1);
      OthersKeepOp(states[k - 1], moves[k - 1], id);
    }
  }

  /** Another goroutine removes the key in this stretch of the run. */
  ghost predicate RemovedByOther(moves: seq<Move>, states: seq<Whole>, b: nat, k: nat, id: nat, key: string)
    requires |states| == |moves| + 1 && b <= k <= |moves|
  {
    exists j :: b <= j < k && moves[j] != Advance(id) && key in states[j].svc.data && key !in states[j + 1].svc.data
  }

  /** If a goroutine's own moves leave the store alone, only others can have removed a key. */
  lemma {:induction false} SomeoneRemoved(moves: seq<Move>, states: seq<Whole>, b: nat, k: nat, id: nat, key: string)
    requires |states| == |moves| + 1 && b <= k <= |moves| && key in states[b].svc.data && key !in states[k].svc.data
    requires forall j :: b <= j < k && moves[j] == Advance(id) ==> states[j + 1].svc.data == states[j].svc.data
    ensures RemovedByOther(moves, states, b, k, id, key)
    decreases k
  {
    if key !in states[k - 1].svc.data {
      SomeoneRemoved(moves, states, b, k - 1, id, key);
    }
  }

  /** A PATCH still reading its list since state b. */
  ghost predicate ReadingSince(moves: seq<Move>, states: seq<Whole>, b: nat, i: nat, id: nat) {
    IsRunning(moves, states) && b < i <= |moves| && moves[b].Begin? && moves[b].id == id && id !in states[b].ops
    && forall j :: b < j <= i ==> id in states[j].ops && states[j].ops[id].Patching?
  }

  lemma ReadingLeavesStore(moves: seq<Move>, states: seq<Whole>, b: nat, i: nat, id: nat)
    requires ReadingSince(moves, states, b, i, id)
    ensures forall j :: b <= j < i && moves[j] == Advance(id) ==> states[j + 1].svc.data == states[j].svc.data
  {
    forall j | b <= j < i && moves[j] == Advance(id) ensures states[j + 1].svc.data == states[j].svc.data {
      PatchReads(moves, states, b, j + 1, id);
    }
  }

  lemma FoundWasThere(moves: seq<Move>, states: seq<Whole>, b: nat, i: nat, id: nat)
    requires ReadingSince(moves, states, b, i, id) && states[i].ops[id].todo != []
    ensures var key := states[i].ops[id].todo[0].key;
            key in states[b].svc.data && (key !in states[i].svc.data ==> RemovedByOther(moves, states, b, i, id, key))
  {
    var todo := states[i].ops[id].todo;
    PatchReads(moves, states, b, i, id);
    assert todo[0] in todo;
    ReadingLeavesStore(moves, states, b, i, id);
    if todo[0].key !in states[i].svc.data {
      SomeoneRemoved(moves, states, b, i, id, todo[0].key);
    }
  }

  lemma RemovedWithin(moves: seq<Move>, states: seq<Whole>, b: nat, i: nat, j: nat, k: nat, id: nat, key: string)
    requires |states| == |moves| + 1 && b <= i <= j <= k <= |moves| && RemovedByOther(moves, states, i, j, id, key)
    ensures RemovedByOther(moves, states, b, k, id, key)
  {
  }

  lemma StepsInRun(moves: seq<Move>, states: seq<Whole>, b: nat, i: nat, k: nat, id: nat)
    requires PatchRuns(moves, states, b, i, k, id)
    ensures states[i + 1] == After(states[i], Advance(id)) && id in states[k].ops
            && states[k].ops[id] == StoringOf(states[i].ops[id].e)
    ensures ReadingSince(moves, states, b, i, id)
    ensures NewSub(states[i].ops[id].e).Key() == states[i].ops[id].todo[0].key ==>
              states[i + 1].svc.data == states[i].svc.data
  {
    assert MoveAt(moves, states, i);
    ReplacingMove(states[i], id);
    StoringWaits(moves, states, i + 1, k, id);
  }

  lemma RemovedWhileStoring(moves: seq<Move>, states: seq<Whole>, b: nat, i: nat, k: nat, id: nat, key: string)
    requires |states| == |moves| + 1 && b <= i < k <= |moves| && (forall j :: i < j < k ==> moves[j] != Advance(id))
    requires key in states[i + 1].svc.data && key !in states[k].svc.data
    ensures RemovedByOther(moves, states, b, k, id, key)
  {
    SomeoneRemoved(moves, states, i + 1, k, id, key);
    RemovedWithin(moves, states, b, i + 1, k, k, id, key);
  }

  lemma FoundWasRemoved(moves: seq<Move>, states: seq<Whole>, b: nat, i: nat, k: nat, id: nat)
    requires PatchRuns(moves, states, b, i, k, id)
    ensures var key := states[i].ops[id].todo[0].key;
            key !in states[i].svc.data || (NewSub(states[i].ops[id].e).Key() == key && key !in states[k].svc.data) ==>
              RemovedByOther(moves, states, b, k, id, key)
  {
    var key := states[i].ops[id].todo[0].key;
    StepsInRun(moves, states, b, i, k, id);
    if key !in states[i].svc.data {
      FoundWasThere(moves, states, b, i, id);
      RemovedWithin(moves, states, b, b, i, k, id, key);
    } else if NewSub(states[i].ops[id].e).Key() == key && key !in states[k].svc.data {
      RemovedWhileStoring(moves, states, b, i, k, id, key);
    }
  }

  /** In every run, for every store and both APIs: a PATCH adds a record exactly if its store call
      succeeds, its new key is free then, and the key it found is the new one or was gone when it was
      deleted; and it adds one only if another goroutine removed the found key since it began. */
  lemma PatchAddsExactly(moves: seq<Move>, states: seq<Whole>, b: nat, i: nat, k: nat, id: nat)
    requires PatchRuns(moves, states, b, i, k, id)
    ensures var e, key := states[i].ops[id].e, states[i].ops[id].todo[0].key;
            var made, added := NewSub(e).Key(), Growth(states[i], moves[i]) + Growth(states[k], moves[k]);
            (added > 0 <==> e.io.storeOk && made !in states[k].svc.data && (made == key || key !in states[i].svc.data))
            && (added > 0 ==> RemovedByOther(moves, states, b, k, id, key))
  {
    StepsInRun(moves, states, b, i, k, id);
    PatchStepsAddExactly(states[i], states[k], id);
    FoundWasRemoved(moves, states, b, i, k, id);
  }

  /** A v2 PATCH of this subscription's owner that names no subscriber in its body and whose store answers. */
  predicate Replaces(e: Event, was: Subscription) {
    e.PatchV2? && e.xname == was.xname && e.agent == was.agent && e.body.subscriber == "" && e.io == KV_OK
    && NewSub(e).Key() != was.Key()
  }

  lemma NoSubscriberStart()
    ensures Lower("") == "" && PatchStart("") == "sub#"
  {
    assert Index("", "@") == -1;
  }

  lemma SinglePatchListing(s: State, e: Event, was: Subscription, value: SubData)
    requires Sound(was) && Replaces(e, was) && s.data == map[was.Key() := value]
    ensures PatchListing(s, e) == [Record(was.Key(), value)]
  {
    NoSubscriberStart();
    EmptyBodyRange(was);
    SingleListing(was.Key(), value, "sub#", "sub#" + "z");
  }

  lemma PatchOpens(s: State, e: Event, was: Subscription, value: SubData)
    requires Sound(was) && Replaces(e, was) && s.data == map[was.Key() := value]
    ensures First(s, false, e) == Turn(s, false, Some(Patching(e, [Record(was.Key(), value)])))
    ensures PatchMatch(WhoOf(e), Record(was.Key(), value))
  {
    OwnerRead(was);
    SinglePatchListing(s, e, was, value);
    assert was.xname != "" && Accepted(e);
    assert First(s, false, e) == FirstPatch(s, false, e);
  }

  lemma OpenMove(w: Whole, id: nat, e: Event, was: Subscription, value: SubData)
    requires id !in w.ops && !w.pruning && w.svc.data == map[was.Key() := value] && Sound(was) && Replaces(e, was)
    ensures After(w, Begin(id, e)) == Whole(w.svc, false, w.ops[id := Patching(e, [Record(was.Key(), value)])])
  {
    PatchOpens(w.svc, e, was, value);
  }

  lemma DeleteMove(w: Whole, id: nat, e: Event, was: Subscription, value: SubData)
    requires id in w.ops && w.ops[id] == Patching(e, [Record(was.Key(), value)]) && Sound(was) && Replaces(e, was)
    ensures After(w, Advance(id)) == Whole(w.svc.(data := w.svc.data - {was.Key()}), w.pruning,
            w.ops[id := StoringOf(e)])
  {
    PatchOpens(w.svc.(data := map[was.Key() := value]), e, was, value);
  }

  lemma StoreMove(w: Whole, id: nat, key: string, value: SubData)
    requires id in w.ops && w.ops[id] == Storing(key, value, true)
    ensures After(w, Advance(id)) == Whole(w.svc.(data := w.svc.data[key := value]), w.pruning, w.ops - {id})
  {
  }

  lemma BothRead(s: Whole, p: Event, q: Event, was: Subscription, value: SubData)
    requires s.ops == map[] && !s.pruning && Sound(was) && s.svc.data == map[was.Key() := value]
    requires Replaces(p, was) && Replaces(q, was)
    ensures var list := [Record(was.Key(), value)];
            After(After(s, Begin(0, p)), Begin(1, q))
              == Whole(s.svc, false, map[0 := Patching(p, list), 1 := Patching(q, list)])
  {
    OpenMove(s, 0, p, was, value);
    OpenMove(After(s, Begin(0, p)), 1, q, was, value);
  }

  lemma BothDelete(s: Whole, p: Event, q: Event, was: Subscription, value: SubData)
    requires Sound(was) && Replaces(p, was) && Replaces(q, was) && s.svc.data == map[was.Key() := value]
    requires var list := [Record(was.Key(), value)]; s.ops == map[0 := Patching(p, list), 1 := Patching(q, list)]
    ensures var bothDeleted := After(After(s, Advance(0)), Advance(1));
            bothDeleted.svc == s.svc.(data := map[]) && bothDeleted.ops == map[0 := StoringOf(p), 1 := StoringOf(q)]
  {
    var gone := s.svc.data - {was.Key()};
    assert gone == map[];
    var oneDeleted := Whole(s.svc.(data := gone), s.pruning, s.ops[0 := StoringOf(p)]);
    DeleteMove(s, 0, p, was, value);
    assert After(s, Advance(0)) == oneDeleted;
    DeleteMove(oneDeleted, 1, q, was, value);
    assert gone - {was.Key()} == map[];
  }

  /** It does happen: two PATCHes of one subscription that both read the store before either deletes
      leave two in its place. */
  lemma RacingPatchesMultiply(s: Whole, p: Event, q: Event, was: Subscription, value: SubData)
    requires s.ops == map[] && !s.pruning && Sound(was) && s.svc.data == map[was.Key() := value]
    requires Replaces(p, was) && Replaces(q, was) && NewSub(p).Key() != NewSub(q).Key()
    ensures var bothRead := After(After(s, Begin(0, p)), Begin(1, q));
            var bothDeleted := After(After(bothRead, Advance(0)), Advance(1));
            After(After(bothDeleted, Advance(0)), Advance(1)).svc.data
            == map[NewSub(p).Key() := DataOf(LowerBody(p.body)), NewSub(q).Key() := DataOf(LowerBody(q.body))]
  {
    BothRead(s, p, q, was, value);
    var read := After(After(s, Begin(0, p)), Begin(1, q));
    BothDelete(read, p, q, was, value);
    var deleted := After(After(read, Advance(0)), Advance(1));
    StoreMove(deleted, 0, NewSub(p).Key(), DataOf(LowerBody(p.body)));
    StoreMove(After(deleted, Advance(0)), 1, NewSub(q).Key(), DataOf(LowerBody(q.body)));
  }

  /** The move stores the record of this key. */
  predicate StoresKey(s: Whole, move: Move) {
    move.Advance? && move.id in s.ops && s.ops[move.id].Storing? && s.ops[move.id].ok
  }

  lemma MoveKeys(s: Whole, move: Move)
    ensures StoresKey(s, move) ==> s.ops[move.id].key in After(s, move).svc.data
    ensures After(s, move).svc.data.Keys <= s.svc.data.Keys + if StoresKey(s, move) then {s.ops[move.id].key} else {}
  {
    match move
    case Begin(id, e) => FirstRemovesNothing(s.svc, s.pruning, e);
    case Advance(id) =>
      if id in s.ops && Proper(s.ops[id]) {
        if s.ops[id].Storing? {
          StoringMove(s, id, s.ops[id].key, s.ops[id].value, s.ops[id].ok);
        } else {
          forall k | k in Next(s.svc, s.pruning, s.ops[id]).svc.data ensures k in s.svc.data {
            if k !in s.svc.data {
              NextGains(s.svc, s.pruning, s.ops[id], k);
            }
          }
        }
      }
  }

  // ---------- one DELETE among everything else ----------

  /** The DELETE begun in state s has the key still before it, unless it is gone or stored again. */
  ghost predicate Deleting(s: Whole, now: Whole, id: nat, e: Event, key: string, stored: bool) {
    id in now.ops && now.ops[id].Removing? && now.ops[id].e == e && TargetOf(e).Some? && key in s.svc.data
    && (key in now.svc.data && !stored ==> Record(key, s.svc.data[key]) in now.ops[id].todo)
  }

  lemma DeleteStarts(s: Whole, id: nat, e: Event, key: string)
    requires id !in s.ops && TargetOf(e).Some? && e.io.rangeOk && key in s.svc.data && Scanned(key)
    ensures Deleting(s, After(s, Begin(id, e)), id, e, key, false)
  {
    ListingHas(s.svc.data, RANGE_START, RANGE_END, All(s.svc));
    assert First(s.svc, s.pruning, e) == Turn(s.svc, s.pruning, Some(Removing(e, All(s.svc), None)));
  }

  /** One step of a DELETE's loop leaves the rest of its list, and deletes what it should. */
  lemma RemovingTurn(s: State, pruning: bool, e: Event, todo: seq<Record>, owed: Option<string>, key: string,
                     value: SubData)
    requires TargetOf(e).Some? && Hit(TargetOf(e).value, key, value) && key !in e.io.deleteFails
    requires Record(key, value) in todo
    ensures var t := NextRemoving(s, pruning, e, todo, owed);
            t.next.Some? && t.next.value.Removing? && t.next.value.e == e && t.svc.data.Keys <= s.data.Keys
            && (key in t.svc.data ==> Record(key, value) in t.next.value.todo)
  {
    if owed.None? {
      assert todo == [todo[0]] + todo[1..];
    }
  }

  lemma RemovingEnds(s: State, pruning: bool, e: Event, todo: seq<Record>, owed: Option<string>)
    requires TargetOf(e).Some?
    ensures var t := NextRemoving(s, pruning, e, todo, owed);
            (t.next.Some? ==> t.next.value.Removing? && t.next.value.e == e) && t.svc.data.Keys <= s.data.Keys
            && (t.next.None? ==> todo == [])
  {
  }

  lemma DeleteMoves(s: Whole, now: Whole, id: nat, e: Event, key: string, stored: bool)
    requires Deleting(s, now, id, e, key, stored)
    requires Hit(TargetOf(e).value, key, s.svc.data[key]) && key !in e.io.deleteFails
    ensures var after := After(now, Advance(id));
            if id in after.ops then Deleting(s, after, id, e, key, stored) else key in after.svc.data ==> stored
  {
    var op := now.ops[id];
    assert Next(now.svc, now.pruning, op) == NextRemoving(now.svc, now.pruning, e, op.todo, op.owed);
    RemovingEnds(now.svc, now.pruning, e, op.todo, op.owed);
    if Record(key, s.svc.data[key]) in op.todo {
      RemovingTurn(now.svc, now.pruning, e, op.todo, op.owed, key, s.svc.data[key]);
    }
  }

  lemma OthersLeaveTheDelete(s: Whole, now: Whole, move: Move, id: nat, e: Event, key: string, stored: bool)
    requires Deleting(s, now, id, e, key, stored) && move != Advance(id)
    ensures Deleting(s, After(now, move), id, e, key, stored || Stores(now, move, key))
  {
    OthersKeepOp(now, move, id);
    MoveKeys(now, move);
  }

  /** The DELETE begins in state b on a record of its target, which it can delete. */
  ghost predicate DeleteOf(moves: seq<Move>, states: seq<Whole>, b: nat, id: nat, key: string) {
    IsRunning(moves, states) && b < |moves| && moves[b].Begin? && moves[b].id == id && id !in states[b].ops
    && var e := moves[b].e;
    TargetOf(e).Some? && e.io.rangeOk && key in states[b].svc.data && Scanned(key) && key !in e.io.deleteFails
    && Hit(TargetOf(e).value, key, states[b].svc.data[key])
  }

  lemma DeleteContinues(s: Whole, now: Whole, move: Move, id: nat, e: Event, key: string, stored: bool)
    requires Deleting(s, now, id, e, key, stored) && id in After(now, move).ops
    requires Hit(TargetOf(e).value, key, s.svc.data[key]) && key !in e.io.deleteFails
    ensures Deleting(s, After(now, move), id, e, key, stored || Stores(now, move, key))
  {
    if move == Advance(id) {
      DeleteMoves(s, now, id, e, key, stored);
    } else {
      OthersLeaveTheDelete(s, now, move, id, e, key, stored);
    }
  }

  lemma {:induction false} DeleteInProgress(moves: seq<Move>, states: seq<Whole>, b: nat, i: nat, id: nat, key: string)
    requires DeleteOf(moves, states, b, id, key) && b < i <= |moves| && forall k :: b < k <= i ==> id in states[k].ops
    ensures Deleting(states[b], states[i], id, moves[b].e, key, StoredBetween(moves, states, b, i, key))
    decreases i
  {
    assert MoveAt(moves, states, i - 1);
    if i == b + 1 {
      DeleteStarts(states[b], id, moves[b].e, key);
    } else {
      DeleteInProgress(moves, states, b, i - 1, id, key);
      StoredLater(moves, states, b, i, key);
      DeleteContinues(states[b], states[i - 1], moves[i - 1], id, moves[b].e, key,
                      StoredBetween(moves, states, b, i - 1, key));
    }
  }

  /** Whatever interleaves with it: at a DELETE's end no record of its target that was stored when it
      read the store, and whose deletion succeeds, is stored, unless a POST or PATCH stored it since. */
  lemma DeleteRemoves(moves: seq<Move>, states: seq<Whole>, b: nat, c: nat, id: nat, key: string)
    requires DeleteOf(moves, states, b, id, key) && b < c < |moves|
    requires (forall k :: b < k <= c ==> id in states[k].ops) && id !in states[c + 1].ops
    ensures key in states[c + 1].svc.data ==> StoredBetween(moves, states, b, c, key)
  {
    DeleteInProgress(moves, states, b, c, id, key);
    assert MoveAt(moves, states, c);
    if moves[c] == Advance(id) {
      DeleteMoves(states[b], states[c], id, moves[b].e, key, StoredBetween(moves, states, b, c, key));
    } else {
      OthersKeepOp(states[c], moves[c], id);
    }
  }

  // ---------- one POST among everything else ----------

  /** A POST passes its read in state b and stores in state k. */
  ghost predicate PostRuns(moves: seq<Move>, states: seq<Whole>, b: nat, k: nat, id: nat) {
    IsRunning(moves, states) && b < k < |moves| && moves[b].Begin? && moves[b].id == id && id !in states[b].ops
    && (moves[b].e.PostV1? || moves[b].e.PostV2?) && id in states[b + 1].ops && moves[k] == Advance(id)
    && forall j :: b < j < k ==> moves[j] != Advance(id)
  }

  lemma PostReads(s: Whole, id: nat, e: Event)
    requires id !in s.ops && (e.PostV1? || e.PostV2?) && id in After(s, Begin(id, e)).ops
    ensures After(s, Begin(id, e)).ops[id] == StoringOf(e) && After(s, Begin(id, e)).svc == s.svc
    ensures NewSub(e).Key() !in s.svc.data
  {
    assert First(s.svc, s.pruning, e) == FirstPost(s.svc, s.pruning, e);
  }

  /** Another request stores the key at j, where it was free, and it stays until k. */
  ghost predicate TakenSince(moves: seq<Move>, states: seq<Whole>, j: nat, k: nat, key: string)
    requires |states| == |moves| + 1 && j < k <= |moves|
  {
    key !in states[j].svc.data && Stores(states[j], moves[j], key)
      && forall i :: j < i <= k ==> key in states[i].svc.data
  }

  lemma {:induction false} PresentSince(moves: seq<Move>, states: seq<Whole>, b: nat, k: nat, key: string)
    returns (j: nat)
    requires IsRunning(moves, states) && b <= k <= |moves| && key !in states[b].svc.data && key in states[k].svc.data
    ensures b <= j < k && TakenSince(moves, states, j, k, key)
    decreases k
  {
    assert MoveAt(moves, states, k - 1);
    MoveKeys(states[k - 1], moves[k - 1]);
    if key in states[k - 1].svc.data {
      j := PresentSince(moves, states, b, k - 1, key);
    } else {
      j := k - 1;
    }
  }

  lemma PostStands(moves: seq<Move>, states: seq<Whole>, b: nat, k: nat, id: nat)
    requires PostRuns(moves, states, b, k, id)
    ensures id in states[k].ops && states[k].ops[id] == StoringOf(moves[b].e)
    ensures NewSub(moves[b].e).Key() !in states[b + 1].svc.data && states[k + 1] == After(states[k], Advance(id))
  {
    assert MoveAt(moves, states, b) && MoveAt(moves, states, k);
    PostReads(states[b], id, moves[b].e);
    StoringWaits(moves, states, b + 1, k, id);
  }

  /** A POST overwrites a record, though it found none, exactly if its store call succeeds and since its
      read another request has stored that key and nobody has deleted it; otherwise it adds one. */
  lemma PostOverwritesExactly(moves: seq<Move>, states: seq<Whole>, b: nat, k: nat, id: nat)
    requires PostRuns(moves, states, b, k, id)
    ensures var e := moves[b].e;
            var key := NewSub(e).Key();
            (key in states[k].svc.data <==> exists j :: b < j < k && TakenSince(moves, states, j, k, key))
            && Growth(states[k], moves[k]) == (if e.io.storeOk && key !in states[k].svc.data then 1 else 0)
            && (e.io.storeOk ==>
                  key in states[k + 1].svc.data && states[k + 1].svc.data[key] == DataOf(LowerBody(e.body)))
  {
    var e, key := moves[b].e, NewSub(moves[b].e).Key();
    PostStands(moves, states, b, k, id);
    StoringMove(states[k], id, key, DataOf(LowerBody(e.body)), e.io.storeOk);
    StoredSize(states[k].svc.data, key, DataOf(LowerBody(e.body)));
    if key in states[k].svc.data {
      var j := PresentSince(moves, states, b + 1, k, key);
    }
  }

  // ---------- sends and fanouts among everything else ----------

  /** From a mark until the prune map is next emptied, a worker that takes a job for the marked xname
      drops it: no attempt is made, and no goroutine is left to make one. */
  lemma MarkedGetsNothing(moves: seq<Move>, states: seq<Whole>, j: nat, n: nat, id: nat, e: Event)
    requires IsRunning(moves, states) && SoundMoves(moves) && j < n < |moves| && NotCleared(moves, states, j, n)
    requires moves[n] == Begin(id, e) && e.RunJob? && id !in states[n].ops && !states[n].pruning
    requires e.index < |states[n].svc.jobs| && Adds(states[j], moves[j], states[n].svc.jobs[e.index].subscriber)
    ensures AttemptsOfSend(states[n].svc.jobs[e.index], states[n].svc.marks, e.outcome, e.retries) == 0
    ensures states[n + 1].ops == states[n].ops
            && states[n + 1].svc == states[n].svc.(jobs := JobsAfter(states[n].svc, e))
  {
    MarkPersists(moves, states, j, n, states[n].svc.jobs[e.index].subscriber);
    assert MoveAt(moves, states, n);
  }

  /** The goroutine has queued this job in this stretch of the run. */
  ghost predicate QueuedBetween(moves: seq<Move>, states: seq<Whole>, r: nat, i: nat, id: nat, job: Job)
    requires |states| == |moves| + 1 && r <= i <= |moves|
  {
    exists k :: r <= k < i && moves[k] == Advance(id) && states[k + 1].svc.jobs == states[k].svc.jobs + [job]
  }

  /** The fanout of this SCN still has the record before it, or has queued its job. */
  ghost predicate FanningOn(now: Whole, id: nat, scn: Scn, suppressed: set<string>, rec: Record, queued: bool) {
    id in now.ops && now.ops[id].Fanning? && now.ops[id].scn == scn && now.ops[id].suppressed == suppressed
    && (queued || rec in now.ops[id].todo)
  }

  lemma FanningMove(now: Whole, id: nat, scn: Scn, suppressed: set<string>, rec: Record, queued: bool)
    requires FanningOn(now, id, scn, suppressed, rec, queued) && Selected(rec, scn, suppressed)
    requires now.ops[id].todo != []
    ensures var next := After(now, Advance(id));
            FanningOn(next, id, scn, suppressed, rec, queued || next.svc.jobs == now.svc.jobs + [JobFor(rec, scn)])
  {
    var todo := now.ops[id].todo;
    var next := After(now, Advance(id));
    assert next.ops[id] == Fanning(scn, suppressed, todo[1..]);
    assert todo == [todo[0]] + todo[1..];
    if todo[0] == rec {
      assert JobsOfOne(rec, scn, suppressed) == [JobFor(rec, scn)];
    }
  }

  lemma FanningEnds(now: Whole, id: nat)
    requires id in now.ops && now.ops[id].Fanning?
    ensures id !in After(now, Advance(id)).ops <==> now.ops[id].todo == []
  {
  }

  lemma FanningStarts(s: Whole, id: nat, scn: Scn, suppressed: set<string>, io: KvIo, rec: Record)
    requires id in s.ops && s.ops[id] == Noticing(scn, suppressed, io) && io.rangeOk && rec in All(s.svc)
    ensures FanningOn(After(s, Advance(id)), id, scn, suppressed, rec, false)
  {
  }

  lemma {:induction false} FanoutInProgress(moves: seq<Move>, states: seq<Whole>, r: nat, i: nat, id: nat, rec: Record)
    requires IsRunning(moves, states) && r < i <= |moves| && moves[r] == Advance(id) && id in states[r].ops
    requires states[r].ops[id].Noticing? && states[r].ops[id].io.rangeOk && rec in All(states[r].svc)
    requires Selected(rec, states[r].ops[id].scn, states[r].ops[id].suppressed)
    requires forall k :: r < k <= i ==> id in states[k].ops
    ensures var op := states[r].ops[id];
            FanningOn(states[i], id, op.scn, op.suppressed, rec,
                QueuedBetween(moves, states, r, i, id, JobFor(rec, op.scn)))
    decreases i
  {
    var op := states[r].ops[id];
    assert MoveAt(moves, states, i - 1);
    if i == r + 1 {
      FanningStarts(states[r], id, op.scn, op.suppressed, op.io, rec);
    } else {
      FanoutInProgress(moves, states, r, i - 1, id, rec);
      var before := QueuedBetween(moves, states, r, i - 1, id, JobFor(rec, op.scn));
      if moves[i - 1] == Advance(id) {
        FanningEnds(states[i - 1], id);
        FanningMove(states[i - 1], id, op.scn, op.suppressed, rec, before);
      } else {
        OthersKeepOp(states[i - 1], moves[i - 1], id);
      }
    }
  }

  /** A fanout that has read the store queues, before it ends, the job of every record it read that
      matches, whatever happens to the record meanwhile. */
  lemma SnapshotIsFannedOut(moves: seq<Move>, states: seq<Whole>, r: nat, c: nat, id: nat, rec: Record)
    requires IsRunning(moves, states) && r < c < |moves| && moves[r] == Advance(id) && id in states[r].ops
    requires states[r].ops[id].Noticing? && states[r].ops[id].io.rangeOk && rec in All(states[r].svc)
    requires Selected(rec, states[r].ops[id].scn, states[r].ops[id].suppressed)
    requires (forall k :: r < k <= c ==> id in states[k].ops) && id !in states[c + 1].ops
    ensures QueuedBetween(moves, states, r, c, id, JobFor(rec, states[r].ops[id].scn))
  {
    FanoutInProgress(moves, states, r, c, id, rec);
    assert MoveAt(moves, states, c);
    if moves[c] == Advance(id) {
      FanningEnds(states[c], id);
    } else {
      OthersKeepOp(states[c], moves[c], id);
    }
  }

  /** So under every interleaving a subscription that asks for an attribute of the SCN and is interested
      in one of its components, and is stored and not suppressed when the fanout reads the store, gets
      a job naming that component before the fanout ends. */
  lemma NotifiedInterleaved(moves: seq<Move>, states: seq<Whole>, r: nat, c: nat, id: nat, o: Subscription,
                            attr: string, comp: string)
    requires IsRunning(moves, states) && r < c < |moves| && moves[r] == Advance(id) && id in states[r].ops
    requires states[r].ops[id].Noticing? && states[r].ops[id].io.rangeOk
    requires (forall k :: r < k <= c ==> id in states[k].ops) && id !in states[c + 1].ops
    requires Sound(o) && o.Key() in states[r].svc.data && o.xname !in states[r].ops[id].suppressed
    requires Interested(states[r].svc.data[o.Key()].scnNodes, comp)
             && comp in LowerAll(states[r].ops[id].scn.components)
    requires attr != "" && '#' !in attr && '.' !in attr && attr in ScnAttrs(states[r].ops[id].scn)
             && AsksFor(o.body, attr)
    ensures exists job: Job ::
              job.subscriber == o.xname && job.url == states[r].svc.data[o.Key()].url && comp in job.scn.components
              && QueuedBetween(moves, states, r, c, id, job)
  {
    var op, rec := states[r].ops[id], Record(o.Key(), states[r].svc.data[o.Key()]);
    AskedIsSelected(states[r].svc.data, op.scn, op.suppressed, o, attr, comp);
    ListingHas(states[r].svc.data, RANGE_START, RANGE_END, All(states[r].svc));
    SnapshotIsFannedOut(moves, states, r, c, id, rec);
  }
}
