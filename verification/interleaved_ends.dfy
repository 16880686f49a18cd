/** How requests end when they interleave: every goroutine comes to its end in a bounded number of
    steps of its own, and what a DELETE and the prune round after it have removed by then. */
module InterleavedEnds {
  import opened Types
  import opened Scanners
  import opened Store
  import opened Subscriptions
  import opened SubscriptionLaws
  import opened Service
  import opened Interleaving
  import opened InterleavedRuns
  import opened InterleavedLaws

  // ---------- goroutines end ----------

  /** A step waits for the lock, or brings the goroutine nearer to its end. */
  ghost predicate WaitsOrShrinks(s: State, pruning: bool, op: Op, t: Turn) {
    (t == Turn(s, pruning, Some(op)) && pruning && !op.Pruning?)
    || (t.next.Some? ==> !t.next.value.Noticing? && Left(t.next.value) < Left(op))
  }

  lemma RemovingShrinks(s: State, pruning: bool, e: Event, todo: seq<Record>, owed: Option<string>)
    requires TargetOf(e).Some?
    ensures WaitsOrShrinks(s, pruning, Removing(e, todo, owed), NextRemoving(s, pruning, e, todo, owed))
  {
  }

  lemma PatchingShrinks(s: State, pruning: bool, e: Event, found: bool, made: Op, fails: set<string>, todo: seq<Record>)
    requires (e.PatchV1? || e.PatchV2?) && made.Storing?
    ensures WaitsOrShrinks(s, pruning, Patching(e, todo), PatchTurn(s, pruning, e, found, made, fails, todo))
  {
  }

  lemma LoopsShrink(s: State, pruning: bool, io: KvIo, scn: Scn, names: set<string>, todo: seq<Record>)
    ensures WaitsOrShrinks(s, pruning, Pruning(io, todo), NextPruning(s, io, todo))
    ensures WaitsOrShrinks(s, pruning, Fanning(scn, names, todo), NextFanning(s, pruning, scn, names, todo))
    ensures WaitsOrShrinks(s, pruning, Burying(names, todo), NextBurying(s, pruning, names, todo))
  {
  }

  lemma NextShrinks(s: State, pruning: bool, op: Op)
    requires Proper(op) && !op.Noticing?
    ensures WaitsOrShrinks(s, pruning, op, Next(s, pruning, op))
  {
    match op
    case Removing(e, todo, owed) => RemovingShrinks(s, pruning, e, todo, owed);
    case Patching(e, todo) =>
      PatchingShrinks(s, pruning, e, Found(e, todo), StoringOf(e), e.io.deleteFails, todo);
    case Pruning(io, todo) => LoopsShrink(s, pruning, io, EMPTY_SCN, {}, todo);
    case Fanning(scn, suppressed, todo) => LoopsShrink(s, pruning, KV_OK, scn, suppressed, todo);
    case Burying(bad, todo) => LoopsShrink(s, pruning, KV_OK, EMPTY_SCN, bad, todo);
    case _ =>
  }

  /** A goroutine's own move changes nothing only while a prune round holds the lock, and a prune
      round never waits; any other move of its own ends it or leaves less to do. */
  lemma AdvanceShrinks(s: Whole, id: nat)
    requires id in s.ops && Proper(s.ops[id]) && !s.ops[id].Noticing?
    ensures var after := After(s, Advance(id));
            (after == s && s.pruning && !s.ops[id].Pruning?)
            || (id in after.ops ==> !after.ops[id].Noticing? && Left(after.ops[id]) < Left(s.ops[id]))
  {
    NextShrinks(s.svc, s.pruning, s.ops[id]);
    if Next(s.svc, s.pruning, s.ops[id]) == Turn(s.svc, s.pruning, Some(s.ops[id])) {
      assert s.ops[id := s.ops[id]] == s.ops;
    }
  }

  /** How many moves of its own have got the goroutine on. */
  ghost function OwnSteps(moves: seq<Move>, states: seq<Whole>, b: nat, i: nat, id: nat): nat
    requires |states| == |moves| + 1 && b <= i <= |moves|
  {
    if i == b then 0
    else OwnSteps(moves, states, b, i - 1, id)
         + if moves[i - 1] == Advance(id) && states[i] != states[i - 1] then 1 else 0
  }

  lemma OwnMove(s: Whole, move: Move, id: nat)
    requires SoundWhole(s) && id in s.ops && !s.ops[id].Noticing? && id in After(s, move).ops
    ensures var after := After(s, move);
            !after.ops[id].Noticing?
            && Left(after.ops[id]) + (if move == Advance(id) && after != s then 1 else 0) <= Left(s.ops[id])
  {
    if move == Advance(id) {
      NextKeepsSound(s.svc, s.pruning, s.ops[id]);
      AdvanceShrinks(s, id);
    } else {
      OthersKeepOp(s, move, id);
    }
  }

  /** After so many steps the goroutine has that much less to do than in state b. */
  ghost predicate Nearer(b: Whole, now: Whole, id: nat, steps: nat) {
    id in b.ops && id in now.ops && !now.ops[id].Noticing? && steps + Left(now.ops[id]) <= Left(b.ops[id])
  }

  lemma NearerStill(b: Whole, now: Whole, move: Move, id: nat, steps: nat)
    requires Nearer(b, now, id, steps) && SoundWhole(now) && id in After(now, move).ops
    ensures Nearer(b, After(now, move), id, steps + if move == Advance(id) && After(now, move) != now then 1 else 0)
  {
    OwnMove(now, move, id);
  }

  lemma {:induction false} StepsCount(moves: seq<Move>, states: seq<Whole>, b: nat, i: nat, id: nat)
    requires IsRunning(moves, states) && SoundMoves(moves) && b <= i <= |moves|
    requires (forall k :: b <= k <= i ==> id in states[k].ops) && !states[b].ops[id].Noticing?
    ensures Nearer(states[b], states[i], id, OwnSteps(moves, states, b, i, id))
    decreases i
  {
    if i > b {
      StepsCount(moves, states, b, i - 1, id);
      AlwaysSound(moves, states, i - 1);
      assert MoveAt(moves, states, i - 1);
      NearerStill(states[b], states[i - 1], moves[i - 1], id, OwnSteps(moves, states, b, i - 1, id));
    }
  }

  /** Every DELETE, PATCH, POST, prune round, dead-node pass, send and (once it has read the store)
      fanout ends: however it is interleaved, the moves of its own that get it on are fewer than what
      it had to do. */
  lemma GoroutinesEnd(moves: seq<Move>, states: seq<Whole>, b: nat, i: nat, id: nat)
    requires IsRunning(moves, states) && SoundMoves(moves) && b <= i <= |moves|
    requires (forall k :: b <= k <= i ==> id in states[k].ops) && !states[b].ops[id].Noticing?
    ensures OwnSteps(moves, states, b, i, id) < Left(states[b].ops[id])
  {
    StepsCount(moves, states, b, i, id);
  }

  // ---------- a DELETE and the prune round after it ----------

  ghost predicate MarkedBetween(moves: seq<Move>, states: seq<Whole>, b: nat, i: nat, m: string)
    requires |states| == |moves| + 1 && b <= i <= |moves|
  {
    exists k :: b <= k < i && Adds(states[k], moves[k], m)
  }

  /** The DELETE has marked the record's owner, or still will. */
  ghost predicate WillMark(now: Whole, id: nat, e: Event, rec: Record, marked: bool) {
    id in now.ops && now.ops[id].Removing? && now.ops[id].e == e && TargetOf(e).Some?
    && (marked || rec in now.ops[id].todo || now.ops[id].owed == Some(KeyLabel(rec.key)))
  }

  /** One step of a DELETE's loop, for a record it should delete. */
  lemma RemovingMarks(s: State, pruning: bool, e: Event, todo: seq<Record>, owed: Option<string>, rec: Record)
    requires TargetOf(e).Some? && Hit(TargetOf(e).value, rec.key, rec.value) && rec.key !in e.io.deleteFails
    requires rec in todo || owed == Some(KeyLabel(rec.key))
    ensures var t := NextRemoving(s, pruning, e, todo, owed);
            t.next.Some? && t.next.value.Removing? && t.next.value.e == e
            && (rec in t.next.value.todo || t.next.value.owed == Some(KeyLabel(rec.key))
                || (owed == Some(KeyLabel(rec.key)) && !pruning))
  {
    if owed.None? {
      assert todo == [todo[0]] + todo[1..];
    }
  }

  lemma DeleteMovesOn(now: Whole, id: nat, e: Event, rec: Record, marked: bool)
    requires WillMark(now, id, e, rec, marked)
    requires Hit(TargetOf(e).value, rec.key, rec.value) && rec.key !in e.io.deleteFails
    ensures var after, m := After(now, Advance(id)), Adds(now, Advance(id), KeyLabel(rec.key));
            if id in after.ops then WillMark(after, id, e, rec, marked || m) else marked || m
  {
    var op := now.ops[id];
    assert Next(now.svc, now.pruning, op) == NextRemoving(now.svc, now.pruning, e, op.todo, op.owed);
    RemovingEnds(now.svc, now.pruning, e, op.todo, op.owed);
    if rec in op.todo || op.owed == Some(KeyLabel(rec.key)) {
      RemovingMarks(now.svc, now.pruning, e, op.todo, op.owed, rec);
    }
  }

  lemma MarkedLater(moves: seq<Move>, states: seq<Whole>, b: nat, i: nat, m: string)
    requires |states| == |moves| + 1 && b < i <= |moves|
    ensures MarkedBetween(moves, states, b, i, m) <==>
              MarkedBetween(moves, states, b, i - 1, m) || Adds(states[i - 1], moves[i - 1], m)
  {
  }

  lemma WillMarkStill(now: Whole, move: Move, id: nat, e: Event, rec: Record, marked: bool)
    requires WillMark(now, id, e, rec, marked) && id in After(now, move).ops
    requires Hit(TargetOf(e).value, rec.key, rec.value) && rec.key !in e.io.deleteFails
    ensures WillMark(After(now, move), id, e, rec, marked || Adds(now, move, KeyLabel(rec.key)))
  {
    if move == Advance(id) {
      DeleteMovesOn(now, id, e, rec, marked);
    } else {
      OthersKeepOp(now, move, id);
    }
  }

  lemma {:induction false} DeleteWillMark(moves: seq<Move>, states: seq<Whole>, b: nat, i: nat, id: nat, key: string)
    requires DeleteOf(moves, states, b, id, key) && b < i <= |moves| && forall k :: b < k <= i ==> id in states[k].ops
    ensures WillMark(states[i], id, moves[b].e, Record(key, states[b].svc.data[key]),
                     MarkedBetween(moves, states, b, i, KeyLabel(key)))
    decreases i
  {
    var rec := Record(key, states[b].svc.data[key]);
    assert MoveAt(moves, states, i - 1);
    if i == b + 1 {
      DeleteStarts(states[b], id, moves[b].e, key);
      assert key in states[i].svc.data by { FirstRemovesNothing(states[b].svc, states[b].pruning, moves[b].e); }
    } else {
      DeleteWillMark(moves, states, b, i - 1, id, key);
      MarkedLater(moves, states, b, i, KeyLabel(key));
      WillMarkStill(states[i - 1], moves[i - 1], id, moves[b].e, rec,
                    MarkedBetween(moves, states, b, i - 1, KeyLabel(key)));
    }
  }

  /** By its end a DELETE has marked the owner of every record it should delete. */
  lemma DeleteMarks(moves: seq<Move>, states: seq<Whole>, b: nat, c: nat, id: nat, key: string)
    requires DeleteOf(moves, states, b, id, key) && b < c < |moves|
    requires (forall k :: b < k <= c ==> id in states[k].ops) && id !in states[c + 1].ops
    ensures MarkedBetween(moves, states, b, c + 1, KeyLabel(key))
  {
    DeleteWillMark(moves, states, b, c, id, key);
    MarkedLater(moves, states, b, c + 1, KeyLabel(key));
    assert MoveAt(moves, states, c);
    if moves[c] == Advance(id) {
      DeleteMovesOn(states[c], id, moves[b].e, Record(key, states[b].svc.data[key]),
                    MarkedBetween(moves, states, b, c, KeyLabel(key)));
    } else {
      OthersKeepOp(states[c], moves[c], id);
    }
  }

  /** Under every interleaving: after a DELETE of a record, and a prune round that starts after it with
      the prune map not emptied since and whose deletes succeed, no subscription of the record's owner is
      left, and if the record named no agent none of its component, but for those stored in the round. */
  lemma DeleteThenRound(moves: seq<Move>, states: seq<Whole>, b: nat, c: nat, id: nat, key: string, rb: nat, rc: nat,
                        rid: nat, o: Subscription)
    requires SoundMoves(moves) && DeleteOf(moves, states, b, id, key) && b < c < rb < rc < |moves|
    requires (forall k :: b < k <= c ==> id in states[k].ops) && id !in states[c + 1].ops
    requires NotCleared(moves, states, b, rb) && Starts(states[rb], moves[rb], rid) && moves[rb].e.io.deleteFails == {}
    requires (forall k :: rb < k <= rc ==> rid in states[k].ops) && rid !in states[rc + 1].ops
    requires Sound(o) && (KeyLabel(key) == o.xname || KeyLabel(key) == OwnerLabel(o.xname, o.agent))
    ensures o.Key() in states[rc + 1].svc.data ==> StoredBetween(moves, states, rb, rc, o.Key())
  {
    DeleteMarks(moves, states, b, c, id, key);
    MarkShapes(o.xname, o.agent);
    var j :| b <= j < c + 1 && Adds(states[j], moves[j], KeyLabel(key));
    assert NotCleared(moves, states, j, rb);
    MarkedAreRemoved(moves, states, j, rb, rc, rid, o);
  }
}
