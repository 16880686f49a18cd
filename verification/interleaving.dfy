/** The service's requests at the grain at which its goroutines interleave: one call to the
    key-value store, or one hold of the prune map's lock, at a time. */
module Interleaving {
  import opened Types
  import opened Scanners
  import opened Store
  import opened Fanout
  import opened Subscriptions
  import opened SubscriptionLaws
  import opened Service

  /** A goroutine between two of its steps. Range reads are snapshots that others may outrun. */
  datatype Op =
    | Removing(e: Event, todo: seq<Record>, owed: Option<string>)
    | Patching(e: Event, todo: seq<Record>)
    | Storing(key: string, value: SubData, ok: bool)
    | Pruning(io: KvIo, todo: seq<Record>)
    | Noticing(scn: Scn, suppressed: set<string>, io: KvIo)
    | Fanning(scn: Scn, suppressed: set<string>, todo: seq<Record>)
    | Burying(bad: set<string>, todo: seq<Record>)
    | Sending(job: Job, gaveUp: bool)

  /** What a step of one goroutine leaves: the shared state, whether the prune loop holds the
      prune map's lock, and what the goroutine still has to do. */
  datatype Turn = Turn(svc: State, pruning: bool, next: Option<Op>)

  // ---------- the requests that write ----------

  predicate Writes(e: Event) {
    e.PostV1? || e.PostV2? || e.PatchV1? || e.PatchV2?
  }

  /** The request passes the checks its handler makes before it looks at the store. */
  predicate Accepted(e: Event) {
    match e
    case PostV1(body, known, _) => CheckSubscriptionV1(LowerBody(body)) && known
    case PostV2(x, _, body, known, _) => x != "" && CheckSubscriptionV2(LowerBody(body)) && known
    case PatchV1(body, _) => CheckSubscriptionV1(LowerBody(body))
    case PatchV2(x, _, _, _) => x != ""
    case _ => false
  }

  /** The subscription a POST or PATCH stores. */
  function NewSub(e: Event): Subscription
    requires Writes(e)
  {
    var j := LowerBody(e.body);
    if e.PostV2? || e.PatchV2? then Owned(j, e.xname, e.agent)
    else var (x, a) := OwnerV1(j.subscriber); Owned(j, x, a)
  }

  function StoringOf(e: Event): Op
    requires Writes(e)
  {
    Storing(NewSub(e).Key(), DataOf(LowerBody(e.body)), e.io.storeOk)
  }

  function WhoOf(e: Event): Who
    requires e.PatchV1? || e.PatchV2?
  {
    if e.PatchV1? then ByBody(LowerBody(e.body).subscriber, LowerBody(e.body).url) else ByPath(e.xname, e.agent)
  }

  // ---------- steps ----------

  ghost function All(s: State): seq<Record> {
    ListingOf(s.data, RANGE_START, RANGE_END)
  }

  ghost function PatchListing(s: State, e: Event): seq<Record>
    requires e.PatchV1? || e.PatchV2?
  {
    var start := PatchStart(LowerBody(e.body).subscriber);
    ListingOf(s.data, start, start + "z")
  }

  /** The first step of a request. A step that has to wait for the lock changes nothing. */
  ghost function First(s: State, pruning: bool, e: Event): Turn {
    match e
    case PostV1(_, _, io) => FirstPost(s, pruning, e)
    case PostV2(_, _, _, _, io) => FirstPost(s, pruning, e)
    case PatchV1(_, io) => FirstPatch(s, pruning, e)
    case PatchV2(_, _, _, io) => FirstPatch(s, pruning, e)
    case HandleScn(io) =>
      if s.cache.queue == [] || (pruning && IsStateUnavailable(s.cache.queue[0])) then Turn(s, pruning, None)
      else
        var scn := s.cache.queue[0];
        Turn(s.(cache := CacheAfter(s, e), marks := s.marks + MarksOf(scn)), pruning,
             Some(Noticing(scn, Suppressed(scn, s.marks), io)))
    case RunJob(i, outcome, retries) =>
      if i >= |s.jobs| || pruning then Turn(s, pruning, None)
      else
        var job := s.jobs[i];
        Turn(s.(jobs := JobsAfter(s, e)), pruning,
             if job.url == "" || job.subscriber in s.marks then None
             else Some(Sending(job, SendFrom(outcome, 1, retries).prune)))
    case PruneTick(io) =>
      if pruning || s.marks == {} then Turn(s, pruning, None)
      else if io.rangeOk then Turn(s, true, Some(Pruning(io, All(s))))
      else Turn(s.(marks := {}), false, None)
    case DeadWood(bad, io) => Turn(s, pruning, if io.rangeOk then Some(Burying(bad, All(s))) else None)
    case ReceiveScn(_, _) => Turn(s.(cache := CacheAfter(s, e)), pruning, None)
    case CacheTick => Turn(s.(cache := CacheAfter(s, e)), pruning, None)
    case _ =>
      Turn(s, pruning, if TargetOf(e).Some? && e.io.rangeOk then Some(Removing(e, All(s), None)) else None)
  }

  function FirstPost(s: State, pruning: bool, e: Event): Turn
    requires e.PostV1? || e.PostV2?
  {
    Turn(s, pruning, if Accepted(e) && e.io.getOk && NewSub(e).Key() !in s.data then Some(StoringOf(e)) else None)
  }

  ghost function FirstPatch(s: State, pruning: bool, e: Event): Turn
    requires e.PatchV1? || e.PatchV2?
  {
    Turn(s, pruning, if Accepted(e) && e.io.rangeOk then Some(Patching(e, PatchListing(s, e))) else None)
  }

  /** What a DELETE does next: mark the owner of the record it has deleted, or go on to the next record. */
  function NextRemoving(s: State, pruning: bool, e: Event, todo: seq<Record>, owed: Option<string>): Turn
    requires TargetOf(e).Some?
  {
    if owed.Some? then
      if pruning then Turn(s, pruning, Some(Removing(e, todo, owed)))
      else Turn(s.(marks := s.marks + {owed.value}), pruning, Some(Removing(e, todo, None)))
    else if todo == [] then Turn(s, pruning, None)
    else
      var key := todo[0].key;
      if key in RemovedOne(todo[0], TargetOf(e).value, e.io) then
        Turn(s.(data := s.data - {key}), pruning, Some(Removing(e, todo[1..], Some(KeyLabel(key)))))
      else Turn(s, pruning, Some(Removing(e, todo[1..], None)))
  }

  /** What a PATCH does with the next record; `made` is what it stores in place of one it has found. */
  function PatchTurn(s: State, pruning: bool, e: Event, found: bool, made: Op, fails: set<string>,
                     todo: seq<Record>): Turn
    requires made.Storing?
  {
    if todo == [] then Turn(s, pruning, None)
    else if !found then Turn(s, pruning, Some(Patching(e, todo[1..])))
    else if made.key == todo[0].key then Turn(s, pruning, Some(made))
    else if todo[0].key in fails then Turn(s, pruning, None)
    else Turn(s.(data := s.data - {todo[0].key}), pruning, Some(made))
  }

  predicate Found(e: Event, todo: seq<Record>)
    requires e.PatchV1? || e.PatchV2?
  {
    todo != [] && PatchMatch(WhoOf(e), todo[0])
  }

  function NextPatching(s: State, pruning: bool, e: Event, todo: seq<Record>): Turn
    requires e.PatchV1? || e.PatchV2?
  {
    PatchTurn(s, pruning, e, Found(e, todo), StoringOf(e), e.io.deleteFails, todo)
  }

  function NextPruning(s: State, io: KvIo, todo: seq<Record>): Turn {
    if todo == [] then Turn(s.(marks := {}), false, None)
    else Turn(s.(data := s.data - RemovedOne(todo[0], OfMarks(s.marks), io)), true, Some(Pruning(io, todo[1..])))
  }

  function NextFanning(s: State, pruning: bool, scn: Scn, suppressed: set<string>, todo: seq<Record>): Turn {
    if todo == [] then Turn(s, pruning, None)
    else Turn(s.(jobs := s.jobs + JobsOfOne(todo[0], scn, suppressed)), pruning,
              Some(Fanning(scn, suppressed, todo[1..])))
  }

  function NextBurying(s: State, pruning: bool, bad: set<string>, todo: seq<Record>): Turn {
    if todo == [] then Turn(s, pruning, None)
    else if XnameOf(todo[0].key) !in bad then Turn(s, pruning, Some(Burying(bad, todo[1..])))
    else if pruning then Turn(s, pruning, Some(Burying(bad, todo)))
    else Turn(s.(marks := s.marks + {XnameOf(todo[0].key)}), pruning, Some(Burying(bad, todo[1..])))
  }

  function NextSending(s: State, pruning: bool, job: Job, gaveUp: bool): Turn {
    if !gaveUp then Turn(s, pruning, None)
    else if pruning then Turn(s, pruning, Some(Sending(job, gaveUp)))
    else Turn(s.(marks := s.marks + {job.subscriber}), pruning, None)
  }

  predicate Proper(op: Op) {
    match op
    case Removing(e, _, _) => TargetOf(e).Some?
    case Patching(e, _) => e.PatchV1? || e.PatchV2?
    case _ => true
  }

  /** The next step of a goroutine. */
  ghost function Next(s: State, pruning: bool, op: Op): Turn
    requires Proper(op)
  {
    match op
    case Removing(e, todo, owed) => NextRemoving(s, pruning, e, todo, owed)
    case Patching(e, todo) => NextPatching(s, pruning, e, todo)
    case Storing(key, value, ok) => Turn(if ok then s.(data := s.data[key := value]) else s, pruning, None)
    case Pruning(io, todo) => NextPruning(s, io, todo)
    case Noticing(scn, suppressed, io) =>
      Turn(s, pruning, if io.rangeOk then Some(Fanning(scn, suppressed, All(s))) else None)
    case Fanning(scn, suppressed, todo) => NextFanning(s, pruning, scn, suppressed, todo)
    case Burying(bad, todo) => NextBurying(s, pruning, bad, todo)
    case Sending(job, gaveUp) => NextSending(s, pruning, job, gaveUp)
  }

  // ---------- left alone, a request is the atomic step its handler was proved to take ----------

  ghost predicate Unblocked(t: Turn) {
    t.next.None? || (Proper(t.next.value) && t.pruning == t.next.value.Pruning?)
  }

  function Left(op: Op): nat {
    match op
    case Removing(_, todo, owed) => 2 * |todo| + (if owed.Some? then 2 else 1)
    case Patching(_, todo) => |todo| + 2
    case Pruning(_, todo) => |todo| + 1
    case Fanning(_, _, todo) => |todo| + 1
    case Burying(_, todo) => |todo| + 1
    case _ => 1
  }

  /** A goroutine that is not blocked comes nearer to its end. */
  ghost predicate Progress(op: Op, t: Turn) {
    Unblocked(t)
    && (t.next.Some? ==>
          if op.Noticing? then t.next.value.Fanning? else !t.next.value.Noticing? && Left(t.next.value) < Left(op))
  }

  lemma RemovingProgresses(s: State, e: Event, todo: seq<Record>, owed: Option<string>)
    requires TargetOf(e).Some?
    ensures Progress(Removing(e, todo, owed), NextRemoving(s, false, e, todo, owed))
  {
  }

  lemma PatchingProgresses(s: State, e: Event, found: bool, made: Op, fails: set<string>, todo: seq<Record>)
    requires (e.PatchV1? || e.PatchV2?) && made.Storing?
    ensures Progress(Patching(e, todo), PatchTurn(s, false, e, found, made, fails, todo))
  {
  }

  lemma LoopsProgress(s: State, io: KvIo, scn: Scn, names: set<string>, todo: seq<Record>)
    ensures Progress(Pruning(io, todo), NextPruning(s, io, todo))
    ensures Progress(Fanning(scn, names, todo), NextFanning(s, false, scn, names, todo))
    ensures Progress(Burying(names, todo), NextBurying(s, false, names, todo))
  {
  }

  lemma NextProgresses(s: State, op: Op)
    requires Proper(op)
    ensures Progress(op, Next(s, op.Pruning?, op))
  {
    match op
    case Removing(e, todo, owed) => RemovingProgresses(s, e, todo, owed);
    case Patching(e, todo) => PatchingProgresses(s, e, Found(e, todo), StoringOf(e), e.io.deleteFails, todo);
    case Pruning(io, todo) => LoopsProgress(s, io, EMPTY_SCN, {}, todo);
    case Fanning(scn, suppressed, todo) => LoopsProgress(s, KV_OK, scn, suppressed, todo);
    case Burying(bad, todo) => LoopsProgress(s, KV_OK, EMPTY_SCN, bad, todo);
    case _ =>
  }

  /** All the steps of one goroutine, with no other in between. */
  ghost function Alone(t: Turn): Turn
    requires Unblocked(t)
    decreases t.next.Some?, t.next.Some? && t.next.value.Noticing?, if t.next.Some? then Left(t.next.value) else 0
  {
    if t.next.None? then t
    else
      NextProgresses(t.svc, t.next.value);
      Alone(Next(t.svc, t.pruning, t.next.value))
  }

  lemma RemovedFront(list: seq<Record>, t: Target, io: KvIo)
    requires list != []
    ensures Removed(list, t, io) == RemovedOne(list[0], t, io) + Removed(list[1..], t, io)
  {
    RemovedHas(list, t, io);
    RemovedHas(list[1..], t, io);
    assert list == [list[0]] + list[1..];
  }

  /** The state with these keys deleted, and their owners marked. */
  function Deprived(s: State, keys: set<string>): State {
    s.(data := s.data - keys, marks := s.marks + LabelsOf(keys))
  }

  lemma DeprivedTwice(s: State, one: set<string>, rest: set<string>)
    ensures Deprived(s, {}) == s && Deprived(Deprived(s, one), rest) == Deprived(s, one + rest)
  {
    NothingGone(s);
    RemovedTwice(s.data, s.marks, one, rest);
  }

  lemma RemovingStep(s: State, e: Event, todo: seq<Record>)
    requires TargetOf(e).Some? && todo != []
    ensures Alone(Turn(s, false, Some(Removing(e, todo, None))))
            == Alone(Turn(Deprived(s, RemovedOne(todo[0], TargetOf(e).value, e.io)), false,
                          Some(Removing(e, todo[1..], None))))
  {
    var key := todo[0].key;
    if RemovedOne(todo[0], TargetOf(e).value, e.io) == {} {
      DeprivedTwice(s, {}, {});
    } else {
      assert LabelsOf({key}) == {KeyLabel(key)};
      assert Next(s, false, Removing(e, todo, None))
             == Turn(s.(data := s.data - {key}), false, Some(Removing(e, todo[1..], Some(KeyLabel(key)))));
    }
  }

  lemma {:induction false} RemovingAlone(s: State, e: Event, todo: seq<Record>)
    requires TargetOf(e).Some?
    ensures Alone(Turn(s, false, Some(Removing(e, todo, None))))
            == Turn(Deprived(s, Removed(todo, TargetOf(e).value, e.io)), false, None)
    decreases |todo|
  {
    if todo == [] {
      DeprivedTwice(s, {}, {});
    } else {
      var one := RemovedOne(todo[0], TargetOf(e).value, e.io);
      RemovingStep(s, e, todo);
      RemovingAlone(Deprived(s, one), e, todo[1..]);
      RemovedFront(todo, TargetOf(e).value, e.io);
      DeprivedTwice(s, one, Removed(todo[1..], TargetOf(e).value, e.io));
    }
  }

  lemma StoringAlone(s: State, key: string, value: SubData, ok: bool)
    ensures Alone(Turn(s, false, Some(Storing(key, value, ok))))
            == Turn(s.(data := if ok then s.data[key := value] else s.data), false, None)
  {
  }

  lemma {:induction false} PatchingAlone(s: State, e: Event, todo: seq<Record>)
    requires e.PatchV1? || e.PatchV2?
    ensures var found := FirstMatch(todo, WhoOf(e));
            Alone(Turn(s, false, Some(Patching(e, todo))))
            == Turn(s.(data := if found.None? then s.data
                               else Replaced(s.data, found.value, NewSub(e).Key(), DataOf(LowerBody(e.body)), e.io)),
                    false, None)
    decreases |todo|
  {
    if todo == [] {
    } else if !PatchMatch(WhoOf(e), todo[0]) {
      PatchingAlone(s, e, todo[1..]);
    } else {
      var after := if NewSub(e).Key() == todo[0].key then s else s.(data := s.data - {todo[0].key});
      StoringAlone(after, NewSub(e).Key(), DataOf(LowerBody(e.body)), e.io.storeOk);
    }
  }

  /** The state with these keys deleted. */
  function Without(s: State, keys: set<string>): State {
    s.(data := s.data - keys)
  }

  lemma WithoutTwice(s: State, one: set<string>, rest: set<string>)
    ensures Without(s, {}) == s && Without(Without(s, one), rest) == Without(s, one + rest)
  {
    NothingGone(s);
    RemovedTwice(s.data, s.marks, one, rest);
  }

  lemma PruningStep(s: State, io: KvIo, todo: seq<Record>)
    requires todo != []
    ensures Alone(Turn(s, true, Some(Pruning(io, todo))))
            == Alone(Turn(Without(s, RemovedOne(todo[0], OfMarks(s.marks), io)), true, Some(Pruning(io, todo[1..]))))
  {
    assert Next(s, true, Pruning(io, todo)) == NextPruning(s, io, todo);
  }

  lemma {:induction false} PruningAlone(s: State, io: KvIo, todo: seq<Record>)
    ensures Alone(Turn(s, true, Some(Pruning(io, todo))))
            == Turn(Without(s, Removed(todo, OfMarks(s.marks), io)).(marks := {}), false, None)
    decreases |todo|
  {
    if todo == [] {
      WithoutTwice(s, {}, {});
    } else {
      var one := RemovedOne(todo[0], OfMarks(s.marks), io);
      PruningStep(s, io, todo);
      PruningAlone(Without(s, one), io, todo[1..]);
      RemovedFront(todo, OfMarks(s.marks), io);
      WithoutTwice(s, one, Removed(todo[1..], OfMarks(s.marks), io));
    }
  }

  lemma FanningStep(s: State, scn: Scn, suppressed: set<string>, todo: seq<Record>)
    requires todo != []
    ensures Alone(Turn(s, false, Some(Fanning(scn, suppressed, todo))))
            == Alone(Turn(s.(jobs := s.jobs + JobsOfOne(todo[0], scn, suppressed)), false,
                          Some(Fanning(scn, suppressed, todo[1..]))))
  {
    assert Next(s, false, Fanning(scn, suppressed, todo)) == NextFanning(s, false, scn, suppressed, todo);
  }

  lemma FanningDone(s: State, scn: Scn, suppressed: set<string>)
    ensures Alone(Turn(s, false, Some(Fanning(scn, suppressed, [])))) == Turn(s, false, None)
  {
  }

  /** The state with these jobs queued. */
  function Queued(s: State, jobs: seq<Job>): State {
    s.(jobs := s.jobs + jobs)
  }

  lemma QueuedTwice(s: State, one: seq<Job>, rest: seq<Job>)
    ensures Queued(s, []) == s && Queued(Queued(s, one), rest) == Queued(s, one + rest)
  {
    assert s.jobs + [] == s.jobs;
    assert s.jobs + one + rest == s.jobs + (one + rest);
  }

  lemma {:induction false} FanningAlone(s: State, scn: Scn, suppressed: set<string>, todo: seq<Record>)
    ensures Alone(Turn(s, false, Some(Fanning(scn, suppressed, todo))))
            == Turn(Queued(s, Jobs(FanoutOf(todo, scn, suppressed))), false, None)
    decreases |todo|
  {
    if todo == [] {
      FanningDone(s, scn, suppressed);
      QueuedTwice(s, [], []);
    } else {
      FanningStep(s, scn, suppressed, todo);
      FanoutFirst(todo, scn, suppressed);
      var one := JobsOfOne(todo[0], scn, suppressed);
      FanningAlone(Queued(s, one), scn, suppressed, todo[1..]);
      QueuedTwice(s, one, Jobs(FanoutOf(todo[1..], scn, suppressed)));
    }
  }

  lemma {:induction false} BuryingAlone(s: State, bad: set<string>, todo: seq<Record>)
    ensures Alone(Turn(s, false, Some(Burying(bad, todo))))
            == Turn(s.(marks := s.marks + DeadAmong(todo, bad)), false, None)
    decreases |todo|
  {
    if todo == [] {
      NothingGone(s);
    } else {
      var x := XnameOf(todo[0].key);
      if x in bad {
        BuryingAlone(s.(marks := s.marks + {x}), bad, todo[1..]);
        assert s.marks + {x} + DeadAmong(todo[1..], bad) == s.marks + DeadAmong(todo, bad);
      } else {
        BuryingAlone(s, bad, todo[1..]);
      }
    }
  }

  lemma PostAlone(s: State, e: Event)
    requires e.PostV1? || e.PostV2?
    ensures Alone(FirstPost(s, false, e)) == Turn(s.(data := DataAfter(s, e)), false, None)
  {
    var j := LowerBody(e.body);
    KeyOfV1Owner(j);
    StoringAlone(s, NewSub(e).Key(), DataOf(j), e.io.storeOk);
  }

  lemma PatchAlone(s: State, e: Event)
    requires e.PatchV1? || e.PatchV2?
    ensures Alone(FirstPatch(s, false, e)) == Turn(s.(data := DataAfter(s, e)), false, None)
  {
    KeyOfV1Owner(LowerBody(e.body));
    PatchingAlone(s, e, PatchListing(s, e));
  }

  lemma DeleteAlone(s: State, e: Event)
    requires TargetOf(e).Some? && e.io.rangeOk
    ensures var gone := Victims(s.data, TargetOf(e).value, e.io);
            Alone(Turn(s, false, Some(Removing(e, All(s), None))))
            == Turn(s.(data := s.data - gone, marks := s.marks + LabelsOf(gone)), false, None)
  {
    RemovingAlone(s, e, All(s));
    RemovedAll(s.data, TargetOf(e).value, e.io);
  }

  lemma PruneAlone(s: State, io: KvIo)
    requires io.rangeOk
    ensures Alone(Turn(s, true, Some(Pruning(io, All(s)))))
            == Turn(Without(s, Victims(s.data, OfMarks(s.marks), io)).(marks := {}), false, None)
  {
    PruningAlone(s, io, All(s));
    RemovedAll(s.data, OfMarks(s.marks), io);
  }

  lemma NoticeAlone(s: State, scn: Scn, suppressed: set<string>, io: KvIo)
    ensures Alone(Turn(s, false, Some(Noticing(scn, suppressed, io))))
            == Turn(s.(jobs := if io.rangeOk then s.jobs + Jobs(FanoutOf(All(s), scn, suppressed)) else s.jobs),
                    false, None)
  {
    FanningAlone(s, scn, suppressed, All(s));
  }

  lemma SendAlone(s: State, job: Job, gaveUp: bool)
    ensures Alone(Turn(s, false, Some(Sending(job, gaveUp))))
            == Turn(if gaveUp then s.(marks := s.marks + {job.subscriber}) else s, false, None)
  {
  }

  /** With no other goroutine in between, the request takes the service's atomic step. */
  ghost predicate Atomic(s: State, e: Event) {
    Unblocked(First(s, false, e)) && Alone(First(s, false, e)) == Turn(Step(s, e), false, None)
  }

  lemma StepWrites(s: State, e: Event)
    requires Writes(e)
    ensures Step(s, e) == s.(data := DataAfter(s, e))
  {
    NothingGone(s);
  }

  lemma PostIsAtomic(s: State, e: Event)
    requires e.PostV1? || e.PostV2?
    ensures Atomic(s, e)
  {
    StepWrites(s, e);
    PostAlone(s, e);
    assert First(s, false, e) == FirstPost(s, false, e);
  }

  lemma PatchIsAtomic(s: State, e: Event)
    requires e.PatchV1? || e.PatchV2?
    ensures Atomic(s, e)
  {
    StepWrites(s, e);
    PatchAlone(s, e);
    assert First(s, false, e) == FirstPatch(s, false, e);
  }

  lemma DeleteIsAtomic(s: State, e: Event)
    requires e.DeleteV1? || e.DeleteAgent? || e.DeleteXname?
    ensures Atomic(s, e)
  {
    NothingGone(s);
    if TargetOf(e).Some? && e.io.rangeOk {
      DeleteAlone(s, e);
    }
  }

  lemma StepPrunes(s: State, e: Event)
    requires e.PruneTick?
    ensures Step(s, e) == Without(s, Victims(s.data, OfMarks(s.marks), e.io)).(marks := {})
    ensures s.marks == {} || !e.io.rangeOk ==> Step(s, e) == s.(marks := {})
  {
    NothingGone(s);
    assert s.marks == {} ==> Victims(s.data, OfMarks(s.marks), e.io) == {};
  }

  lemma PruneIsAtomic(s: State, e: Event)
    requires e.PruneTick?
    ensures Atomic(s, e)
  {
    StepPrunes(s, e);
    if s.marks != {} && e.io.rangeOk {
      PruneAlone(s, e.io);
    }
  }

  lemma DeadWoodIsAtomic(s: State, e: Event)
    requires e.DeadWood?
    ensures Atomic(s, e)
  {
    NothingGone(s);
    BuryingAlone(s, e.bad, All(s));
    DeadAmongAll(s.data, e.bad);
  }

  lemma SendIsAtomic(s: State, e: Event)
    requires e.RunJob?
    ensures Atomic(s, e)
  {
    NothingGone(s);
    if e.index < |s.jobs| {
      SendAlone(s.(jobs := JobsAfter(s, e)), s.jobs[e.index], SendFrom(e.outcome, 1, e.retries).prune);
    }
  }

  lemma ScnIsAtomic(s: State, e: Event)
    requires e.ReceiveScn? || e.CacheTick? || e.HandleScn?
    ensures Atomic(s, e)
  {
    NothingGone(s);
    if e.HandleScn? && s.cache.queue != [] {
      var scn := s.cache.queue[0];
      NoticeAlone(First(s, false, e).svc, scn, Suppressed(scn, s.marks), e.io);
    }
  }

  /** With no other goroutine in between, every request takes the service's atomic step: the one
      its handler was proved to carry out. */
  lemma AloneIsAtomic(s: State, e: Event)
    ensures Unblocked(First(s, false, e)) && Alone(First(s, false, e)) == Turn(Step(s, e), false, None)
  {
    assert Atomic(s, e) by {
      match e
      case PostV1(_, _, _) => PostIsAtomic(s, e);
      case PostV2(_, _, _, _, _) => PostIsAtomic(s, e);
      case PatchV1(_, _) => PatchIsAtomic(s, e);
      case PatchV2(_, _, _, _) => PatchIsAtomic(s, e);
      case HandleScn(_) => ScnIsAtomic(s, e);
      case ReceiveScn(_, _) => ScnIsAtomic(s, e);
      case CacheTick => ScnIsAtomic(s, e);
      case RunJob(_, _, _) => SendIsAtomic(s, e);
      case PruneTick(_) => PruneIsAtomic(s, e);
      case DeadWood(_, _) => DeadWoodIsAtomic(s, e);
      case _ => DeleteIsAtomic(s, e);
    }
  }
}
