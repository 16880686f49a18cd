/** Whether a component is treated as unavailable is decided by the header of the batch its SCN is
    merged into. When that agrees with the SCN received, and where a batch's verdict comes from. */
module Availability {
  import opened Text
  import opened Types
  import opened Coalescer
  import opened Fanout
  import opened Batching

  /** The SCN's state alone is one of the unavailable ones. */
  predicate StateDown(scn: Scn) {
    IsStateUnavailable(scn.(enabled := None))
  }

  /** A batch marks exactly the components of those SCNs it merges that are unavailable under the
      batch's Enabled. */
  lemma MarksOfBatch(batch: Scn, group: seq<Scn>, xname: string)
    requires Merges(batch, group)
    ensures xname in MarksOf(batch) <==>
            exists i :: 0 <= i < |group| && xname in LowerAll(group[i].components)
                        && IsStateUnavailable(Stamped(group[i], batch))
  {
    InComps(group, xname);
    forall i | 0 <= i < |group| && xname in LowerAll(group[i].components)
      ensures IsStateUnavailable(Stamped(group[i], batch)) <==> IsStateUnavailable(batch)
    {
      assert SameHead(group[i], batch);
    }
  }

  /** An available SCN is condemned by its batch exactly if the batch disables, and then it said
      nothing about Enabled; an unavailable one is spared exactly if it only disables and the batch
      says nothing about Enabled. */
  lemma MemberVerdict(batch: Scn, group: seq<Scn>, i: nat)
    requires Merges(batch, group) && i < |group| && group[i].components != []
    ensures !IsStateUnavailable(group[i]) ==>
              (IsStateUnavailable(batch) <==> group[i].enabled.None? && batch.enabled == Some(false))
    ensures IsStateUnavailable(group[i]) ==>
              (!IsStateUnavailable(batch) <==> !StateDown(group[i]) && batch.enabled.None?)
  {
    assert SameHead(group[i], batch);
    UnavailableExactly(group[i]);
    UnavailableExactly(batch);
  }

  /** The batch, finished or not, that holds a received SCN. */
  function Carrier(st: CacheState, scn: Scn, maxCache: int): Scn {
    var after := Receive(st, scn, maxCache);
    if !Opening(st) && CacheEqual(scn, st.cache) && st.count + 1 >= maxCache then after.queue[|st.queue|]
    else after.cache
  }

  /** What happens to an SCN's availability is decided when it is received: an available one will be
      treated as unavailable exactly if it says nothing about Enabled and the cache still holds a
      disabling Enabled; an unavailable one will be treated as available exactly if it only disables
      and is merged into a batch that says nothing about Enabled. */
  lemma ArrivalExactly(st: CacheState, scn: Scn, maxCache: int)
    requires scn.components != []
    ensures !IsStateUnavailable(scn) ==>
              (IsStateUnavailable(Carrier(st, scn, maxCache)) <==> scn.enabled.None? && st.cache.enabled == Some(false))
    ensures IsStateUnavailable(scn) ==>
              (!IsStateUnavailable(Carrier(st, scn, maxCache)) <==>
               !StateDown(scn) && !Opening(st) && CacheEqual(scn, st.cache) && st.cache.enabled.None?)
  {
    UnavailableExactly(scn);
    UnavailableExactly(Carrier(st, scn, maxCache));
  }

  /** A batch has grown: its header is the same, and its components come first. */
  predicate Grown(before: Scn, after: Scn) {
    SameHead(before, after) && before.subRole == after.subRole && before.enabled == after.enabled
    && before.components <= after.components
  }

  /** A cache with components keeps its header, or is queued with it, and loses no component. */
  lemma CacheGrows(st: CacheState, scn: Scn, maxCache: int)
    requires !Opening(st)
    ensures var after := Receive(st, scn, maxCache);
            Grown(st.cache, if |after.queue| > |st.queue| then after.queue[|st.queue|] else after.cache)
  {
  }

  /** The batch at this place of the emission order, or the cache if it has not been emitted yet. */
  function BatchAt(t: Trace, at: nat): Scn {
    if at < |t.Emitted()| then t.Emitted()[at] else t.st.cache
  }

  lemma StepEmits(t: Trace, e: CacheEvent)
    ensures var next := Step(t, e);
            next.Emitted() == t.Emitted()
            || (next.Emitted() == t.Emitted() + [next.Emitted()[|t.Emitted()|]]
                && |next.Emitted()| == |t.Emitted()| + 1)
  {
    if e.Dequeue? && t.st.queue != [] {
      assert t.handled + [t.st.queue[0]] + t.st.queue[1..] == t.handled + t.st.queue;
    }
  }

  /** The batch that is open before a step is, after it, still open or emitted, and has only grown. */
  lemma OpenStep(t: Trace, e: CacheEvent)
    requires !Opening(t.st) && t.st.count >= 0
    ensures Grown(t.st.cache, BatchAt(Step(t, e), |t.Emitted()|))
    ensures |Step(t, e).Emitted()| == |t.Emitted()| ==> !Opening(Step(t, e).st)
  {
    StepEmits(t, e);
    match e
    case Accept(scn, maxCache) => CacheGrows(t.st, scn, maxCache);
    case _ =>
  }

  /** Whatever is received, however long it takes: the batch open at some point of a run is sent with
      the header it had then, and with more components behind those it had. */
  lemma {:induction false} BatchGrowsInRun(events: seq<CacheEvent>, n: nat)
    requires n <= |events| && !Opening(Run(events[..n]).st)
    ensures var was, now, at := Run(events[..n]), Run(events), |Run(events[..n]).Emitted()|;
            Grown(was.st.cache, BatchAt(now, at))
            && at <= |now.Emitted()| && (at == |now.Emitted()| ==> !Opening(now.st))
    decreases |events|
  {
    if n == |events| {
      assert events[..n] == events;
    } else {
      var before := events[..|events| - 1];
      assert before[..n] == events[..n];
      BatchGrowsInRun(before, n);
      StepEmits(Run(before), events[|events| - 1]);
      if |Run(before).Emitted()| == |Run(events[..n]).Emitted()| {
        RunInv(before);
        OpenStep(Run(before), events[|events| - 1]);
      }
    }
  }

  /** So the verdict on it stays too. */
  lemma VerdictStaysInRun(events: seq<CacheEvent>, n: nat)
    requires n <= |events| && !Opening(Run(events[..n]).st)
    ensures var was := Run(events[..n]);
            IsStateUnavailable(BatchAt(Run(events), |was.Emitted()|)) <==> IsStateUnavailable(was.st.cache)
  {
    BatchGrowsInRun(events, n);
  }

  /** The place in the emission order of the batch that takes in an SCN received in this state. */
  function PlaceOf(t: Trace, scn: Scn): nat {
    if Opening(t.st) || CacheEqual(scn, t.st.cache) then |t.Emitted()| else |t.Emitted()| + 1
  }

  lemma ArrivalPlaced(t: Trace, scn: Scn, maxCache: int)
    requires scn.components != [] && t.st.count >= 0
    ensures var next := Step(t, Accept(scn, maxCache));
            BatchAt(next, PlaceOf(t, scn)) == Carrier(t.st, scn, maxCache)
            && (if PlaceOf(t, scn) == |next.Emitted()| then !Opening(next.st)
                else PlaceOf(t, scn) + 1 == |next.Emitted()|)
  {
  }

  /** In every run the batch at an SCN's place grows out of the one that took it in. */
  lemma PlaceGrows(events: seq<CacheEvent>, n: nat)
    requires n < |events| && events[n].Accept? && events[n].scn.components != []
    ensures var t, scn := Run(events[..n]), events[n].scn;
            Grown(Carrier(t.st, scn, events[n].maxCache), BatchAt(Run(events), PlaceOf(t, scn)))
  {
    var t, scn := Run(events[..n]), events[n].scn;
    RunInv(events[..n]);
    ArrivalPlaced(t, scn, events[n].maxCache);
    assert events[..n + 1][..n] == events[..n] && events[..n + 1][n] == events[n];
    if PlaceOf(t, scn) == |Run(events[..n + 1]).Emitted()| {
      BatchGrowsInRun(events, n + 1);
    } else {
      EmittedStays(events, n + 1);
    }
  }

  /** So in every run an SCN with components goes out in a batch with the verdict decided when it was
      received. */
  lemma SentAsDecided(events: seq<CacheEvent>, n: nat)
    requires n < |events| && events[n].Accept? && events[n].scn.components != []
    ensures var t, scn := Run(events[..n]), events[n].scn;
            IsStateUnavailable(BatchAt(Run(events), PlaceOf(t, scn))) <==>
            IsStateUnavailable(Carrier(t.st, scn, events[n].maxCache))
  {
    PlaceGrows(events, n);
  }

  /** And that batch carries its State, Role and SoftwareStatus and all its components. */
  lemma CarriedAtPlace(events: seq<CacheEvent>, n: nat, c: string)
    requires n < |events| && events[n].Accept? && c in events[n].scn.components
    ensures var scn := events[n].scn;
            var batch := BatchAt(Run(events), PlaceOf(Run(events[..n]), scn));
            SameHead(scn, batch) && c in batch.components
  {
    var t, scn := Run(events[..n]), events[n].scn;
    PlaceGrows(events, n);
    assert c in Carrier(t.st, scn, events[n].maxCache).components;
  }

  lemma {:induction false} EmittedStays(events: seq<CacheEvent>, n: nat)
    requires n <= |events|
    ensures Run(events[..n]).Emitted() <= Run(events).Emitted()
    decreases |events|
  {
    if n == |events| {
      assert events[..n] == events;
    } else {
      var before := events[..|events| - 1];
      assert before[..n] == events[..n];
      EmittedStays(before, n);
      StepEmits(Run(before), events[|events| - 1]);
    }
  }

  // ---------- where the verdict on a component comes from ----------

  /** A received SCN that lists the component and is unavailable, or leaves Enabled to the batch. */
  predicate Reports(s: Scn, xname: string, disabled: bool) {
    xname in LowerAll(s.components) && (IsStateUnavailable(s) || (s.enabled.None? && disabled))
  }

  /** Among these SCNs one reports the component unavailable, or says nothing about Enabled while
      another one disables. */
  ghost predicate Reported(accepted: seq<Scn>, xname: string) {
    exists i :: 0 <= i < |accepted| && Reports(accepted[i], xname, Disabling(accepted))
  }

  predicate Disabling(accepted: seq<Scn>) {
    exists i :: 0 <= i < |accepted| && accepted[i].enabled == Some(false)
  }

  lemma MemberReports(batch: Scn, group: seq<Scn>, accepted: seq<Scn>, xname: string)
    requires Merges(batch, group) && EnabledSeen(batch, accepted) && xname in MarksOf(batch)
    requires forall m :: m in group ==> m in accepted
    ensures Reported(accepted, xname)
  {
    MarksOfBatch(batch, group, xname);
    var i :| 0 <= i < |group| && xname in LowerAll(group[i].components) && IsStateUnavailable(Stamped(group[i], batch));
    MemberVerdict(batch, group, i);
    assert group[i] in accepted;
    var k :| 0 <= k < |accepted| && accepted[k] == group[i];
    assert IsStateUnavailable(batch);
    assert Reports(accepted[k], xname, Disabling(accepted));
  }

  lemma {:induction false} GroupInFlatten(groups: seq<seq<Scn>>, i: nat)
    requires i < |groups|
    ensures forall m :: m in groups[i] ==> m in Flatten(groups)
  {
    if i > 0 {
      GroupInFlatten(groups[1..], i - 1);
      assert groups[1..][i - 1] == groups[i];
    }
  }

  /** Every component a queued batch marks was reported by SCNs received before. */
  lemma QueuedMarksAreReported(events: seq<CacheEvent>, xname: string)
    requires Run(events).st.queue != [] && xname in MarksOf(Run(events).st.queue[0])
    ensures Reported(Accepted(events), xname)
  {
    RunInv(events);
    var t := Run(events);
    var h := |t.handled|;
    assert t.Emitted()[h] == t.st.queue[0];
    GroupInFlatten(t.groups, h);
    assert Accepted(events) == Flatten(t.groups) + t.open;
    MemberReports(t.st.queue[0], t.groups[h], Accepted(events), xname);
  }
}
