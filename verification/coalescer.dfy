/** The SCN coalescing cache: a stream of SCNs, cache ticks and dequeues becomes a FIFO
    of batches. Nothing is lost, invented or reordered, and batches stay small. */
module Coalescer {
  import opened Types

  /** jdCache, jdCount and the content of scnQ. */
  datatype CacheState = CacheState(cache: Scn, count: int, queue: seq<Scn>)

  const START := CacheState(EMPTY_SCN, 0, [])

  predicate IsTrue(enabled: Option<bool>) {
    enabled == Some(true)
  }

  /** scnCacheEqual: SubRole is not compared, and no Enabled counts as false. */
  predicate CacheEqual(scn: Scn, cache: Scn) {
    SameHead(scn, cache) && IsTrue(scn.enabled) == IsTrue(cache.enabled)
  }

  predicate SameHead(a: Scn, b: Scn) {
    a.state == b.state && a.flag == b.flag && a.softwareStatus == b.softwareStatus && a.role == b.role
  }

  /** jdcDeepCopy: without an Enabled in the new SCN the cache keeps the one it had. */
  function CopyInto(cache: Scn, scn: Scn): Scn {
    if scn.enabled.Some? then scn else scn.(enabled := cache.enabled)
  }

  predicate Opening(st: CacheState) {
    st.cache.components == [] || st.count == 0
  }

  function Merged(cache: Scn, scn: Scn): Scn {
    cache.(components := cache.components + scn.components)
  }

  /** One accepted SCN. */
  function Receive(st: CacheState, scn: Scn, maxCache: int): CacheState {
    if Opening(st) then
      st.(cache := CopyInto(st.cache, scn), count := st.count + 1)
    else if !CacheEqual(scn, st.cache) then
      CacheState(CopyInto(st.cache, scn), 1, st.queue + [st.cache])
    else if st.count + 1 >= maxCache then
      CacheState(EMPTY_SCN, 0, st.queue + [Merged(st.cache, scn)])
    else
      st.(cache := Merged(st.cache, scn), count := st.count + 1)
  }

  /** One pass of the periodic cache check. */
  function Tick(st: CacheState): CacheState {
    if st.cache.components == [] then st else CacheState(EMPTY_SCN, 0, st.queue + [st.cache])
  }

  class ScnCache {
    var cache: Scn
    var count: int
    var queue: seq<Scn>

    function State(): CacheState
      reads this
    {
      CacheState(cache, count, queue)
    }

    constructor ()
      ensures State() == START
    {
      cache, count, queue := EMPTY_SCN, 0, [];
    }

    method DeepCopy(scn: Scn)
      modifies this`cache
      ensures cache == CopyInto(old(cache), scn)
    {
      cache := cache.(state := scn.state, flag := scn.flag, role := scn.role, subRole := scn.subRole,
                      softwareStatus := scn.softwareStatus);
      if scn.enabled != None {
        cache := cache.(enabled := scn.enabled);
      }
      cache := cache.(components := scn.components);
    }

    method ScnHandler(scn: Scn, maxCache: int)
      modifies this
      ensures State() == Receive(old(State()), scn, maxCache)
    {
      if |cache.components| == 0 || count == 0 {
        DeepCopy(scn);
        count := count + 1;
        return;
      }
      if CacheEqual(scn, cache) {
        cache := cache.(components := cache.components + scn.components);
        count := count + 1;
        if count >= maxCache {
          queue := queue + [cache];
          cache := EMPTY_SCN;
          count := 0;
        }
      } else {
        if |cache.components| > 0 {
          queue := queue + [cache];
          DeepCopy(scn);
          count := 1;
        }
      }
    }

    method CheckScnCache()
      modifies this
      ensures State() == Tick(old(State()))
    {
      if |cache.components| > 0 {
        queue := queue + [cache];
        cache := EMPTY_SCN;
        count := 0;
      }
    }

    /** The receiving end of scnQ; it blocks on an empty queue. */
    method NextScn() returns (scn: Scn)
      requires queue != []
      modifies this`queue
      ensures [scn] + queue == old(queue)
    {
      scn := queue[0];
      queue := queue[1..];
    }
  }

  // ---------- runs, with the history of what each batch was made from ----------

  datatype CacheEvent = Accept(scn: Scn, maxCache: int) | CacheTick | Dequeue

  /** A run so far: the state, the batches already handled, and for every emitted batch
      (and for the cache) the SCNs it was made from. */
  datatype Trace = Trace(st: CacheState, handled: seq<Scn>, groups: seq<seq<Scn>>, open: seq<Scn>) {
    function Emitted(): seq<Scn> {
      handled + st.queue
    }
  }

  function Step(t: Trace, e: CacheEvent): Trace {
    match e
    case Accept(scn, maxCache) =>
      var st := Receive(t.st, scn, maxCache);
      if Opening(t.st) then t.(st := st, open := t.open + [scn])
      else if !CacheEqual(scn, t.st.cache) then t.(st := st, groups := t.groups + [t.open], open := [scn])
      else if t.st.count + 1 >= maxCache then t.(st := st, groups := t.groups + [t.open + [scn]], open := [])
      else t.(st := st, open := t.open + [scn])
    case CacheTick =>
      if t.st.cache.components == [] then t.(st := Tick(t.st))
      else t.(st := Tick(t.st), groups := t.groups + [t.open], open := [])
    case Dequeue =>
      if t.st.queue == [] then t
      else t.(handled := t.handled + [t.st.queue[0]], st := t.st.(queue := t.st.queue[1..]))
  }

  function Run(events: seq<CacheEvent>): Trace {
    if events == [] then Trace(START, [], [], [])
    else Step(Run(events[..|events| - 1]), events[|events| - 1])
  }

  function AcceptedBy(e: CacheEvent): seq<Scn> {
    if e.Accept? then [e.scn] else []
  }

  function Accepted(events: seq<CacheEvent>): seq<Scn> {
    if events == [] then []
    else Accepted(events[..|events| - 1]) + AcceptedBy(events[|events| - 1])
  }

  function Comps(scns: seq<Scn>): seq<string> {
    if scns == [] then [] else scns[0].components + Comps(scns[1..])
  }

  function Flatten(groups: seq<seq<Scn>>): seq<Scn> {
    if groups == [] then [] else groups[0] + Flatten(groups[1..])
  }

  lemma {:induction false} CompsAppend(a: seq<Scn>, b: seq<Scn>)
    ensures Comps(a + b) == Comps(a) + Comps(b)
  {
    if a == [] {
      assert a + b == b;
    } else {
      assert (a + b)[1..] == a[1..] + b;
      CompsAppend(a[1..], b);
    }
  }

  lemma CompsOne(s: Scn)
    ensures Comps([s]) == s.components
  {
    assert [s][1..] == [];
  }

  lemma {:induction false} FlattenAppend(a: seq<seq<Scn>>, g: seq<Scn>)
    ensures Flatten(a + [g]) == Flatten(a) + g
  {
    if a == [] {
      assert [g][1..] == [];
    } else {
      assert (a + [g])[1..] == a[1..] + [g];
      FlattenAppend(a[1..], g);
    }
  }

  /** An SCN that set the header of a batch: its SubRole, and its Enabled if it had one. */
  predicate Opens(s: Scn, batch: Scn) {
    s.components != [] && SameHead(s, batch) && s.subRole == batch.subRole
    && (s.enabled.Some? ==> batch.enabled == s.enabled)
  }

  /** The batch carries exactly the components of these SCNs in order; those SCNs that have
      components share its State, Flag, SoftwareStatus and Role, say nothing else about Enabled than
      the cache comparison lets pass, and one of them opened it. */
  ghost predicate Merges(batch: Scn, group: seq<Scn>) {
    batch.components != [] && batch.components == Comps(group)
    && (forall i :: 0 <= i < |group| && group[i].components != [] ==>
          SameHead(group[i], batch) && (group[i].enabled.Some? ==> IsTrue(group[i].enabled) == IsTrue(batch.enabled)))
    && (exists i :: 0 <= i < |group| && Opens(group[i], batch))
  }

  /** An Enabled in the header was sent by some accepted SCN. */
  ghost predicate EnabledSeen(batch: Scn, accepted: seq<Scn>) {
    batch.enabled.Some? ==> exists i :: 0 <= i < |accepted| && accepted[i].enabled == batch.enabled
  }

  ghost predicate Inv(t: Trace, accepted: seq<Scn>) {
    Flatten(t.groups) + t.open == accepted
    && |t.groups| == |t.Emitted()|
    && (forall i :: 0 <= i < |t.groups| ==>
          Merges(t.Emitted()[i], t.groups[i]) && EnabledSeen(t.Emitted()[i], accepted))
    && t.st.count == |t.open|
    && (if t.st.cache.components == [] then Comps(t.open) == [] else Merges(t.st.cache, t.open))
    && EnabledSeen(t.st.cache, accepted)
  }

  lemma EnabledSeenMore(batch: Scn, accepted: seq<Scn>, more: seq<Scn>)
    requires EnabledSeen(batch, accepted)
    ensures EnabledSeen(batch, accepted + more)
  {
    if batch.enabled.Some? {
      var i :| 0 <= i < |accepted| && accepted[i].enabled == batch.enabled;
      assert (accepted + more)[i] == accepted[i];
    }
  }

  lemma EnabledSeenCopy(cache: Scn, scn: Scn, accepted: seq<Scn>)
    requires EnabledSeen(cache, accepted)
    ensures EnabledSeen(CopyInto(cache, scn), accepted + [scn])
  {
    if scn.enabled.Some? {
      assert (accepted + [scn])[|accepted|] == scn;
    } else {
      EnabledSeenMore(cache, accepted, [scn]);
    }
  }

  /** A fresh header merges a group whose earlier SCNs carried no components. */
  lemma MergesCopy(cache: Scn, scn: Scn, open: seq<Scn>)
    requires scn.components != [] && Comps(open) == []
    ensures Merges(CopyInto(cache, scn), open + [scn])
  {
    CompsAppend(open, [scn]);
    CompsOne(scn);
    NoComponents(open);
    assert (open + [scn])[|open|] == scn;
  }

  lemma {:induction false} NoComponents(scns: seq<Scn>)
    requires Comps(scns) == []
    ensures forall i :: 0 <= i < |scns| ==> scns[i].components == []
  {
    if scns != [] {
      NoComponents(scns[1..]);
      assert forall i :: 1 <= i < |scns| ==> scns[i] == scns[1..][i - 1];
    }
  }

  lemma MergesMore(cache: Scn, scn: Scn, open: seq<Scn>)
    requires Merges(cache, open) && CacheEqual(scn, cache)
    ensures Merges(Merged(cache, scn), open + [scn])
  {
    CompsAppend(open, [scn]);
    CompsOne(scn);
    var b := Merged(cache, scn);
    var i :| 0 <= i < |open| && Opens(open[i], cache);
    assert Opens((open + [scn])[i], b);
  }

  lemma EmitKeeps(t: Trace, t': Trace, accepted: seq<Scn>, more: seq<Scn>, batch: Scn, group: seq<Scn>)
    requires Inv(t, accepted) && Merges(batch, group) && EnabledSeen(batch, accepted + more)
    requires t'.groups == t.groups + [group] && t'.Emitted() == t.Emitted() + [batch]
    ensures |t'.groups| == |t'.Emitted()|
    ensures forall i :: 0 <= i < |t'.groups| ==>
              Merges(t'.Emitted()[i], t'.groups[i]) && EnabledSeen(t'.Emitted()[i], accepted + more)
  {
    forall i | 0 <= i < |t'.groups|
      ensures Merges(t'.Emitted()[i], t'.groups[i]) && EnabledSeen(t'.Emitted()[i], accepted + more)
    {
      if i < |t.groups| {
        EnabledSeenMore(t.Emitted()[i], accepted, more);
      }
    }
  }

  /** The header stays or a new one is opened; nothing is emitted. */
  lemma OpenKeeps(t: Trace, t': Trace, accepted: seq<Scn>, scn: Scn)
    requires Inv(t, accepted) && t'.groups == t.groups && t'.Emitted() == t.Emitted() && t'.open == t.open + [scn]
    requires t'.st.count == |t'.open| && EnabledSeen(t'.st.cache, accepted + [scn])
    requires if t'.st.cache.components == [] then Comps(t'.open) == [] else Merges(t'.st.cache, t'.open)
    ensures Inv(t', accepted + [scn])
  {
    assert Flatten(t.groups) + (t.open + [scn]) == accepted + [scn];
    forall i | 0 <= i < |t.groups| ensures EnabledSeen(t.Emitted()[i], accepted + [scn]) {
      EnabledSeenMore(t.Emitted()[i], accepted, [scn]);
    }
  }

  lemma OpeningKeeps(t: Trace, scn: Scn, maxCache: int, accepted: seq<Scn>)
    requires Inv(t, accepted) && Opening(t.st)
    ensures Inv(Step(t, Accept(scn, maxCache)), accepted + [scn])
  {
    var t' := Step(t, Accept(scn, maxCache));
    EnabledSeenCopy(t.st.cache, scn, accepted);
    assert Comps(t.open) == [];
    if scn.components == [] {
      CompsAppend(t.open, [scn]);
      CompsOne(scn);
    } else {
      MergesCopy(t.st.cache, scn, t.open);
    }
    OpenKeeps(t, t', accepted, scn);
  }

  lemma DifferentKeeps(t: Trace, scn: Scn, maxCache: int, accepted: seq<Scn>)
    requires Inv(t, accepted) && !Opening(t.st) && !CacheEqual(scn, t.st.cache)
    ensures Inv(Step(t, Accept(scn, maxCache)), accepted + [scn])
  {
    var t' := Step(t, Accept(scn, maxCache));
    EnabledSeenCopy(t.st.cache, scn, accepted);
    EnabledSeenMore(t.st.cache, accepted, [scn]);
    FlattenAppend(t.groups, t.open);
    assert Flatten(t.groups) + t.open + [scn] == accepted + [scn];
    assert t'.Emitted() == t.Emitted() + [t.st.cache];
    EmitKeeps(t, t', accepted, [scn], t.st.cache, t.open);
    if scn.components == [] {
      CompsOne(scn);
    } else {
      MergesCopy(t.st.cache, scn, []);
      assert [] + [scn] == [scn];
    }
  }

  lemma FullKeeps(t: Trace, scn: Scn, maxCache: int, accepted: seq<Scn>)
    requires Inv(t, accepted) && !Opening(t.st) && CacheEqual(scn, t.st.cache) && t.st.count + 1 >= maxCache
    ensures Inv(Step(t, Accept(scn, maxCache)), accepted + [scn])
  {
    var t' := Step(t, Accept(scn, maxCache));
    EnabledSeenMore(t.st.cache, accepted, [scn]);
    MergesMore(t.st.cache, scn, t.open);
    FlattenAppend(t.groups, t.open + [scn]);
    assert Flatten(t.groups) + (t.open + [scn]) == accepted + [scn];
    assert t'.Emitted() == t.Emitted() + [Merged(t.st.cache, scn)];
    EmitKeeps(t, t', accepted, [scn], Merged(t.st.cache, scn), t.open + [scn]);
  }

  lemma MergingKeeps(t: Trace, scn: Scn, maxCache: int, accepted: seq<Scn>)
    requires Inv(t, accepted) && !Opening(t.st) && CacheEqual(scn, t.st.cache) && t.st.count + 1 < maxCache
    ensures Inv(Step(t, Accept(scn, maxCache)), accepted + [scn])
  {
    EnabledSeenMore(t.st.cache, accepted, [scn]);
    MergesMore(t.st.cache, scn, t.open);
    OpenKeeps(t, Step(t, Accept(scn, maxCache)), accepted, scn);
  }

  lemma AcceptKeeps(t: Trace, scn: Scn, maxCache: int, accepted: seq<Scn>)
    requires Inv(t, accepted)
    ensures Inv(Step(t, Accept(scn, maxCache)), accepted + [scn])
  {
    if Opening(t.st) {
      OpeningKeeps(t, scn, maxCache, accepted);
    } else if !CacheEqual(scn, t.st.cache) {
      DifferentKeeps(t, scn, maxCache, accepted);
    } else if t.st.count + 1 >= maxCache {
      FullKeeps(t, scn, maxCache, accepted);
    } else {
      MergingKeeps(t, scn, maxCache, accepted);
    }
  }

  lemma TickKeeps(t: Trace, accepted: seq<Scn>)
    requires Inv(t, accepted)
    ensures Inv(Step(t, CacheTick), accepted)
  {
    var t' := Step(t, CacheTick);
    if t.st.cache.components != [] {
      FlattenAppend(t.groups, t.open);
      assert t'.Emitted() == t.Emitted() + [t.st.cache];
      assert accepted + [] == accepted;
      EmitKeeps(t, t', accepted, [], t.st.cache, t.open);
    }
  }

  /** What holds in every reachable state. */
  lemma {:induction false} RunInv(events: seq<CacheEvent>)
    ensures Inv(Run(events), Accepted(events))
  {
    if events != [] {
      var before := events[..|events| - 1];
      RunInv(before);
      match events[|events| - 1]
      case Accept(scn, maxCache) => AcceptKeeps(Run(before), scn, maxCache, Accepted(before));
      case CacheTick =>
        TickKeeps(Run(before), Accepted(before));
        assert Accepted(before) + [] == Accepted(before);
      case Dequeue =>
        assert Run(events).Emitted() == Run(before).Emitted();
        assert Accepted(before) + [] == Accepted(before);
    }
  }

  /** Conservation and order: handled batches, queued batches and the cache together hold the
      components of all accepted SCNs, in arrival order. */
  lemma CoalescingConserves(events: seq<CacheEvent>)
    ensures var t := Run(events);
            Comps(t.handled) + Comps(t.st.queue) + t.st.cache.components == Comps(Accepted(events))
  {
    RunInv(events);
    var t := Run(events);
    GroupComps(t.Emitted(), t.groups);
    CompsAppend(Flatten(t.groups), t.open);
    CompsAppend(t.handled, t.st.queue);
  }

  lemma {:induction false} GroupComps(batches: seq<Scn>, groups: seq<seq<Scn>>)
    requires |batches| == |groups| && forall i :: 0 <= i < |groups| ==> Merges(batches[i], groups[i])
    ensures Comps(batches) == Comps(Flatten(groups))
  {
    if groups != [] {
      assert Merges(batches[0], groups[0]);
      GroupComps(batches[1..], groups[1..]);
      CompsAppend(groups[0], Flatten(groups[1..]));
    }
  }

  /** The accepted SCNs fall into consecutive groups, one per emitted batch in order and a last
      one for the cache; jdCount is the size of the last; and jdCount == 0 only with an empty cache. */
  lemma BatchesAreConsecutiveRuns(events: seq<CacheEvent>)
    ensures var t := Run(events);
            Flatten(t.groups) + t.open == Accepted(events)
            && |t.groups| == |t.handled + t.st.queue|
            && (forall i :: 0 <= i < |t.groups| ==> Merges((t.handled + t.st.queue)[i], t.groups[i]))
            && (t.st.cache.components != [] ==> Merges(t.st.cache, t.open))
            && t.st.count == |t.open|
            && (t.st.count == 0 ==> t.st.cache.components == [])
  {
    RunInv(events);
  }

  // ---------- batch size ----------

  function WithComponents(scns: seq<Scn>): nat {
    if scns == [] then 0
    else WithComponents(scns[..|scns| - 1]) + (if scns[|scns| - 1].components == [] then 0 else 1)
  }

  lemma WithComponentsAppend(scns: seq<Scn>, s: Scn)
    ensures WithComponents(scns + [s]) == WithComponents(scns) + (if s.components == [] then 0 else 1)
  {
    assert (scns + [s])[..|scns|] == scns;
  }

  lemma {:induction false} WithComponentsAtMost(scns: seq<Scn>)
    ensures WithComponents(scns) <= |scns|
    ensures Comps(scns) == [] ==> WithComponents(scns) == 0
  {
    if scns != [] {
      var init, last := scns[..|scns| - 1], scns[|scns| - 1];
      WithComponentsAtMost(init);
      assert scns == init + [last];
      CompsAppend(init, [last]);
      CompsOne(last);
    }
  }

  function Max(a: int, b: int): int {
    if a >= b then a else b
  }

  ghost predicate Bounded(t: Trace, limit: int) {
    WithComponents(t.open) <= Max(1, limit - 1)
    && forall i :: 0 <= i < |t.groups| ==> WithComponents(t.groups[i]) <= Max(2, limit)
  }

  /** The sizes of the groups a step leaves, given what it leaves of the groups. */
  lemma BoundedMore(t: Trace, t': Trace, group: seq<Scn>, limit: int)
    requires Bounded(t, limit) && t'.groups == t.groups + [group]
    requires WithComponents(group) <= Max(2, limit) && WithComponents(t'.open) <= Max(1, limit - 1)
    ensures Bounded(t', limit)
  {
  }

  lemma BoundedAccept(t: Trace, scn: Scn, maxCache: int, accepted: seq<Scn>, limit: int)
    requires Inv(t, accepted) && Bounded(t, limit) && maxCache <= limit
    ensures Bounded(Step(t, Accept(scn, maxCache)), limit)
  {
    var t' := Step(t, Accept(scn, maxCache));
    WithComponentsAtMost(t.open);
    WithComponentsAtMost(t.open + [scn]);
    WithComponentsAppend(t.open, scn);
    WithComponentsAppend([], scn);
    assert [] + [scn] == [scn];
    if Opening(t.st) {
    } else if !CacheEqual(scn, t.st.cache) {
      BoundedMore(t, t', t.open, limit);
    } else if t.st.count + 1 >= maxCache {
      BoundedMore(t, t', t.open + [scn], limit);
    }
  }

  lemma BoundedStep(t: Trace, e: CacheEvent, accepted: seq<Scn>, limit: int)
    requires Inv(t, accepted) && Bounded(t, limit) && (e.Accept? ==> e.maxCache <= limit)
    ensures Bounded(Step(t, e), limit)
  {
    match e
    case Accept(scn, maxCache) => BoundedAccept(t, scn, maxCache, accepted, limit);
    case CacheTick =>
      if t.st.cache.components != [] {
        BoundedMore(t, Step(t, e), t.open, limit);
      }
    case Dequeue =>
  }

  /** With Scn_max_cache never above a limit, the cache holds at most max(1, limit - 1) SCNs with
      components at rest, and no batch merges more than max(2, limit) of them. */
  lemma {:induction false} BatchSizeBound(events: seq<CacheEvent>, limit: int)
    requires forall i :: 0 <= i < |events| && events[i].Accept? ==> events[i].maxCache <= limit
    ensures WithComponents(Run(events).open) <= Max(1, limit - 1)
    ensures forall i :: 0 <= i < |Run(events).groups| ==> WithComponents(Run(events).groups[i]) <= Max(2, limit)
  {
    if events != [] {
      var before := events[..|events| - 1];
      BatchSizeBound(before, limit);
      RunInv(before);
      BoundedStep(Run(before), events[|events| - 1], Accepted(before), limit);
    }
  }

  // ---------- when SCNs are merged ----------

  /** One step with the comparison's answer given. */
  lemma AcceptStep(t: Trace, scn: Scn, maxCache: int, differs: bool)
    requires t.st.cache.components != [] && t.st.count == |t.open| > 0 && differs == !CacheEqual(scn, t.st.cache)
    requires |t.groups| == |t.Emitted()|
    ensures var after, batch := Step(t, Accept(scn, maxCache)), t.st.cache;
            var full, more := |t.open| + 1 >= maxCache, batch.(components := batch.components + scn.components);
            (differs ==> after.groups == t.groups + [t.open] && after.Emitted() == t.Emitted() + [batch]
                         && after.open == [scn] && after.st.cache == CopyInto(batch, scn))
            && (!differs && full ==> after.groups == t.groups + [t.open + [scn]]
                                     && after.Emitted() == t.Emitted() + [more] && after.st.cache == EMPTY_SCN)
            && (!differs && !full ==> after.groups == t.groups && after.Emitted() == t.Emitted()
                                      && after.st.cache == more && after.open == t.open + [scn])
  {
  }

  /** An SCN that meets an open batch ends it exactly if it differs from the batch in State, Flag,
      SoftwareStatus, Role or in whether it reports Enabled, or if it fills the batch; only in the
      second case does it still go into it. Without an open batch it opens one. */
  lemma AcceptSplitsExactly(events: seq<CacheEvent>, scn: Scn, maxCache: int)
    ensures var t, after := Run(events), Run(events + [Accept(scn, maxCache)]);
            var batch := t.st.cache;
            var differs := scn.state != batch.state || scn.flag != batch.flag || scn.role != batch.role
                           || scn.softwareStatus != batch.softwareStatus
                           || (scn.enabled == Some(true)) != (batch.enabled == Some(true));
            var full, more := |t.open| + 1 >= maxCache, batch.(components := batch.components + scn.components);
            var header := scn.(enabled := if scn.enabled.Some? then scn.enabled else batch.enabled);
            if batch.components == [] then
              after.groups == t.groups && after.Emitted() == t.Emitted() && after.open == t.open + [scn]
              && after.st.cache == header
            else
              (|after.groups| == |t.groups| + 1 <==> differs || full)
              && (differs ==> after.Emitted() == t.Emitted() + [batch] && after.open == [scn]
                              && after.st.cache == header)
              && (!differs && full ==> after.Emitted() == t.Emitted() + [more] && after.st.cache == EMPTY_SCN)
              && (!differs && !full ==> after.Emitted() == t.Emitted() && after.st.cache == more
                                        && after.groups == t.groups && after.open == t.open + [scn])
  {
    RunInv(events);
    var t := Run(events);
    assert (events + [Accept(scn, maxCache)])[..|events|] == events;
    if t.st.cache.components != [] {
      AcceptStep(t, scn, maxCache, !CacheEqual(scn, t.st.cache));
    }
  }

  /** Two SCNs with components go out as one batch exactly if they agree in the fields compared,
      whatever the size limit, and as two otherwise. */
  lemma PairMergedExactly(a: Scn, b: Scn, limit: int)
    requires a.components != [] && b.components != []
    ensures var agree := a.state == b.state && a.flag == b.flag && a.softwareStatus == b.softwareStatus
                         && a.role == b.role && ((a.enabled == Some(true)) <==> (b.enabled == Some(true)));
            Run([Accept(a, limit), Accept(b, limit), CacheTick]).st.queue
            == if agree then [a.(components := a.components + b.components)]
               else [a, b.(enabled := if b.enabled.Some? then b.enabled else a.enabled)]
  {
    var e := [Accept(a, limit), Accept(b, limit), CacheTick];
    assert e[..2][..1][..0] == [] && e[..2][1] == e[1] && e[..2][..1][0] == e[0];
    assert Run(e[..2][..1]) == Step(Run([]), e[0]);
    assert Run(e[..2]) == Step(Run(e[..2][..1]), e[1]);
  }

  /** SubRole is not compared: two SCNs that differ only in SubRole are merged, and the second
      one's components go out under the first one's SubRole. */
  lemma SubRoleIsLost(a: Scn, b: Scn, limit: int)
    requires a.components != [] && b.components != [] && CacheEqual(b, a) && a.subRole != b.subRole
    ensures var t := Run([Accept(a, limit), Accept(b, limit), CacheTick]);
            t.st.queue == [a.(components := a.components + b.components)]
  {
    PairMergedExactly(a, b, limit);
  }

  /** The old Enabled stays: an SCN that says nothing about Enabled, arriving after a different one
      that reported a component disabled, is sent on as reporting its components disabled. */
  lemma EnabledIsInherited(a: Scn, b: Scn, limit: int)
    requires a.components != [] && b.components != [] && a.enabled == Some(false) && b.enabled == None
    requires !SameHead(b, a)
    ensures var t := Run([Accept(a, limit), Accept(b, limit), CacheTick]);
            t.st.queue == [a, b.(enabled := Some(false))]
  {
    PairMergedExactly(a, b, limit);
  }
}
