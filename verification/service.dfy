/** Whole runs of the service: every kind of request, the queue of SCNs, the send jobs and the
    prune loop acting on one store and one prune map, in any order. */
module Service {
  import opened Text
  import opened Types
  import opened SubscriptionKey
  import opened Scanners
  import opened Store
  import opened Fanout
  import opened Subscriptions
  import opened SubscriptionLaws
  import opened Availability
  import C = Coalescer

  /** The service's shared state. */
  datatype State = State(data: Db, marks: set<string>, jobs: seq<Job>, cache: C.CacheState)

  const START := State(map[], {}, [], C.START)

  /** One step of the service with its inputs. `known` is the xname library's verdict. */
  datatype Event =
    | PostV1(body: ScnSubscribe, known: bool, io: KvIo)
    | PostV2(xname: string, agent: string, body: ScnSubscribe, known: bool, io: KvIo)
    | PatchV1(body: ScnSubscribe, io: KvIo)
    | PatchV2(xname: string, agent: string, body: ScnSubscribe, io: KvIo)
    | DeleteV1(subscriber: string, url: string, io: KvIo)
    | DeleteAgent(xname: string, agent: string, io: KvIo)
    | DeleteXname(xname: string, io: KvIo)
    | ReceiveScn(scn: Scn, maxCache: int)
    | CacheTick
    | HandleScn(io: KvIo)
    | RunJob(index: nat, outcome: int -> Outcome, retries: int)
    | PruneTick(io: KvIo)
    | DeadWood(bad: set<string>, io: KvIo)

  /** What a DELETE looks for; the empty xname stands for an invalid one and is refused. */
  function TargetOf(e: Event): Option<Target> {
    match e
    case DeleteV1(s, u, _) => Some(OfBody(s, u))
    case DeleteAgent(x, a, _) => if x == "" then None else Some(OfAgent(x, a))
    case DeleteXname(x, _) => if x == "" then None else Some(OfXname(x))
    case _ => None
  }

  /** The keys a step deletes without replacing them. */
  function Gone(s: State, e: Event): set<string> {
    if e.PruneTick? then Victims(s.data, OfMarks(s.marks), e.io)
    else if TargetOf(e).Some? then Victims(s.data, TargetOf(e).value, e.io)
    else {}
  }

  /** The marks a step adds. */
  function Added(s: State, e: Event): set<string> {
    match e
    case HandleScn(_) => if s.cache.queue == [] then {} else MarksOf(s.cache.queue[0])
    case RunJob(i, outcome, retries) => if i < |s.jobs| then MarksOfSend(s.jobs[i], s.marks, outcome, retries) else {}
    case DeadWood(bad, io) => if io.rangeOk then DeadOwners(s.data, bad) else {}
    case PruneTick(_) => {}
    case _ => LabelsOf(Gone(s, e))
  }

  ghost function DataAfter(s: State, e: Event): Db {
    match e
    case PostV1(body, known, io) =>
      var j := LowerBody(body);
      Posted(s.data, KeyOfV1(j), j, CheckSubscriptionV1(j) && known, io)
    case PostV2(x, a, body, known, io) =>
      var j := LowerBody(body);
      Posted(s.data, KeyOf(j, x, a), j, x != "" && CheckSubscriptionV2(j) && known, io)
    case PatchV1(body, io) =>
      var j := LowerBody(body);
      var start := PatchStart(j.subscriber);
      if CheckSubscriptionV1(j) then
        Patched(s.data, start, start + "z", ByBody(j.subscriber, j.url), KeyOfV1(j), DataOf(j), io)
      else s.data
    case PatchV2(x, a, body, io) =>
      var j := LowerBody(body);
      var start := PatchStart(j.subscriber);
      if x != "" then Patched(s.data, start, start + "z", ByPath(x, a), KeyOf(j, x, a), DataOf(j), io) else s.data
    case _ => s.data - Gone(s, e)
  }

  ghost function JobsAfter(s: State, e: Event): seq<Job> {
    match e
    case HandleScn(io) =>
      if s.cache.queue == [] || !io.rangeOk then s.jobs
      else
        var scn := s.cache.queue[0];
        s.jobs + Jobs(FanoutOf(ListingOf(s.data, RANGE_START, RANGE_END), scn, Suppressed(scn, s.marks)))
    case RunJob(i, _, _) => if i < |s.jobs| then s.jobs[..i] + s.jobs[i + 1..] else s.jobs
    case _ => s.jobs
  }

  function CacheAfter(s: State, e: Event): C.CacheState {
    match e
    case ReceiveScn(scn, maxCache) => C.Receive(s.cache, scn, maxCache)
    case CacheTick => C.Tick(s.cache)
    case HandleScn(_) => if s.cache.queue == [] then s.cache else s.cache.(queue := s.cache.queue[1..])
    case _ => s.cache
  }

  ghost function Step(s: State, e: Event): State {
    State(DataAfter(s, e), if e.PruneTick? then {} else s.marks + Added(s, e), JobsAfter(s, e), CacheAfter(s, e))
  }

  ghost predicate StepAt(events: seq<Event>, states: seq<State>, i: nat)
    requires i < |events| && i + 1 < |states|
  {
    states[i + 1] == Step(states[i], events[i])
  }

  /** A process begins on whatever sound store the last one left, and with nothing else. */
  ghost predicate Beginning(s: State) {
    StoreInv(s.data) && s == START.(data := s.data)
  }

  /** A run: the states before, between and after the events. */
  ghost predicate IsRun(events: seq<Event>, states: seq<State>) {
    |states| == |events| + 1 && Beginning(states[0]) && forall i :: 0 <= i < |events| ==> StepAt(events, states, i)
  }

  /** Every sequence of events has a run from every sound store. */
  ghost function RunOf(data: Db, events: seq<Event>): (states: seq<State>)
    requires StoreInv(data)
    ensures IsRun(events, states) && states[0].data == data
  {
    if events == [] then [START.(data := data)]
    else
      var before := RunOf(data, events[..|events| - 1]);
      RunExtends(events, before);
      before + [Step(before[|events| - 1], events[|events| - 1])]
  }

  lemma RunExtends(events: seq<Event>, before: seq<State>)
    requires events != [] && IsRun(events[..|events| - 1], before)
    ensures IsRun(events, before + [Step(before[|events| - 1], events[|events| - 1])])
  {
    var n := |events| - 1;
    var states := before + [Step(before[n], events[n])];
    forall i | 0 <= i < |events| ensures StepAt(events, states, i) {
      if i < n {
        assert StepAt(events[..n], before, i);
      }
    }
  }

  // ---------- the handlers carry out the steps ----------

  /** The heap the handlers work on. */
  ghost function StateOf(kv: KvStore, pm: PruneMap, pool: JobPool, cache: C.ScnCache): State
    reads kv, pm, pool, cache
  {
    State(kv.data, pm.marks, pool.jobs, cache.State())
  }

  lemma NothingGone(s: State)
    ensures s.data - {} == s.data && s.marks + {} == s.marks && LabelsOf({}) == {}
  {
  }

  method PerformWrite(kv: KvStore, pm: PruneMap, pool: JobPool, cache: C.ScnCache, e: Event)
    requires StoreInv(kv.data) && (e.PostV1? || e.PostV2? || e.PatchV1? || e.PatchV2?)
    modifies kv
    ensures StateOf(kv, pm, pool, cache) == Step(old(StateOf(kv, pm, pool, cache)), e)
  {
    ghost var s := StateOf(kv, pm, pool, cache);
    NothingGone(s);
    match e
    case PostV1(body, known, io) => var _ := DoSubscribePost(kv, body, _ => known, io);
    case PostV2(x, a, body, known, io) => var _ := SubscriptionsAgentPost(kv, x, a, body, _ => known, io);
    case PatchV1(body, io) =>
      ghost var j := LowerBody(body);
      ghost var start := PatchStart(j.subscriber);
      NothingPanics(kv.data, start, start + "z", EMPTY_SCN, {}, ByBody(j.subscriber, j.url));
      DoSubscribePatch(kv, body, io);
    case PatchV2(x, a, body, io) =>
      ghost var start := PatchStart(LowerBody(body).subscriber);
      NothingPanics(kv.data, start, start + "z", EMPTY_SCN, {}, ByPath(x, a));
      SubscriptionsAgentPatch(kv, x, a, body, io);
  }

  method PerformRemoval(kv: KvStore, pm: PruneMap, pool: JobPool, cache: C.ScnCache, e: Event)
    requires StoreInv(kv.data) && (e.DeleteV1? || e.DeleteAgent? || e.DeleteXname? || e.PruneTick?)
    modifies kv, pm
    ensures StateOf(kv, pm, pool, cache) == Step(old(StateOf(kv, pm, pool, cache)), e)
  {
    NothingGone(StateOf(kv, pm, pool, cache));
    NothingPanics(kv.data, "", "", EMPTY_SCN, {}, ByPath("", ""));
    match e
    case DeleteV1(subscriber, url, io) => DoSubscribeDelete(kv, pm, subscriber, url, io);
    case DeleteAgent(x, a, io) => var _ := SubscriptionsAgentDelete(kv, pm, x, a, io);
    case DeleteXname(x, io) => SubscriptionsXNameDelete(kv, pm, x, io);
    case PruneTick(io) => Prune(kv, pm, io);
  }

  method PerformScn(kv: KvStore, pm: PruneMap, pool: JobPool, cache: C.ScnCache, e: Event)
    requires e.ReceiveScn? || e.CacheTick?
    modifies cache
    ensures StateOf(kv, pm, pool, cache) == Step(old(StateOf(kv, pm, pool, cache)), e)
  {
    NothingGone(StateOf(kv, pm, pool, cache));
    match e
    case ReceiveScn(scn, maxCache) => cache.ScnHandler(scn, maxCache);
    case CacheTick => cache.CheckScnCache();
  }

  method PerformFanout(kv: KvStore, pm: PruneMap, pool: JobPool, cache: C.ScnCache, e: Event)
    requires StoreInv(kv.data) && e.HandleScn? && cache.queue != []
    modifies pm, pool, cache
    ensures StateOf(kv, pm, pool, cache) == Step(old(StateOf(kv, pm, pool, cache)), e)
  {
    NothingGone(StateOf(kv, pm, pool, cache));
    var scn := cache.NextScn();
    NothingPanics(kv.data, "", "", scn, Suppressed(scn, pm.marks), ByPath("", ""));
    assert pool.jobs + [] == pool.jobs;
    DoScn(kv, pm, pool, scn, e.io);
  }

  method PerformSend(kv: KvStore, pm: PruneMap, pool: JobPool, cache: C.ScnCache, e: Event)
    requires e.RunJob? && e.index < |pool.jobs|
    modifies pm, pool
    ensures StateOf(kv, pm, pool, cache) == Step(old(StateOf(kv, pm, pool, cache)), e)
  {
    NothingGone(StateOf(kv, pm, pool, cache));
    var job := pool.jobs[e.index];
    pool.jobs := pool.jobs[..e.index] + pool.jobs[e.index + 1..];
    var _ := SendScnToSubscriber(pm, job, e.outcome, e.retries);
  }

  method PerformDeadWood(kv: KvStore, pm: PruneMap, pool: JobPool, cache: C.ScnCache, e: Event)
    requires e.DeadWood?
    modifies pm
    ensures StateOf(kv, pm, pool, cache) == Step(old(StateOf(kv, pm, pool, cache)), e)
  {
    NothingGone(StateOf(kv, pm, pool, cache));
    PruneDeadWood(kv, pm, e.bad, e.io);
  }

  // ---------- inputs the service was designed for ----------

  /** Accepted subscribers are xnames, and values and agents do not confuse the scanners; a v2 PATCH
      body has components and a Url. */
  predicate SoundInput(e: Event) {
    match e
    case PostV1(body, known, _) =>
      var j := LowerBody(body);
      var (x, a) := OwnerV1(j.subscriber);
      known && CheckSubscriptionV1(j) ==> Sound(Owned(j, x, a))
    case PostV2(x, a, body, known, _) => known && x != "" ==> Sound(Owned(LowerBody(body), x, a))
    case PatchV1(body, _) => SvcFree(LowerBody(body), OwnerV1(LowerBody(body).subscriber).0)
    case PatchV2(x, _, body, _) => SvcFree(LowerBody(body), x) && Usable(DataOf(LowerBody(body)))
    case _ => true
  }

  ghost predicate SoundInputs(events: seq<Event>) {
    forall i :: 0 <= i < |events| ==> SoundInput(events[i])
  }

  lemma StepKeepsInv(s: State, e: Event)
    requires StoreInv(s.data) && SoundInput(e)
    ensures StoreInv(DataAfter(s, e))
  {
    match e
    case PostV1(body, known, io) =>
      var j := LowerBody(body);
      var (x, a) := OwnerV1(j.subscriber);
      KeyOfV1Owner(j);
      PostKeepsInv(s.data, Owned(j, x, a), CheckSubscriptionV1(j) && known, io);
    case PostV2(x, a, body, known, io) =>
      PostKeepsInv(s.data, Owned(LowerBody(body), x, a), x != "" && CheckSubscriptionV2(LowerBody(body)) && known, io);
    case PatchV1(body, io) =>
      if CheckSubscriptionV1(LowerBody(body)) {
        LowerIdempotent(body.subscriber);
        PatchV1KeepsInv(s.data, LowerBody(body), io);
      }
    case PatchV2(x, a, body, io) =>
      var j := LowerBody(body);
      var start, w := PatchStart(j.subscriber), ByPath(x, a);
      FirstMatchLeast(s.data, start, start + "z", w);
      if x != "" && io.rangeOk && FirstMatch(ListingOf(s.data, start, start + "z"), w).Some? {
        V2Replaces(s.data, FirstMatch(ListingOf(s.data, start, start + "z"), w).value, j, x, a, io);
      }
    case _ => RemovalKeepsInv(s.data, Gone(s, e));
  }

  /** The store invariant holds in every reachable state: every key is the key of a sound
      subscription and every record has components and a Url. */
  lemma {:induction false} StoreInvAlways(events: seq<Event>, states: seq<State>, n: nat)
    requires IsRun(events, states) && n <= |events| && SoundInputs(events)
    ensures StoreInv(states[n].data)
  {
    if n > 0 {
      StoreInvAlways(events, states, n - 1);
      StepKeepsInv(states[n - 1], events[n - 1]);
      assert StepAt(events, states, n - 1);
    }
  }

  // ---------- where marks come from ----------

  ghost predicate JobsSound(jobs: seq<Job>) {
    forall i :: 0 <= i < |jobs| ==> XnameShape(jobs[i].subscriber)
  }

  lemma StepKeepsJobs(s: State, e: Event)
    requires StoreInv(s.data) && JobsSound(s.jobs)
    ensures JobsSound(JobsAfter(s, e))
  {
    if e.HandleScn? && s.cache.queue != [] && e.io.rangeOk {
      var scn := s.cache.queue[0];
      var ds := FanoutOf(ListingOf(s.data, RANGE_START, RANGE_END), scn, Suppressed(scn, s.marks));
      FanoutIsFilterMap(s.data, scn, Suppressed(scn, s.marks));
      forall i | 0 <= i < |ds| ensures XnameShape(Jobs(ds)[i].subscriber) {
        assert ds[i] in ds;
        var o :| Sound(o) && o.Key() == ds[i].key;
        OwnerRead(o);
      }
    }
  }

  lemma {:induction false} JobsAlwaysSound(events: seq<Event>, states: seq<State>, n: nat)
    requires IsRun(events, states) && n <= |events| && SoundInputs(events)
    ensures JobsSound(states[n].jobs)
  {
    if n > 0 {
      JobsAlwaysSound(events, states, n - 1);
      StoreInvAlways(events, states, n - 1);
      StepKeepsJobs(states[n - 1], events[n - 1]);
      assert StepAt(events, states, n - 1);
    }
  }

  /** Between event j and the state after n events there was no prune step. */
  ghost predicate NoPruneBetween(events: seq<Event>, j: int, n: int)
    requires 0 <= j <= n <= |events|
  {
    forall i :: j < i < n ==> !events[i].PruneTick?
  }

  ghost predicate Marks(s: State, e: Event, m: string) {
    m in Added(s, e)
  }

  lemma MarksStep(events: seq<Event>, states: seq<State>, i: nat, m: string)
    requires IsRun(events, states) && i < |events|
    ensures m in states[i + 1].marks <==>
            !events[i].PruneTick? && (Marks(states[i], events[i], m) || m in states[i].marks)
  {
    assert StepAt(events, states, i);
  }

  /** Every mark in force was added by an event since the last prune step. */
  lemma {:induction false} MarkHasCause(events: seq<Event>, states: seq<State>, n: nat, m: string)
    requires IsRun(events, states) && n <= |events| && m in states[n].marks
    ensures exists j :: 0 <= j < n && NoPruneBetween(events, j, n) && Marks(states[j], events[j], m)
  {
    if n > 0 {
      MarksStep(events, states, n - 1, m);
      if Marks(states[n - 1], events[n - 1], m) {
        assert NoPruneBetween(events, n - 1, n);
      } else {
        MarkHasCause(events, states, n - 1, m);
        var j :| 0 <= j < n - 1 && NoPruneBetween(events, j, n - 1) && Marks(states[j], events[j], m);
        assert NoPruneBetween(events, j, n);
      }
    }
  }

  // ---------- why a subscription can disappear ----------

  /** A DELETE or PATCH that names the owner. */
  predicate Names(e: Event, xname: string, agent: string) {
    match e
    case DeleteV1(s, _, _) => Lower(s) == Lower(OwnerLabel(xname, agent))
    case DeleteAgent(x, a, _) => x == xname && a == agent
    case DeleteXname(x, _) => x == xname
    case PatchV1(body, _) => LowerBody(body).subscriber == OwnerLabel(xname, agent)
    case PatchV2(x, a, _, _) => x == xname && a == agent
    case _ => false
  }

  /** An event that condemns the subscriptions of an owner: an unavailability notice listing the
      xname, a send to the xname given up, the dead-node pass on it, or a DELETE recorded as the
      bare xname or as agent@xname. */
  ghost predicate Condemns(s: State, e: Event, xname: string, agent: string) {
    match e
    case HandleScn(_) =>
      s.cache.queue != [] && IsStateUnavailable(s.cache.queue[0]) && xname in LowerAll(s.cache.queue[0].components)
    case RunJob(i, outcome, retries) =>
      i < |s.jobs| && s.jobs[i].subscriber == xname && s.jobs[i].url != "" && SendFrom(outcome, 1, retries).prune
    case DeadWood(bad, io) => io.rangeOk && xname in bad
    case _ =>
      TargetOf(e).Some?
      && exists k :: k in Gone(s, e) && (KeyLabel(k) == xname || KeyLabel(k) == OwnerLabel(xname, agent))
  }

  /** No SCN names a component that could pass for a prune entry of an agent. */
  predicate PlainComponents(e: Event) {
    e.ReceiveScn? ==> forall i :: 0 <= i < |e.scn.components| ==>
      Lower(e.scn.components[i]) != "bad_sub" && '@' !in e.scn.components[i]
  }

  ghost predicate CachePlain(c: C.CacheState) {
    PlainList(c.cache.components) && forall i :: 0 <= i < |c.queue| ==> PlainList(c.queue[i].components)
  }

  predicate PlainList(components: seq<string>) {
    forall i :: 0 <= i < |components| ==> Lower(components[i]) != "bad_sub" && '@' !in components[i]
  }

  lemma StepKeepsPlain(c: C.CacheState, s: State, e: Event)
    requires CachePlain(s.cache) && PlainComponents(e) && c == CacheAfter(s, e)
    ensures CachePlain(c)
  {
    if e.ReceiveScn? {
      assert PlainList(e.scn.components) && PlainList(s.cache.cache.components + e.scn.components);
      assert PlainList(C.CopyInto(s.cache.cache, e.scn).components);
    }
  }

  lemma {:induction false} CacheAlwaysPlain(events: seq<Event>, states: seq<State>, n: nat)
    requires IsRun(events, states) && n <= |events| && forall i :: 0 <= i < |events| ==> PlainComponents(events[i])
    ensures CachePlain(states[n].cache)
  {
    if n > 0 {
      CacheAlwaysPlain(events, states, n - 1);
      StepKeepsPlain(CacheAfter(states[n - 1], events[n - 1]), states[n - 1], events[n - 1]);
      assert StepAt(events, states, n - 1);
    }
  }

  lemma NoticeCondemns(s: State, e: Event, xname: string, agent: string, m: string)
    requires CachePlain(s.cache) && e.HandleScn?
    requires XnameShape(xname) && (m == xname || m == PruneMark(xname, agent)) && m in Added(s, e)
    ensures Condemns(s, e, xname, agent)
  {
    MarkShapes(xname, agent);
    var comps := s.cache.queue[0].components;
    assert PlainList(comps);
    var i :| 0 <= i < |comps| && LowerAll(comps)[i] == m;
    LowerKeepsPunctuation(comps[i], '@');
  }

  lemma DeleteCondemns(s: State, e: Event, xname: string, agent: string, m: string)
    requires StoreInv(s.data) && TargetOf(e).Some?
    requires XnameShape(xname) && (m == xname || m == PruneMark(xname, agent)) && m in LabelsOf(Gone(s, e))
    ensures Condemns(s, e, xname, agent)
  {
    var k :| k in Gone(s, e) && KeyLabel(k) == m;
    var o :| Sound(o) && o.Key() == k;
    OwnerRead(o);
    MarkShapes(o.xname, o.agent);
    MarkShapes(xname, agent);
  }

  /** A condemning mark is one of the two prune looks an owner up by; any other way to add it is
      excluded by the shapes of xnames, labels and components. */
  lemma MarkCondemns(s: State, e: Event, xname: string, agent: string, m: string)
    requires StoreInv(s.data) && JobsSound(s.jobs) && CachePlain(s.cache)
    requires XnameShape(xname) && (m == xname || m == PruneMark(xname, agent)) && m in Added(s, e)
    ensures Condemns(s, e, xname, agent)
  {
    if e.HandleScn? {
      NoticeCondemns(s, e, xname, agent, m);
    } else if e.RunJob? {
      MarkShapes(xname, agent);
    } else if e.DeadWood? {
      MarkShapes(xname, agent);
      var k :| k in s.data && Scanned(k) && XnameOf(k) in e.bad && XnameOf(k) == m;
      var o :| Sound(o) && o.Key() == k;
      OwnerRead(o);
    } else {
      DeleteCondemns(s, e, xname, agent, m);
    }
  }

  /** Marks for agents are told from xnames by their '@', and "bad_sub" is neither. */
  lemma MarkShapes(xname: string, agent: string)
    requires XnameShape(xname)
    ensures agent != "" ==> '@' in PruneMark(xname, agent) && PruneMark(xname, agent) == OwnerLabel(xname, agent)
    ensures agent == "" ==> OwnerLabel(xname, agent) == xname
    ensures !XnameShape("bad_sub") && '@' !in "bad_sub" && OwnerLabel(xname, agent) != "bad_sub"
  {
    if agent != "" {
      assert (agent + "@" + xname)[|agent|] == '@';
    }
    assert "bad_sub"[0] == 'b';
  }

  lemma RemovalNames(s: State, e: Event, o: Subscription)
    requires Sound(o) && TargetOf(e).Some? && o.Key() in Gone(s, e)
    ensures Names(e, o.xname, o.agent)
  {
    OwnerRead(o);
  }

  /** A PATCH removes no record but the one it replaces. */
  lemma PatchRemovesSought(data: Db, lo: string, hi: string, w: Who, exKey: string, value: SubData, io: KvIo, k: string)
    requires k in data && k !in Patched(data, lo, hi, w, exKey, value, io)
    ensures PatchMatch(w, Record(k, data[k]))
  {
    FirstMatchLeast(data, lo, hi, w);
  }

  lemma PatchNames(s: State, e: Event, o: Subscription)
    requires Sound(o) && (e.PatchV1? || e.PatchV2?) && o.Key() in s.data && o.Key() !in DataAfter(s, e)
    ensures Names(e, o.xname, o.agent)
  {
    OwnerRead(o);
    var j := LowerBody(e.body);
    var start := PatchStart(j.subscriber);
    if e.PatchV1? {
      PatchRemovesSought(s.data, start, start + "z", ByBody(j.subscriber, j.url), KeyOfV1(j), DataOf(j), e.io, o.Key());
    } else {
      PatchRemovesSought(s.data, start, start + "z", ByPath(e.xname, e.agent), KeyOf(j, e.xname, e.agent), DataOf(j),
                         e.io, o.Key());
    }
  }

  /** A subscription leaves the store only by a DELETE or PATCH naming its owner, or by a prune. */
  lemma OnlyNamedOrPruned(s: State, e: Event, o: Subscription)
    requires Sound(o) && o.Key() in s.data && o.Key() !in DataAfter(s, e)
    ensures Names(e, o.xname, o.agent) || (e.PruneTick? && o.Key() in Gone(s, e))
  {
    if e.PatchV1? || e.PatchV2? {
      PatchNames(s, e, o);
    } else if TargetOf(e).Some? {
      RemovalNames(s, e, o);
    }
  }

  /** Whole-run provenance: if a stored subscription disappears in a step, the step is a DELETE or
      PATCH naming its owner, or a prune step preceded, since the last prune step, by an event
      that condemned the owner; and an SCN does that only if received SCNs reported the xname. */
  lemma WhyASubscriptionDisappears(events: seq<Event>, states: seq<State>, n: nat, o: Subscription)
    requires IsRun(events, states) && n < |events|
    requires SoundInputs(events) && (forall i :: 0 <= i < |events| ==> PlainComponents(events[i]))
    requires Sound(o) && o.Key() in states[n].data && o.Key() !in states[n + 1].data
    ensures Names(events[n], o.xname, o.agent)
            || (events[n].PruneTick? &&
                exists j :: 0 <= j < n && NoPruneBetween(events, j, n)
                  && Condemns(states[j], events[j], o.xname, o.agent)
                            && (events[j].HandleScn? ==> Reported(Received(events[..j]), o.xname)))
  {
    assert StepAt(events, states, n);
    OnlyNamedOrPruned(states[n], events[n], o);
    if !Names(events[n], o.xname, o.agent) {
      var m := PrunedByMark(states[n], events[n], o);
      var j := CauseOf(events, states, n, m);
      MarkCondemns(states[j], events[j], o.xname, o.agent, m);
      if events[j].HandleScn? {
        NoticeIsReported(events, states, j, o.xname, o.agent);
      }
    }
  }

  /** The SCNs received. */
  function Received(events: seq<Event>): seq<Scn> {
    if events == [] then []
    else
      var before, e := events[..|events| - 1], events[|events| - 1];
      Received(before) + (if e.ReceiveScn? then [e.scn] else [])
  }

  lemma {:induction false} AcceptedIsReceived(events: seq<Event>)
    ensures C.Accepted(CacheEvents(events)) == Received(events)
  {
    if events != [] {
      var before := events[..|events| - 1];
      AcceptedIsReceived(before);
      AcceptedMore(CacheEvents(before), events[|events| - 1]);
    }
  }

  lemma AcceptedMore(before: seq<C.CacheEvent>, e: Event)
    ensures C.Accepted(before + CacheEventsOf(e)) == C.Accepted(before) + (if e.ReceiveScn? then [e.scn] else [])
  {
    if CacheEventsOf(e) == [] {
      assert before + [] == before;
    } else {
      assert (before + CacheEventsOf(e))[..|before|] == before;
    }
    assert C.Accepted(before) + [] == C.Accepted(before);
  }

  /** An xname condemned by a batch was reported by SCNs received before. */
  lemma NoticeIsReported(events: seq<Event>, states: seq<State>, j: nat, xname: string, agent: string)
    requires IsRun(events, states) && j < |events| && events[j].HandleScn?
             && Condemns(states[j], events[j], xname, agent)
    ensures Reported(Received(events[..j]), xname)
  {
    CacheOfRun(events, states, j);
    AcceptedIsReceived(events[..j]);
    QueuedMarksAreReported(CacheEvents(events[..j]), xname);
  }

  lemma CauseOf(events: seq<Event>, states: seq<State>, n: nat, m: string) returns (j: nat)
    requires IsRun(events, states) && n < |events| && m in states[n].marks
    requires SoundInputs(events) && (forall i :: 0 <= i < |events| ==> PlainComponents(events[i]))
    ensures j < n && NoPruneBetween(events, j, n) && m in Added(states[j], events[j])
    ensures StoreInv(states[j].data) && JobsSound(states[j].jobs) && CachePlain(states[j].cache)
  {
    MarkHasCause(events, states, n, m);
    j :| 0 <= j < n && NoPruneBetween(events, j, n) && Marks(states[j], events[j], m);
    StoreInvAlways(events, states, j);
    JobsAlwaysSound(events, states, j);
    CacheAlwaysPlain(events, states, j);
  }

  /** A mark stays in force until the next prune step. */
  lemma {:induction false} MarkStays(events: seq<Event>, states: seq<State>, j: nat, n: nat, m: string)
    requires IsRun(events, states) && j < n <= |events|
    requires NoPruneBetween(events, j, n) && Marks(states[j], events[j], m) && !events[j].PruneTick?
    ensures m in states[n].marks
    decreases n - j
  {
    MarksStep(events, states, n - 1, m);
    if n > j + 1 {
      assert NoPruneBetween(events, j, n - 1);
      MarkStays(events, states, j, n - 1, m);
    }
  }

  /** The other direction: once an event has marked an xname or agent@xname, the next prune step that
      the store answers leaves no subscription of theirs behind. */
  lemma CondemnedAreRemoved(events: seq<Event>, states: seq<State>, j: nat, n: nat, o: Subscription, m: string)
    requires IsRun(events, states) && j < n < |events| && NoPruneBetween(events, j, n)
    requires Sound(o) && (m == o.xname || m == PruneMark(o.xname, o.agent))
    requires Marks(states[j], events[j], m) && !events[j].PruneTick?
    requires events[n].PruneTick? && events[n].io.rangeOk && events[n].io.deleteFails == {}
    ensures o.Key() !in states[n + 1].data
  {
    MarkStays(events, states, j, n, m);
    DataStep(events, states, n);
    MarkedIsPruned(states[n], events[n], o, m);
  }

  lemma MarkedIsPruned(s: State, e: Event, o: Subscription, m: string)
    requires Sound(o) && (m == o.xname || m == PruneMark(o.xname, o.agent)) && m in s.marks
    requires e.PruneTick? && e.io.rangeOk && e.io.deleteFails == {}
    ensures o.Key() !in DataAfter(s, e)
  {
    OwnerRead(o);
  }

  lemma DataStep(events: seq<Event>, states: seq<State>, i: nat)
    requires IsRun(events, states) && i < |events|
    ensures states[i + 1].data == DataAfter(states[i], events[i])
  {
    assert StepAt(events, states, i);
  }

  /** In particular no subscription survives a recent DELETE that deleted one of its owner, or one of
      its component without an agent: whatever is POSTed between the DELETE and the next prune step
      is gone after it. */
  lemma ResubscriptionIsPruned(events: seq<Event>, states: seq<State>, j: nat, n: nat, o: Subscription, k: string)
    requires IsRun(events, states) && j < n < |events| && NoPruneBetween(events, j, n) && Sound(o)
    requires TargetOf(events[j]).Some? && k in Gone(states[j], events[j])
    requires KeyLabel(k) == OwnerLabel(o.xname, o.agent) || KeyLabel(k) == o.xname
    requires events[n].PruneTick? && events[n].io.rangeOk && events[n].io.deleteFails == {}
    ensures o.Key() !in states[n + 1].data
  {
    MarkShapes(o.xname, o.agent);
    CondemnedAreRemoved(events, states, j, n, o, KeyLabel(k));
  }

  /** A record of the owner, or of its component without an agent, was deleted. */
  ghost predicate DeletedKin(gone: set<string>, xname: string, agent: string) {
    exists v :: Sound(v) && v.Key() in gone && v.xname == xname && (v.agent == "" || v.agent == agent)
  }

  lemma KinMarked(data: Db, gone: set<string>, o: Subscription)
    requires StoreInv(data) && gone <= data.Keys && Sound(o)
    ensures (o.xname in LabelsOf(gone) || PruneMark(o.xname, o.agent) in LabelsOf(gone)) <==>
            DeletedKin(gone, o.xname, o.agent)
  {
    MarkShapes(o.xname, o.agent);
    if m :| m in LabelsOf(gone) && (m == o.xname || m == PruneMark(o.xname, o.agent)) {
      KinOfMark(data, gone, o, m);
    }
    if v :| Sound(v) && v.Key() in gone && v.xname == o.xname && (v.agent == "" || v.agent == o.agent) {
      OwnerRead(v);
      assert KeyLabel(v.Key()) in LabelsOf(gone);
    }
  }

  lemma KinOfMark(data: Db, gone: set<string>, o: Subscription, m: string)
    requires StoreInv(data) && gone <= data.Keys && Sound(o)
    requires m in LabelsOf(gone) && (m == o.xname || m == PruneMark(o.xname, o.agent))
    ensures DeletedKin(gone, o.xname, o.agent)
  {
    var k :| k in gone && KeyLabel(k) == m;
    assert SoundKey(k);
    var v :| Sound(v) && v.Key() == k;
    OwnerRead(v);
    LabelOwner(v, o, m);
  }

  /** A label is the bare xname or agent@xname of its owner, and names no other. */
  lemma LabelOwner(v: Subscription, o: Subscription, m: string)
    requires Sound(v) && Sound(o) && m == OwnerLabel(v.xname, v.agent)
    requires m == o.xname || m == PruneMark(o.xname, o.agent)
    ensures v.xname == o.xname && (v.agent == "" || v.agent == o.agent)
  {
    MarkShapes(v.xname, v.agent);
    MarkShapes(o.xname, o.agent);
    if v.agent != "" && o.agent != "" && m == PruneMark(o.xname, o.agent) {
      LastAtSplits(v.agent, v.xname, o.agent, o.xname);
    }
  }

  lemma NoAtAfter(a: string, x: string)
    requires '@' !in x
    ensures forall p :: |a| < p < |a + "@" + x| ==> (a + "@" + x)[p] != '@'
  {
    forall p | |a| < p < |a + "@" + x| ensures (a + "@" + x)[p] != '@' {
      assert (a + "@" + x)[p] == x[p - |a| - 1];
    }
  }

  /** The last '@' of a label tells its agent from its xname, which has none. */
  lemma LastAtSplits(a: string, x: string, b: string, y: string)
    requires a + "@" + x == b + "@" + y && '@' !in x && '@' !in y
    ensures a == b && x == y
  {
    var l := a + "@" + x;
    assert l[|a|] == '@' && l[|b|] == '@';
    NoAtAfter(a, x);
    NoAtAfter(b, y);
    assert |a| == |b|;
    assert a == l[..|a|] && b == l[..|b|];
    assert x == l[|a| + 1..] && y == l[|b| + 1..];
  }

  lemma PruneAfterGone(data: Db, marks: set<string>, gone: set<string>, next: State, prune: Event, o: Subscription)
    requires StoreInv(data) && gone <= data.Keys && Sound(o) && o.Key() in data
    requires next.data == data - gone && next.marks == marks + LabelsOf(gone)
    requires prune.PruneTick? && prune.io.rangeOk && prune.io.deleteFails == {}
    ensures o.Key() !in Step(next, prune).data <==>
            o.Key() in gone || o.xname in marks || PruneMark(o.xname, o.agent) in marks
            || DeletedKin(gone, o.xname, o.agent)
  {
    KinMarked(data, gone, o);
    PruneLeaves(next, prune, o);
  }

  /** What a DELETE removes once the next prune step has run too, if the store answers: besides what it
      deletes itself, exactly what was already marked, every subscription of an owner it deleted one
      of, and every subscription of a component it deleted an agent-less one of. */
  lemma DeleteThenPruneExactly(s: State, e: Event, prune: Event, o: Subscription)
    requires StoreInv(s.data) && TargetOf(e).Some? && Sound(o) && o.Key() in s.data
    requires prune.PruneTick? && prune.io.rangeOk && prune.io.deleteFails == {}
    ensures o.Key() !in Step(Step(s, e), prune).data <==>
            o.Key() in Gone(s, e) || o.xname in s.marks || PruneMark(o.xname, o.agent) in s.marks
            || DeletedKin(Gone(s, e), o.xname, o.agent)
  {
    DeleteLeaves(s, e);
    PruneAfterGone(s.data, s.marks, Gone(s, e), Step(s, e), prune, o);
  }

  lemma DeleteLeaves(s: State, e: Event)
    requires TargetOf(e).Some?
    ensures Step(s, e).data == s.data - Gone(s, e) && Step(s, e).marks == s.marks + LabelsOf(Gone(s, e))
    ensures Gone(s, e) <= s.data.Keys
  {
  }

  lemma PruneLeaves(s: State, prune: Event, o: Subscription)
    requires prune.PruneTick? && prune.io.rangeOk && prune.io.deleteFails == {} && Sound(o)
    ensures o.Key() in Step(s, prune).data <==>
            o.Key() in s.data && o.xname !in s.marks && PruneMark(o.xname, o.agent) !in s.marks
  {
    OwnerRead(o);
  }

  /** And until then no job for the xname makes any attempt to send. */
  lemma CondemnedGetNothing(events: seq<Event>, states: seq<State>, j: nat, n: nat)
    requires IsRun(events, states) && j < n < |events| && NoPruneBetween(events, j, n) && !events[j].PruneTick?
    requires events[n].RunJob? && events[n].index < |states[n].jobs|
    requires states[n].jobs[events[n].index].subscriber in Added(states[j], events[j])
    ensures AttemptsOfSend(states[n].jobs[events[n].index], states[n].marks, events[n].outcome, events[n].retries) == 0
  {
    MarkStays(events, states, j, n, states[n].jobs[events[n].index].subscriber);
  }

  /** Handling an SCN queues a job for every stored subscription that asks for one of its attributes
      and is interested in one of its components, unless its owner is suppressed. */
  lemma SubscriberIsNotified(events: seq<Event>, states: seq<State>, n: nat, scn: Scn, o: Subscription, attr: string,
                             c: string)
    requires IsRun(events, states) && n < |events| && events[n].HandleScn? && events[n].io.rangeOk
    requires states[n].cache.queue != [] && states[n].cache.queue[0] == scn
    requires Sound(o) && o.Key() in states[n].data && o.xname !in Suppressed(scn, states[n].marks)
    requires Interested(states[n].data[o.Key()].scnNodes, c) && c in LowerAll(scn.components)
    requires attr != "" && '#' !in attr && '.' !in attr && attr in ScnAttrs(scn) && AsksFor(o.body, attr)
    ensures exists job :: job in states[n + 1].jobs && job.subscriber == o.xname
                          && job.url == states[n].data[o.Key()].url && c in job.scn.components
  {
    JobQueued(states[n], events[n].io, o, attr, c);
    JobsStep(events, states, n);
  }

  lemma JobsStep(events: seq<Event>, states: seq<State>, i: nat)
    requires IsRun(events, states) && i < |events|
    ensures states[i + 1].jobs == JobsAfter(states[i], events[i])
  {
    assert StepAt(events, states, i);
  }

  lemma JobQueued(s: State, io: KvIo, o: Subscription, attr: string, c: string)
    requires io.rangeOk && s.cache.queue != [] && Sound(o) && o.Key() in s.data
    requires o.xname !in Suppressed(s.cache.queue[0], s.marks)
    requires Interested(s.data[o.Key()].scnNodes, c) && c in LowerAll(s.cache.queue[0].components)
    requires attr != "" && '#' !in attr && '.' !in attr && attr in ScnAttrs(s.cache.queue[0]) && AsksFor(o.body, attr)
    ensures exists job :: job in JobsAfter(s, HandleScn(io)) && job.subscriber == o.xname
                          && job.url == s.data[o.Key()].url && c in job.scn.components
  {
    var suppressed := Suppressed(s.cache.queue[0], s.marks);
    NoMissedNotification(s.data, s.cache.queue[0], suppressed, o, attr, c);
    var ds := FanoutOf(ListingOf(s.data, RANGE_START, RANGE_END), s.cache.queue[0], suppressed);
    JobsAfterScn(s, io);
    JobAmong(ds, o.xname, s.data[o.Key()].url, c);
  }

  lemma JobsAfterScn(s: State, io: KvIo)
    requires io.rangeOk && s.cache.queue != []
    ensures JobsAfter(s, HandleScn(io))
            == s.jobs + Jobs(FanoutOf(ListingOf(s.data, RANGE_START, RANGE_END), s.cache.queue[0],
                                      Suppressed(s.cache.queue[0], s.marks)))
  {
  }

  lemma JobAmong(ds: seq<Delivery>, xname: string, url: string, c: string)
    requires exists i :: 0 <= i < |ds| && ds[i].job.subscriber == xname && ds[i].job.url == url
                         && c in ds[i].job.scn.components
    ensures exists job :: job in Jobs(ds) && job.subscriber == xname && job.url == url && c in job.scn.components
  {
    var i :| 0 <= i < |ds| && ds[i].job.subscriber == xname && ds[i].job.url == url && c in ds[i].job.scn.components;
    assert Jobs(ds)[i] in Jobs(ds);
  }

  // ---------- the coalescing cache inside a run ----------

  /** What a step means to the coalescing cache. */
  function CacheEventsOf(e: Event): seq<C.CacheEvent> {
    match e
    case ReceiveScn(scn, maxCache) => [C.Accept(scn, maxCache)]
    case CacheTick => [C.CacheTick]
    case HandleScn(_) => [C.Dequeue]
    case _ => []
  }

  function CacheEvents(events: seq<Event>): seq<C.CacheEvent> {
    if events == [] then []
    else CacheEvents(events[..|events| - 1]) + CacheEventsOf(events[|events| - 1])
  }

  lemma CacheRunStep(before: seq<C.CacheEvent>, s: State, e: Event)
    requires s.cache == C.Run(before).st
    ensures CacheAfter(s, e) == C.Run(before + CacheEventsOf(e)).st
  {
    if CacheEventsOf(e) == [] {
      assert before + [] == before;
    } else {
      assert (before + CacheEventsOf(e))[..|before|] == before;
    }
  }

  lemma CacheRunNext(events: seq<Event>, states: seq<State>, n: nat)
    requires IsRun(events, states) && n < |events| && states[n].cache == C.Run(CacheEvents(events[..n])).st
    ensures states[n + 1].cache == C.Run(CacheEvents(events[..n + 1])).st
  {
    CacheStep(events, states, n);
    CacheRunStep(CacheEvents(events[..n]), states[n], events[n]);
    assert events[..n + 1][..n] == events[..n] && events[..n + 1][n] == events[n];
  }

  /** In every run the cache and queue are those of the coalescing cache on its own events, so all
      that is proved about it holds for the service. */
  lemma {:induction false} CacheOfRun(events: seq<Event>, states: seq<State>, n: nat)
    requires IsRun(events, states) && n <= |events|
    ensures states[n].cache == C.Run(CacheEvents(events[..n])).st
  {
    if n == 0 {
      assert CacheEvents(events[..0]) == [] && C.Run([]).st == START.cache;
    } else {
      CacheOfRun(events, states, n - 1);
      CacheRunNext(events, states, n - 1);
    }
  }

  lemma CacheStep(events: seq<Event>, states: seq<State>, i: nat)
    requires IsRun(events, states) && i < |events|
    ensures states[i + 1].cache == CacheAfter(states[i], events[i])
  {
    assert StepAt(events, states, i);
  }

  lemma PrunedByMark(s: State, e: Event, o: Subscription) returns (m: string)
    requires Sound(o) && e.PruneTick? && o.Key() in Gone(s, e)
    ensures m in s.marks && (m == o.xname || m == PruneMark(o.xname, o.agent))
  {
    OwnerRead(o);
    m := if o.xname in s.marks then o.xname else PruneMark(o.xname, o.agent);
  }

  // ---------- from a received SCN to its subscribers ----------

  lemma {:induction false} CacheEventsPrefix(events: seq<Event>, i: nat, n: nat)
    requires i <= n <= |events|
    ensures CacheEvents(events[..i]) <= CacheEvents(events[..n])
    decreases n
  {
    if i < n {
      CacheEventsPrefix(events, i, n - 1);
      assert events[..n][..n - 1] == events[..n - 1];
    }
  }

  /** Where the cache's own history has the SCN that event i received. */
  lemma ReceivedAt(events: seq<Event>, i: nat, n: nat)
    requires i < n <= |events| && events[i].ReceiveScn?
    ensures var before, cev := CacheEvents(events[..i]), CacheEvents(events[..n]);
            |before| < |cev| && cev[..|before|] == before
            && cev[|before|] == C.Accept(events[i].scn, events[i].maxCache)
  {
    CacheEventsPrefix(events, i + 1, n);
    assert events[..i + 1][..i] == events[..i] && events[..i + 1][i] == events[i];
    var before := CacheEvents(events[..i]);
    assert CacheEvents(events[..i + 1]) == before + [C.Accept(events[i].scn, events[i].maxCache)];
  }

  /** Step n handles the batch that the SCN received by event i went into. */
  predicate HandlesBatchOf(events: seq<Event>, i: nat, n: nat) {
    i < n < |events| && events[i].ReceiveScn? && events[n].HandleScn?
    && |C.Run(CacheEvents(events[..n])).handled| == PlaceOf(C.Run(CacheEvents(events[..i])), events[i].scn)
  }

  /** The batch step n handles carries the SCN's State, Role, SoftwareStatus and components. */
  lemma HandledCarries(events: seq<Event>, states: seq<State>, i: nat, n: nat, c: string)
    requires IsRun(events, states) && HandlesBatchOf(events, i, n)
    requires states[n].cache.queue != [] && c in events[i].scn.components
    ensures C.SameHead(events[i].scn, states[n].cache.queue[0]) && c in states[n].cache.queue[0].components
  {
    CacheOfRun(events, states, n);
    ReceivedAt(events, i, n);
    var before, cev := CacheEvents(events[..i]), CacheEvents(events[..n]);
    CarriedAtPlace(cev, |before|, c);
    assert C.Run(cev).Emitted()[|C.Run(cev).handled|] == C.Run(cev).st.queue[0];
  }

  /** From end to end: the step that handles the batch a received SCN went into queues a job naming each
      of its components for every stored, unsuppressed subscription that asks for its State, Role or
      SoftwareStatus and is interested in the component. */
  lemma ReceivedIsDelivered(events: seq<Event>, states: seq<State>, i: nat, n: nat, o: Subscription, attr: string,
                            c: string)
    requires IsRun(events, states) && HandlesBatchOf(events, i, n) && events[n].io.rangeOk
    requires states[n].cache.queue != [] && c in events[i].scn.components
    requires Sound(o) && o.Key() in states[n].data && AsksFor(o.body, attr)
    requires o.xname !in Suppressed(states[n].cache.queue[0], states[n].marks)
    requires Interested(states[n].data[o.Key()].scnNodes, Lower(c))
    requires attr != "" && '#' !in attr && '.' !in attr
    requires var scn := events[i].scn;
             attr == Lower(scn.state) || attr == Lower(scn.role) || attr == Lower(scn.softwareStatus)
    ensures exists job :: job in states[n + 1].jobs && job.subscriber == o.xname
                          && job.url == states[n].data[o.Key()].url && Lower(c) in job.scn.components
  {
    var batch := states[n].cache.queue[0];
    HandledCarries(events, states, i, n, c);
    AttributesMatched(batch, attr);
    var k :| 0 <= k < |batch.components| && batch.components[k] == c;
    assert LowerAll(batch.components)[k] == Lower(c);
    SubscriberIsNotified(events, states, n, batch, o, attr, Lower(c));
  }
}
