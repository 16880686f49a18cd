/** Fanning out coalesced batches tells every subscriber the same as fanning out each SCN on
    its own: when that holds, and exactly when merging one more SCN keeps it. */
module Batching {
  import opened Text
  import opened Types
  import opened Scanners
  import opened Store
  import opened Coalescer
  import opened Fanout

  /** One subscription being told about one component. */
  datatype Notice = Notice(key: string, component: string, head: Scn)

  /** Everything a sent SCN says besides its components. */
  function HeadSent(scn: Scn): Scn {
    SendData(scn, [])
  }

  ghost predicate NodesGiven(data: Db) {
    forall k :: k in data ==> data[k].scnNodes != []
  }

  /** Fanning out this SCN over the store, with these marks in force, queues a job that gives this
      notice. */
  ghost predicate Tells(data: Db, marks: set<string>, scn: Scn, n: Notice) {
    exists d :: d in FanoutOf(ListingOf(data, RANGE_START, RANGE_END), scn, Suppressed(scn, marks))
                && d.key == n.key && n.component in d.job.scn.components && n.head == HeadSent(d.job.scn)
  }

  /** What the SCN has to say, read off the store and the SCN. */
  predicate Announces(data: Db, scn: Scn, n: Notice) {
    n.key in data && Scanned(n.key) && Matches(n.key, ScnAttrs(scn)) && n.component in LowerAll(scn.components)
    && Interested(data[n.key].scnNodes, n.component) && n.head == HeadSent(scn)
  }

  /** It is told exactly what the SCN announces, unless its owner is suppressed. */
  lemma TellsExactly(data: Db, marks: set<string>, scn: Scn, n: Notice)
    requires NodesGiven(data)
    ensures Tells(data, marks, scn, n) <==> Announces(data, scn, n) && XnameOf(n.key) !in Suppressed(scn, marks)
    ensures XnameOf(n.key) in Suppressed(scn, marks) <==>
            IsStateUnavailable(scn) && (XnameOf(n.key) in marks || XnameOf(n.key) in LowerAll(scn.components))
  {
    var suppressed := Suppressed(scn, marks);
    FanoutIsFilterMap(data, scn, suppressed);
    if n.key in data {
      CommonNodesExact(data[n.key].scnNodes, LowerAll(scn.components), n.component);
      if Announces(data, scn, n) && XnameOf(n.key) !in suppressed {
        var d := DeliveryOf(Record(n.key, data[n.key]), scn);
        assert d in FanoutOf(ListingOf(data, RANGE_START, RANGE_END), scn, suppressed);
      }
    }
  }

  // ---------- whole runs ----------

  lemma {:induction false} InComps(scns: seq<Scn>, c: string)
    ensures c in LowerAll(Comps(scns)) <==> exists i :: 0 <= i < |scns| && c in LowerAll(scns[i].components)
  {
    if scns != [] {
      InComps(scns[1..], c);
      var rest := scns[1..];
      LowerAllAppend(scns[0].components, Comps(rest));
      if c in LowerAll(Comps(rest)) {
        var i :| 0 <= i < |rest| && c in LowerAll(rest[i].components);
        assert scns[i + 1] == rest[i];
      }
      if i :| 0 <= i < |scns| && c in LowerAll(scns[i].components) {
        assert i > 0 ==> rest[i - 1] == scns[i];
      }
    }
  }

  lemma LowerAllAppend(a: seq<string>, b: seq<string>)
    ensures LowerAll(a + b) == LowerAll(a) + LowerAll(b)
  {
  }

  /** All accepted SCNs say something about Enabled, or none does. */
  predicate EnabledUniform(scns: seq<Scn>) {
    (forall i :: 0 <= i < |scns| ==> scns[i].enabled.Some?) || (forall i :: 0 <= i < |scns| ==> scns[i].enabled.None?)
  }

  /** SCNs with components that agree on what the cache compares agree on SubRole. */
  predicate SubRoleDetermined(scns: seq<Scn>) {
    forall i, j :: 0 <= i < |scns| && 0 <= j < |scns| ==>
      (scns[i].components != [] && scns[j].components != [] && SameHead(scns[i], scns[j]) ==>
        scns[i].subRole == scns[j].subRole)
  }

  predicate AllAvailable(scns: seq<Scn>) {
    forall i :: 0 <= i < |scns| ==> !IsStateUnavailable(scns[i])
  }

  /** Under these hypotheses every member of a batch has the batch's header. */
  lemma MembersShareHead(batch: Scn, group: seq<Scn>, accepted: seq<Scn>, s: Scn)
    requires Merges(batch, group) && EnabledSeen(batch, accepted) && s in group && s.components != []
    requires forall m :: m in group ==> m in accepted
    requires AllAvailable(accepted) && EnabledUniform(accepted) && SubRoleDetermined(accepted)
    ensures HeadSent(s) == HeadSent(batch) && ScnAttrs(s) == ScnAttrs(batch) && !IsStateUnavailable(batch)
  {
    var o :| 0 <= o < |group| && Opens(group[o], batch);
    var opener := group[o];
    assert opener in group && opener in accepted && s in accepted;
    var i :| 0 <= i < |accepted| && accepted[i] == s;
    var j :| 0 <= j < |accepted| && accepted[j] == opener;
    var m :| 0 <= m < |group| && group[m] == s;
    assert SameHead(group[m], batch) && SameHead(accepted[i], accepted[j]);
    assert s.subRole == batch.subRole;
    if batch.enabled.Some? {
      var k :| 0 <= k < |accepted| && accepted[k].enabled == batch.enabled;
      assert !IsStateUnavailable(accepted[i]) && !IsStateUnavailable(accepted[k]);
      assert accepted[i].enabled != Some(false) && accepted[k].enabled != Some(false);
      assert accepted[i].enabled.Some? && accepted[i].enabled.value && accepted[k].enabled.value;
    } else {
      assert accepted[j].enabled.None? && accepted[i].enabled.None?;
    }
    assert s.enabled == batch.enabled;
    assert !IsStateUnavailable(accepted[i]);
  }

  ghost predicate Uniform(scns: seq<Scn>) {
    AllAvailable(scns) && EnabledUniform(scns) && SubRoleDetermined(scns)
  }

  ghost predicate AnyTells(data: Db, marks: set<string>, scns: seq<Scn>, n: Notice) {
    exists s :: s in scns && Tells(data, marks, s, n)
  }

  ghost predicate AnyAnnounces(data: Db, scns: seq<Scn>, n: Notice) {
    exists s :: s in scns && Announces(data, s, n)
  }

  /** Available SCNs tell all they announce, whatever is marked. */
  lemma AvailableTell(data: Db, marks: set<string>, scns: seq<Scn>, n: Notice)
    requires NodesGiven(data) && forall s :: s in scns ==> !IsStateUnavailable(s)
    ensures AnyTells(data, marks, scns, n) <==> AnyAnnounces(data, scns, n)
  {
    forall s | s in scns ensures Tells(data, marks, s, n) <==> Announces(data, s, n) {
      TellsExactly(data, marks, s, n);
    }
  }

  /** An SCN as its batch announces it: under the batch's SubRole and Enabled. */
  function Stamped(s: Scn, batch: Scn): Scn {
    s.(subRole := batch.subRole, enabled := batch.enabled)
  }

  ghost predicate StampedAnnounces(data: Db, group: seq<Scn>, batch: Scn, n: Notice) {
    exists i :: 0 <= i < |group| && Announces(data, Stamped(group[i], batch), n)
  }

  lemma BatchAnnouncesAsStamped(batch: Scn, group: seq<Scn>, data: Db, n: Notice)
    requires Merges(batch, group)
    ensures Announces(data, batch, n) <==> StampedAnnounces(data, group, batch, n)
  {
    InComps(group, n.component);
    if Announces(data, batch, n) {
      var m :| 0 <= m < |group| && n.component in LowerAll(group[m].components);
      assert Announces(data, Stamped(group[m], batch), n);
    }
    if m :| 0 <= m < |group| && Announces(data, Stamped(group[m], batch), n) {
      assert n.component in LowerAll(group[m].components);
    }
  }

  /** With no hypothesis on the SCNs, and whatever is marked: a batch tells exactly what the SCNs it
      merges announce under its SubRole and Enabled, except to owners its fanout suppresses. */
  lemma BatchTellsAsStamped(batch: Scn, group: seq<Scn>, data: Db, marks: set<string>, n: Notice)
    requires NodesGiven(data) && Merges(batch, group)
    ensures Tells(data, marks, batch, n) <==>
            StampedAnnounces(data, group, batch, n) && XnameOf(n.key) !in Suppressed(batch, marks)
  {
    TellsExactly(data, marks, batch, n);
    BatchAnnouncesAsStamped(batch, group, data, n);
  }

  /** What every run tells the subscribers: each accepted SCN is announced under the SubRole and
      Enabled of the batch it went into, to all but the owners suppressed when that is fanned out. */
  lemma BatchesTellAsStamped(events: seq<CacheEvent>, data: Db, marks: set<string>, n: Notice)
    requires NodesGiven(data)
    ensures var t := Run(events);
            Flatten(t.groups) + t.open == Accepted(events) && |t.groups| == |t.Emitted()|
            && forall i :: 0 <= i < |t.groups| ==>
                 (Tells(data, marks, t.Emitted()[i], n) <==>
                  StampedAnnounces(data, t.groups[i], t.Emitted()[i], n)
                  && XnameOf(n.key) !in Suppressed(t.Emitted()[i], marks))
  {
    RunInv(events);
    var t := Run(events);
    forall i | 0 <= i < |t.groups|
      ensures Tells(data, marks, t.Emitted()[i], n) <==>
              StampedAnnounces(data, t.groups[i], t.Emitted()[i], n)
              && XnameOf(n.key) !in Suppressed(t.Emitted()[i], marks)
    {
      BatchTellsAsStamped(t.Emitted()[i], t.groups[i], data, marks, n);
    }
  }

  /** Under the hypotheses the stamp changes nothing that is announced. */
  lemma BatchAnnounces(batch: Scn, group: seq<Scn>, accepted: seq<Scn>, data: Db, n: Notice)
    requires Merges(batch, group) && EnabledSeen(batch, accepted)
    requires (forall m :: m in group ==> m in accepted) && Uniform(accepted)
    ensures Announces(data, batch, n) <==> AnyAnnounces(data, group, n)
    ensures !IsStateUnavailable(batch)
  {
    var o :| 0 <= o < |group| && Opens(group[o], batch);
    MembersShareHead(batch, group, accepted, group[o]);
    BatchAnnouncesAsStamped(batch, group, data, n);
    forall i | 0 <= i < |group| ensures Announces(data, group[i], n) <==> Announces(data, Stamped(group[i], batch), n) {
      if group[i].components != [] {
        MembersShareHead(batch, group, accepted, group[i]);
      }
    }
    if s :| s in group && Announces(data, s, n) {
      var i :| 0 <= i < |group| && group[i] == s;
    }
  }

  lemma AnyAnnouncesConcat(data: Db, a: seq<Scn>, b: seq<Scn>, n: Notice)
    ensures AnyAnnounces(data, a + b, n) <==> AnyAnnounces(data, a, n) || AnyAnnounces(data, b, n)
  {
    if s :| s in a && Announces(data, s, n) {
      assert s in a + b;
    }
    if s :| s in b && Announces(data, s, n) {
      assert s in a + b;
    }
  }

  lemma AnyAnnouncesOne(data: Db, s: Scn, n: Notice)
    ensures AnyAnnounces(data, [s], n) <==> Announces(data, s, n)
  {
    if Announces(data, s, n) {
      assert s in [s];
    }
  }

  /** Every batch merges its group of accepted SCNs. */
  ghost predicate Batched(batches: seq<Scn>, groups: seq<seq<Scn>>, accepted: seq<Scn>) {
    |batches| == |groups|
    && (forall i :: 0 <= i < |groups| ==> Merges(batches[i], groups[i]) && EnabledSeen(batches[i], accepted))
    && (forall m :: m in Flatten(groups) ==> m in accepted)
  }

  lemma BatchedFirst(batches: seq<Scn>, groups: seq<seq<Scn>>, accepted: seq<Scn>)
    requires Batched(batches, groups, accepted) && groups != []
    ensures Merges(batches[0], groups[0]) && EnabledSeen(batches[0], accepted)
            && (forall m :: m in groups[0] ==> m in accepted)
    ensures Batched(batches[1..], groups[1..], accepted)
  {
    assert forall m :: m in groups[0] || m in Flatten(groups[1..]) ==> m in Flatten(groups);
  }

  lemma {:induction false} GroupsAnnounce(batches: seq<Scn>, groups: seq<seq<Scn>>, accepted: seq<Scn>, data: Db,
                                          n: Notice)
    requires Uniform(accepted) && Batched(batches, groups, accepted)
    ensures AnyAnnounces(data, batches, n) <==> AnyAnnounces(data, Flatten(groups), n)
    ensures AllAvailable(batches)
  {
    if groups != [] {
      BatchedFirst(batches, groups, accepted);
      BatchAnnounces(batches[0], groups[0], accepted, data, n);
      GroupsAnnounce(batches[1..], groups[1..], accepted, data, n);
      assert batches == [batches[0]] + batches[1..];
      AnyAnnouncesOne(data, batches[0], n);
      AnyAnnouncesConcat(data, [batches[0]], batches[1..], n);
      AnyAnnouncesConcat(data, groups[0], Flatten(groups[1..]), n);
    }
  }

  lemma SilentOpen(open: seq<Scn>, data: Db, n: Notice)
    requires Comps(open) == []
    ensures !AnyAnnounces(data, open, n)
  {
    NoComponents(open);
  }

  /** Batching preserves meaning: over any run of available SCNs that leaves the cache empty, the
      notices given for all emitted batches are those given for all accepted SCNs one by one, with
      whatever marks in force on either side. */
  lemma BatchingPreservesMeaning(events: seq<CacheEvent>, data: Db, marks: set<string>, marks': set<string>, n: Notice)
    requires NodesGiven(data) && Run(events).st.cache.components == []
    requires AllAvailable(Accepted(events)) && EnabledUniform(Accepted(events)) && SubRoleDetermined(Accepted(events))
    ensures AnyTells(data, marks, Run(events).Emitted(), n) <==> AnyTells(data, marks', Accepted(events), n)
    ensures AllAvailable(Run(events).Emitted())
  {
    RunInv(events);
    var t, acc := Run(events), Accepted(events);
    assert forall s :: s in acc <==> s in Flatten(t.groups) || s in t.open;
    GroupsAnnounce(t.Emitted(), t.groups, acc, data, n);
    SilentOpen(t.open, data, n);
    AnyAnnouncesConcat(data, Flatten(t.groups), t.open, n);
    AvailableTell(data, marks, t.Emitted(), n);
    AvailableTell(data, marks', acc, n);
  }

  /** A tick leaves the cache empty. */
  lemma TickFlushes(events: seq<CacheEvent>)
    requires events != [] && events[|events| - 1] == CacheTick
    ensures Run(events).st.cache.components == []
  {
  }

  // ---------- owners a store can have ----------

  /** What the fanout can read as an owner off a scanned key. */
  predicate OwnerName(x: string) {
    x != "" && 'a' <= x[0] <= 'y' && '#' !in x
  }

  lemma ScannedOwner(key: string)
    requires Scanned(key)
    ensures OwnerName(XnameOf(key))
  {
    assert RANGE_START == "sub#" + "a" && RANGE_END == "sub#" + "z";
    RangeSharesPrefix("sub#", "a", "z", key);
    var rest := key[4..];
    assert key == "sub#" + rest;
    LessAfterPrefix("sub#", rest, "a");
    LessAfterPrefix("sub#", rest, "z");
    FirstLetter(rest);
    assert key == "sub" + ['#'] + rest;
    SplitAtDelimiter("sub", '#', rest);
    PiecesAreFree(rest, '#');
    assert Split(rest, '#')[0] in Split(rest, '#');
    assert Split(rest, '#')[0] != "" && Split(rest, '#')[0][0] == rest[0];
  }

  lemma FirstLetter(rest: string)
    requires !Less(rest, "a") && Less(rest, "z")
    ensures rest != "" && 'a' <= rest[0] <= 'y'
  {
    assert "z"[1..] == "" && "a"[1..] == "";
  }

  /** A store in which one owner asks for an attribute and hears about every component. */
  function Hearer(x: string, attr: string): string {
    "sub#" + (x + ("#" + attr))
  }

  function HearerStore(x: string, attr: string): Db {
    map[Hearer(x, attr) := SubData("u", ["all"])]
  }

  lemma HearerScanned(x: string, attr: string)
    requires OwnerName(x)
    ensures Scanned(Hearer(x, attr))
  {
    var rest := x + ("#" + attr);
    assert rest[0] == x[0];
    LessAfterPrefix("sub#", rest, "a");
    LessAfterPrefix("sub#", rest, "z");
    assert RANGE_START == "sub#" + "a" && RANGE_END == "sub#" + "z";
    assert "a"[1..] == "" && "z"[1..] == "";
  }

  lemma HearerOwner(x: string, attr: string)
    requires '#' !in x
    ensures XnameOf(Hearer(x, attr)) == x
  {
    var rest := x + ['#'] + attr;
    assert Hearer(x, attr) == "sub" + ['#'] + rest;
    SplitAtDelimiter("sub", '#', rest);
    SplitAtDelimiter(x, '#', attr);
  }

  lemma HearerMatches(x: string, attr: string)
    ensures Contains(Hearer(x, attr), attr)
  {
    var front := "sub#" + (x + "#");
    assert Hearer(x, attr) == front + attr;
    assert attr[0..|attr|] == attr && OccursAt(attr, attr, 0);
    OccursBehind(front, attr, attr, 0);
  }

  lemma HearerKey(x: string, attr: string)
    requires OwnerName(x)
    ensures Scanned(Hearer(x, attr)) && XnameOf(Hearer(x, attr)) == x && Contains(Hearer(x, attr), attr)
  {
    HearerScanned(x, attr);
    HearerOwner(x, attr);
    HearerMatches(x, attr);
  }

  /** The owner is told, unless suppressed. */
  lemma HearerHears(x: string, attr: string, marks: set<string>, scn: Scn, c: string)
    requires OwnerName(x) && attr in ScnAttrs(scn) && c in LowerAll(scn.components)
    ensures var n := Notice(Hearer(x, attr), c, HeadSent(scn));
            NodesGiven(HearerStore(x, attr))
            && (Tells(HearerStore(x, attr), marks, scn, n) <==> x !in Suppressed(scn, marks))
  {
    var n := Notice(Hearer(x, attr), c, HeadSent(scn));
    HearerKey(x, attr);
    var i :| 0 <= i < |ScnAttrs(scn)| && ScnAttrs(scn)[i] == attr;
    assert Matches(n.key, ScnAttrs(scn));
    TellsExactly(HearerStore(x, attr), marks, scn, n);
  }

  /** A notice that is not the SCN's is not told. */
  lemma NotTold(data: Db, marks: set<string>, scn: Scn, n: Notice)
    requires NodesGiven(data)
    requires n.component !in LowerAll(scn.components) || ScnAttrs(scn) == [] || n.head != HeadSent(scn)
    ensures !Tells(data, marks, scn, n)
  {
    TellsExactly(data, marks, scn, n);
  }

  function TotalLength(names: seq<string>): nat {
    if names == [] then 0 else |names[0]| + TotalLength(names[1..])
  }

  lemma {:induction false} NoLongerThanTotal(names: seq<string>)
    ensures forall x :: x in names ==> |x| <= TotalLength(names)
  {
    if names != [] {
      NoLongerThanTotal(names[1..]);
      assert names == [names[0]] + names[1..];
    }
  }

  /** There is always an owner name that is none of these. */
  lemma FreshOwner(names: seq<string>) returns (x: string)
    ensures OwnerName(x) && x !in names
  {
    x := seq(TotalLength(names) + 1, _ => 'x');
    NoLongerThanTotal(names);
  }

  // ---------- one merge, exactly ----------

  /** For every store, whatever is marked, what the merged SCN tells is what the two tell when they are
      handled one after the other. */
  ghost predicate MergeFaithful(cache: Scn, scn: Scn) {
    forall data: Db, marks: set<string>, n: Notice :: NodesGiven(data) ==>
      (Tells(data, marks, Merged(cache, scn), n) <==>
       Tells(data, marks, cache, n) || Tells(data, marks + MarksOf(cache), scn, n))
  }

  predicate SameHeader(cache: Scn, scn: Scn) {
    scn.subRole == cache.subRole && scn.enabled == cache.enabled
  }

  /** Every component the SCN adds could be no subscription's owner. */
  predicate AddsNoOwner(cache: Scn, scn: Scn) {
    forall i :: 0 <= i < |scn.components| ==>
      var x := LowerAll(scn.components)[i]; x in LowerAll(cache.components) || !OwnerName(x)
  }

  predicate AddsNothing(cache: Scn, scn: Scn) {
    forall i :: 0 <= i < |scn.components| ==> LowerAll(scn.components)[i] in LowerAll(cache.components)
  }

  /** What the cache comparison would have to check as well. */
  predicate MergeSafe(cache: Scn, scn: Scn) {
    scn.components == []
    || (SameHeader(cache, scn)
        && (!IsStateUnavailable(cache) || cache.components == [] || AddsNoOwner(cache, scn)))
    || (ScnAttrs(scn) == [] && AddsNothing(cache, scn))
  }

  lemma MergedTells(cache: Scn, scn: Scn, data: Db, marks: set<string>, n: Notice)
    requires NodesGiven(data)
    ensures Tells(data, marks, Merged(cache, scn), n) <==>
            n.key in data && Scanned(n.key) && Matches(n.key, ScnAttrs(cache)) && n.head == HeadSent(cache)
            && (n.component in LowerAll(cache.components) || n.component in LowerAll(scn.components))
            && Interested(data[n.key].scnNodes, n.component)
            && (IsStateUnavailable(cache) ==>
                  var x := XnameOf(n.key);
                  x !in marks && x !in LowerAll(cache.components) && x !in LowerAll(scn.components))
  {
    TellsExactly(data, marks, Merged(cache, scn), n);
    LowerAllAppend(cache.components, scn.components);
  }

  lemma SafeMergeTells(cache: Scn, scn: Scn, data: Db, marks: set<string>, n: Notice)
    requires CacheEqual(scn, cache) && MergeSafe(cache, scn) && NodesGiven(data)
    ensures Tells(data, marks, Merged(cache, scn), n) <==>
            Tells(data, marks, cache, n) || Tells(data, marks + MarksOf(cache), scn, n)
  {
    MergedTells(cache, scn, data, marks, n);
    TellsExactly(data, marks, cache, n);
    TellsExactly(data, marks + MarksOf(cache), scn, n);
    if Scanned(n.key) {
      ScannedOwner(n.key);
    }
    if scn.components == [] {
    } else if SameHeader(cache, scn)
              && (!IsStateUnavailable(cache) || cache.components == [] || AddsNoOwner(cache, scn)) {
      SameHeaderTells(cache, scn, data, marks, n);
    } else {
      assert !Matches(n.key, ScnAttrs(scn));
      assert forall x :: x in LowerAll(scn.components) ==> x in LowerAll(cache.components);
    }
  }

  lemma SameHeaderTells(cache: Scn, scn: Scn, data: Db, marks: set<string>, n: Notice)
    requires CacheEqual(scn, cache) && SameHeader(cache, scn) && NodesGiven(data)
    requires !IsStateUnavailable(cache) || cache.components == [] || AddsNoOwner(cache, scn)
    requires Scanned(n.key) ==> OwnerName(XnameOf(n.key))
    ensures Tells(data, marks, Merged(cache, scn), n) <==>
            Tells(data, marks, cache, n) || Tells(data, marks + MarksOf(cache), scn, n)
  {
    MergedTells(cache, scn, data, marks, n);
    TellsExactly(data, marks, cache, n);
    TellsExactly(data, marks + MarksOf(cache), scn, n);
    assert HeadSent(scn) == HeadSent(cache) && ScnAttrs(scn) == ScnAttrs(cache);
    assert IsStateUnavailable(scn) == IsStateUnavailable(cache);
  }

  lemma UnavailableIsMatched(scn: Scn)
    requires IsStateUnavailable(scn)
    ensures ScnAttrs(scn) != []
  {
    UnavailableExactly(scn);
  }

  /** What one notice tells apart, the merge has not kept. */
  lemma UnfaithfulAt(cache: Scn, scn: Scn, data: Db, n: Notice)
    requires NodesGiven(data)
    requires Tells(data, {}, Merged(cache, scn), n)
             != (Tells(data, {}, cache, n) || Tells(data, {} + MarksOf(cache), scn, n))
    ensures !MergeFaithful(cache, scn)
  {
  }

  /** Merging unavailable SCNs with one header keeps the first one's notices from owners the second
      one adds. */
  lemma AddedOwnerMisses(cache: Scn, scn: Scn)
    requires CacheEqual(scn, cache) && SameHeader(cache, scn) && IsStateUnavailable(cache)
    requires cache.components != [] && !AddsNoOwner(cache, scn)
    ensures !MergeFaithful(cache, scn)
  {
    UnavailableIsMatched(cache);
    var i :| 0 <= i < |scn.components| && LowerAll(scn.components)[i] !in LowerAll(cache.components)
             && OwnerName(LowerAll(scn.components)[i]);
    var x, attr, c := LowerAll(scn.components)[i], ScnAttrs(cache)[0], LowerAll(cache.components)[0];
    var n := Notice(Hearer(x, attr), c, HeadSent(cache));
    HearerHears(x, attr, {}, cache, c);
    HearerKey(x, attr);
    assert x in LowerAll(scn.components);
    MergedTells(cache, scn, HearerStore(x, attr), {}, n);
    UnfaithfulAt(cache, scn, HearerStore(x, attr), n);
  }

  /** Merging SCNs with different headers loses what the second one is matched by. */
  lemma LostHeaderMisses(cache: Scn, scn: Scn)
    requires CacheEqual(scn, cache) && !SameHeader(cache, scn) && scn.components != [] && ScnAttrs(scn) != []
    ensures !MergeFaithful(cache, scn)
  {
    var x := FreshOwner(LowerAll(cache.components) + LowerAll(scn.components));
    var attr, c := ScnAttrs(scn)[0], LowerAll(scn.components)[0];
    var n := Notice(Hearer(x, attr), c, HeadSent(scn));
    HearerHears(x, attr, {} + MarksOf(cache), scn, c);
    NotTold(HearerStore(x, attr), {}, Merged(cache, scn), n);
    UnfaithfulAt(cache, scn, HearerStore(x, attr), n);
  }

  lemma MergedHears(cache: Scn, scn: Scn, x: string, attr: string, c: string)
    requires OwnerName(x) && x !in LowerAll(cache.components) && x !in LowerAll(scn.components)
    requires attr in ScnAttrs(cache) && c in LowerAll(scn.components)
    ensures Tells(HearerStore(x, attr), {}, Merged(cache, scn), Notice(Hearer(x, attr), c, HeadSent(cache)))
  {
    var merged := Merged(cache, scn);
    LowerAllAppend(cache.components, scn.components);
    assert ScnAttrs(merged) == ScnAttrs(cache) && HeadSent(merged) == HeadSent(cache);
    HearerHears(x, attr, {}, merged, c);
  }

  lemma OtherHeaderIsMatched(cache: Scn, scn: Scn)
    requires CacheEqual(scn, cache) && !SameHeader(cache, scn) && ScnAttrs(scn) == []
    ensures ScnAttrs(cache) != []
  {
  }

  lemma BorrowedAt(cache: Scn, scn: Scn, x: string, attr: string, c: string)
    requires OwnerName(x) && x !in LowerAll(cache.components) && x !in LowerAll(scn.components)
    requires attr in ScnAttrs(cache) && ScnAttrs(scn) == []
    requires c in LowerAll(scn.components) && c !in LowerAll(cache.components)
    ensures !MergeFaithful(cache, scn)
  {
    var n := Notice(Hearer(x, attr), c, HeadSent(cache));
    MergedHears(cache, scn, x, attr, c);
    NotTold(HearerStore(x, attr), {}, cache, n);
    NotTold(HearerStore(x, attr), {} + MarksOf(cache), scn, n);
    UnfaithfulAt(cache, scn, HearerStore(x, attr), n);
  }

  /** And what it is not matched by is told under the first one's header. */
  lemma BorrowedHeaderTells(cache: Scn, scn: Scn)
    requires CacheEqual(scn, cache) && !SameHeader(cache, scn) && ScnAttrs(scn) == [] && !AddsNothing(cache, scn)
    ensures !MergeFaithful(cache, scn)
  {
    var x := FreshOwner(LowerAll(cache.components) + LowerAll(scn.components));
    var i :| 0 <= i < |scn.components| && LowerAll(scn.components)[i] !in LowerAll(cache.components);
    OtherHeaderIsMatched(cache, scn);
    BorrowedAt(cache, scn, x, ScnAttrs(cache)[0], LowerAll(scn.components)[i]);
  }

  /** Merging an SCN the cache calls equal is faithful for every store and all marks exactly if it brings
      no components; or agrees on SubRole and Enabled too and, when unavailable and merged into
      components, adds none that could own a subscription; or has no attribute to be matched by and
      adds no component at all. */
  lemma MergeFaithfulExactly(cache: Scn, scn: Scn)
    requires CacheEqual(scn, cache)
    ensures MergeFaithful(cache, scn) <==> MergeSafe(cache, scn)
  {
    if MergeSafe(cache, scn) {
      forall data: Db, marks: set<string>, n: Notice | NodesGiven(data)
        ensures Tells(data, marks, Merged(cache, scn), n) <==>
                Tells(data, marks, cache, n) || Tells(data, marks + MarksOf(cache), scn, n)
      {
        SafeMergeTells(cache, scn, data, marks, n);
      }
    } else if SameHeader(cache, scn) {
      AddedOwnerMisses(cache, scn);
    } else if ScnAttrs(scn) != [] {
      LostHeaderMisses(cache, scn);
    } else {
      BorrowedHeaderTells(cache, scn);
    }
  }

  /** And it marks the same components as the two apart exactly if their verdicts agree, or the second
      one adds nothing the first one would not mark. */
  lemma MergeMarksExactly(cache: Scn, scn: Scn)
    ensures MarksOf(Merged(cache, scn)) == MarksOf(cache) + MarksOf(scn) <==>
            IsStateUnavailable(cache) == IsStateUnavailable(scn)
            || (if IsStateUnavailable(cache) then AddsNothing(cache, scn) else scn.components == [])
  {
    LowerAllAppend(cache.components, scn.components);
    var a, b, ab := LowerAll(cache.components), LowerAll(scn.components), LowerAll(Merged(cache, scn).components);
    assert forall x :: x in ab <==> x in a || x in b;
    if IsStateUnavailable(cache) && !IsStateUnavailable(scn) && !AddsNothing(cache, scn) {
      var i :| 0 <= i < |scn.components| && b[i] !in a;
      assert b[i] in AsSet(ab) && b[i] !in AsSet(a);
    }
    if !IsStateUnavailable(cache) && IsStateUnavailable(scn) && scn.components != [] {
      assert b[0] in AsSet(b);
    }
  }

  // ---------- one copy, exactly ----------

  /** For every store, whatever is marked, what the SCN tells from the cache is what it tells by itself. */
  ghost predicate CopyFaithful(cache: Scn, scn: Scn) {
    forall data: Db, marks: set<string>, n: Notice :: NodesGiven(data) ==>
      (Tells(data, marks, CopyInto(cache, scn), n) <==> Tells(data, marks, scn, n))
  }

  lemma SilentTells(data: Db, marks: set<string>, scn: Scn, n: Notice)
    requires NodesGiven(data) && scn.components == []
    ensures !Tells(data, marks, scn, n)
  {
    TellsExactly(data, marks, scn, n);
  }

  /** Copying an SCN into the cache is faithful for every store and all marks exactly if it has no
      components, or says something about Enabled, or finds no Enabled in the cache to inherit. */
  lemma CopyFaithfulExactly(cache: Scn, scn: Scn)
    ensures CopyFaithful(cache, scn) <==> scn.components == [] || scn.enabled.Some? || cache.enabled.None?
  {
    var copied := CopyInto(cache, scn);
    if scn.components == [] {
      forall data: Db, marks: set<string>, n: Notice | NodesGiven(data)
        ensures Tells(data, marks, copied, n) <==> Tells(data, marks, scn, n)
      {
        SilentTells(data, marks, copied, n);
        SilentTells(data, marks, scn, n);
      }
    } else if scn.enabled.None? && cache.enabled.Some? {
      var c := LowerAll(scn.components)[0];
      var x := FreshOwner(LowerAll(scn.components));
      var n := Notice(Hearer(x, "enbl"), c, HeadSent(copied));
      assert ScnAttrs(copied)[0] == "enbl";
      HearerHears(x, "enbl", {}, copied, c);
      TellsExactly(HearerStore(x, "enbl"), {}, scn, n);
    }
  }
}
