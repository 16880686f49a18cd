/** The handlers in terms of what a client sends: which requests are carried out, what an accepted one
    stores, which record a PATCH replaces, what a GET answers, and what each step queues and marks. */
module HandlerLaws {
  import opened Text
  import opened Types
  import opened SubscriptionKey
  import opened Scanners
  import opened Store
  import opened Fanout
  import opened Subscriptions
  import opened SubscriptionLaws
  import opened Service
  import opened Interleaving

  // ---------- what a request says ----------

  /** The owner a POST or PATCH is for: v2 names it in the path, v1 in the body. */
  function OwnerNamed(e: Event): (string, string)
    requires Writes(e)
  {
    if e.PostV2? || e.PatchV2? then (e.xname, e.agent) else OwnerV1(e.body.subscriber)
  }

  lemma OwnerOfLowered(subscriber: string)
    ensures OwnerV1(Lower(subscriber)) == OwnerV1(subscriber)
  {
    var toks := Split(subscriber, '@');
    SplitLower(subscriber, '@');
    LowerIdempotent(subscriber);
    LowerIdempotent(toks[0]);
    if |toks| > 1 {
      LowerIdempotent(toks[1]);
    }
  }

  /** With at most one '@' in the body's Subscriber, v1's owner is what follows it and what precedes it;
      and what follows it is the text POST checks to be an xname. */
  lemma OwnerV1Exactly(subscriber: string)
    requires multiset(subscriber)['@'] <= 1
    ensures var (x, a) := OwnerV1(subscriber);
            PostXname(Lower(subscriber)) == x && '@' !in x && '@' !in a
            && Lower(subscriber) == (if '@' in subscriber then a + "@" + x else x)
            && ('@' !in subscriber ==> a == "")
  {
    var s := Lower(subscriber);
    var toks := Split(s, '@');
    SplitCounts(subscriber, '@');
    SplitLower(subscriber, '@');
    SplitCounts(s, '@');
    JoinSplit(s, '@');
    LowerKeepsPunctuation(subscriber, '@');
    OwnerOfLowered(subscriber);
    LowerIdempotent(subscriber);
    assert toks[0] in toks;
    if |toks| > 1 {
      assert toks[1] in toks;
      assert toks[1..] == [toks[1]];
      assert s == toks[0] + "@" + toks[1];
      FirstAt(toks[0], toks[1]);
    } else {
      NoAt(s);
    }
  }

  lemma FirstAt(a: string, x: string)
    requires '@' !in a
    ensures Index(a + "@" + x, "@") == |a| && (a + "@" + x)[|a| + 1..] == x && '@' in a + "@" + x
  {
    var s := a + "@" + x;
    assert s[|a|..|a| + 1] == "@";
    assert OccursAt(s, "@", |a|);
    forall i | OccursAt(s, "@", i) ensures i >= |a| {
      assert s[i..i + 1][0] == s[i];
    }
  }

  lemma NoAt(s: string)
    requires '@' !in s
    ensures Index(s, "@") == -1
  {
    if Index(s, "@") >= 0 {
      OccurrenceCovers(s, "@", Index(s, "@"), Index(s, "@"));
      assert false;
    }
  }

  /** Both PATCHes look from the component after the first '@' of the body's Subscriber on, but from the
      whole text if it starts with one. */
  lemma PatchStartExactly(a: string, x: string)
    requires '@' !in a
    ensures a != "" ==> PatchStart(a + "@" + x) == "sub#" + x
    ensures PatchStart("@" + x) == "sub#" + ("@" + x) && PatchStart(a) == "sub#" + a
  {
    FirstAt(a, x);
    NoAt(a);
    FirstAt("", x);
    assert "" + "@" + x == "@" + x;
  }

  /** The body has components, a Url and something to be notified of. */
  predicate Complete(b: ScnSubscribe) {
    b.components != [] && b.url != ""
    && (b.states != [] || b.softwareStatus != [] || b.roles != [] || b.subRoles != [] || b.enabled != None)
  }

  /** The request is carried out: v1 wants a Subscriber with at most one '@', v2 an xname in the path,
      POST a known xname, and all but the v2 PATCH a complete body. */
  predicate CarriedOut(e: Event)
    requires Writes(e)
  {
    (e.PostV1? || e.PatchV1? ==> e.body.subscriber != "" && multiset(e.body.subscriber)['@'] <= 1)
    && (e.PostV2? || e.PatchV2? ==> e.xname != "")
    && (e.PostV1? || e.PostV2? ==> e.known)
    && (!e.PatchV2? ==> Complete(e.body))
  }

  lemma CarriedOutExactly(e: Event)
    requires Writes(e)
    ensures Accepted(e) <==> CarriedOut(e)
  {
    SplitLower(e.body.subscriber, '@');
    SplitCounts(e.body.subscriber, '@');
  }

  /** What is stored for a request, and where. */
  lemma StoredFor(e: Event)
    requires Writes(e)
    ensures NewSub(e).Key() == KeyOf(e.body, OwnerNamed(e).0, OwnerNamed(e).1)
    ensures DataOf(LowerBody(e.body)) == SubData(Lower(e.body.url), LowerAll(e.body.components))
  {
    KeyOfLowered(e.body, OwnerNamed(e).0, OwnerNamed(e).1);
    OwnerOfLowered(e.body.subscriber);
  }

  // ---------- POST ----------

  /** A POST of either version stores exactly one new record, the lower-cased components and Url under
      the key of the body and the owner, exactly if it is to be carried out, the store answers and has
      no such key; otherwise it changes nothing. */
  lemma PostExactly(s: State, e: Event)
    requires e.PostV1? || e.PostV2?
    ensures var key := KeyOf(e.body, OwnerNamed(e).0, OwnerNamed(e).1);
            DataAfter(s, e) == if CarriedOut(e) && e.io.getOk && e.io.storeOk && key !in s.data
                               then s.data[key := SubData(Lower(e.body.url), LowerAll(e.body.components))]
                               else s.data
  {
    CarriedOutExactly(e);
    StoredFor(e);
    KeyOfV1Owner(LowerBody(e.body));
  }

  // ---------- PATCH ----------

  /** A stored sound subscription under this key, of this owner. */
  ghost predicate StoredOf(data: Db, key: string, xname: string, agent: string) {
    key in data && exists o :: Sound(o) && o.Key() == key && o.xname == xname && o.agent == agent
  }

  /** A stored sound subscription under this key whose owner is written like this and whose Url is this. */
  ghost predicate NamedByBody(data: Db, subscriber: string, url: string, key: string) {
    key in data && data[key].url == url
    && exists o :: Sound(o) && o.Key() == key && OwnerLabel(o.xname, o.agent) == subscriber
  }

  /** A stored sound subscription of the path's owner, under a key that begins like this and goes on
      below 'z'. */
  ghost predicate NamedByPath(data: Db, start: string, xname: string, agent: string, key: string) {
    StoredOf(data, key, xname, agent) && start <= key && (|key| == |start| || key[|start|] < 'z')
  }

  /** The record under `key` has made way for one under `exKey`, call by call: a failing delete of another
      key stops it, and a failing store leaves a deleted record deleted. */
  predicate MadeWay(data: Db, key: string, exKey: string, value: SubData, io: KvIo, after: Db) {
    var stops := key != exKey && key in io.deleteFails;
    (forall k :: k in data.Keys + after.Keys && k != key && k != exKey ==> SameAt(data, after, k))
    && (key != exKey && !stops ==> key !in after)
    && (stops ==> after == data)
    && (!stops && io.storeOk ==> exKey in after && after[exKey] == value)
    && (!stops && !io.storeOk ==> SameAt(data, after, exKey))
  }

  lemma ReplacedMakesWay(data: Db, key: string, exKey: string, value: SubData, io: KvIo)
    requires key in data
    ensures MadeWay(data, key, exKey, value, io, Replaced(data, key, exKey, value, io))
  {
  }

  lemma BodySought(data: Db, subscriber: string, url: string, key: string)
    requires SoundKeys(data) && Lower(subscriber) == subscriber && |Split(subscriber, '@')| <= 2
    ensures var start := PatchStart(subscriber);
            Sought(data, start, start + "z", ByBody(subscriber, url), key) <==>
            NamedByBody(data, subscriber, url, key)
  {
    var start := PatchStart(subscriber);
    if key in data {
      var o :| Sound(o) && o.Key() == key;
      OwnerRead(o);
      if OwnerLabel(o.xname, o.agent) == subscriber && data[key].url == url {
        V1FindsItsOwner(o, subscriber, url, data[key]);
        PatchRangeCovers(o.body, o.xname, o.agent);
      }
      forall p | Sound(p) && p.Key() == key ensures OwnerLabel(p.xname, p.agent) == OwnerLabel(o.xname, o.agent) {
        OneOwner(o, p);
      }
    }
  }

  lemma OwnerStored(data: Db, key: string, xname: string, agent: string)
    requires SoundKeys(data) && key in data
    ensures StoredOf(data, key, xname, agent) <==> XnameOf(key) == xname && AgentName(ScanAgentPatch(key)) == agent
  {
    assert SoundKey(key);
    var o :| Sound(o) && o.Key() == key;
    OwnerRead(o);
    forall p | Sound(p) && p.Key() == key ensures p.xname == o.xname && p.agent == o.agent {
      OneOwner(o, p);
    }
  }

  lemma PathSought(data: Db, start: string, xname: string, agent: string, key: string)
    requires SoundKeys(data)
    ensures Sought(data, start, start + "z", ByPath(xname, agent), key) <==>
            NamedByPath(data, start, xname, agent, key)
  {
    PatchRangeExactly(start, key);
    if key in data {
      OwnerStored(data, key, xname, agent);
    }
  }

  /** The first of these keys in key order. */
  ghost predicate Least(keys: iset<string>, key: string) {
    key in keys && forall k :: k in keys ==> k == key || Less(key, k)
  }

  /** What a PATCH leaves, given the keys it may replace: without one, the store as it was. */
  ghost predicate PatchLeaves(data: Db, named: iset<string>, exKey: string, value: SubData, io: KvIo, after: Db) {
    if !io.rangeOk || named == iset{} then after == data
    else exists key :: Least(named, key) && MadeWay(data, key, exKey, value, io, after)
  }

  lemma PatchedLeaves(data: Db, lo: string, hi: string, w: Who, named: iset<string>, exKey: string, value: SubData,
                      io: KvIo)
    requires forall k :: k in named <==> Sought(data, lo, hi, w, k)
    ensures PatchLeaves(data, named, exKey, value, io, Patched(data, lo, hi, w, exKey, value, io))
  {
    FirstMatchLeast(data, lo, hi, w);
    match FirstMatch(ListingOf(data, lo, hi), w)
    case None =>
    case Some(key) =>
      assert Least(named, key);
      ReplacedMakesWay(data, key, exKey, value, io);
  }

  /** PATCH v1, whatever fails: of the stored subscriptions of the owner the body names that have the
      body's Url, the first makes way for the body's; every other record stays as it was, those of the
      same owner with another Url included. */
  lemma PatchV1Exactly(s: State, e: Event)
    requires e.PatchV1? && SoundKeys(s.data)
    ensures var named := iset k | NamedByBody(s.data, Lower(e.body.subscriber), Lower(e.body.url), k);
            var key := KeyOf(e.body, OwnerNamed(e).0, OwnerNamed(e).1);
            if !CarriedOut(e) then DataAfter(s, e) == s.data
            else PatchLeaves(s.data, named, key, SubData(Lower(e.body.url), LowerAll(e.body.components)), e.io,
                             DataAfter(s, e))
  {
    CarriedOutExactly(e);
    StoredFor(e);
    KeyOfV1Owner(LowerBody(e.body));
    LowerIdempotent(e.body.subscriber);
    if CarriedOut(e) {
      var subscriber, url := Lower(e.body.subscriber), Lower(e.body.url);
      var start, w := PatchStart(subscriber), ByBody(subscriber, url);
      var named := iset k | NamedByBody(s.data, subscriber, url, k);
      forall k ensures k in named <==> Sought(s.data, start, start + "z", w, k) {
        BodySought(s.data, subscriber, url, k);
      }
      PatchedLeaves(s.data, start, start + "z", w, named, NewSub(e).Key(), DataOf(LowerBody(e.body)), e.io);
    }
  }

  /** PATCH v2, whatever fails: of the stored subscriptions of the path's owner that the range the body
      gives holds, the first makes way for the body's; every other record stays as it was. */
  lemma PatchV2Exactly(s: State, e: Event)
    requires e.PatchV2? && SoundKeys(s.data)
    ensures var named := iset k | NamedByPath(s.data, PatchStart(Lower(e.body.subscriber)), e.xname, e.agent, k);
            if e.xname == "" then DataAfter(s, e) == s.data
            else PatchLeaves(s.data, named, KeyOf(e.body, e.xname, e.agent),
                             SubData(Lower(e.body.url), LowerAll(e.body.components)), e.io, DataAfter(s, e))
  {
    StoredFor(e);
    var start, w := PatchStart(Lower(e.body.subscriber)), ByPath(e.xname, e.agent);
    var named := iset k | NamedByPath(s.data, start, e.xname, e.agent, k);
    forall k ensures k in named <==> Sought(s.data, start, start + "z", w, k) {
      PathSought(s.data, start, e.xname, e.agent, k);
    }
    PatchedLeaves(s.data, start, start + "z", w, named, NewSub(e).Key(), DataOf(LowerBody(e.body)), e.io);
  }

  // ---------- from a POST to its notifications and its listing ----------

  /** The subscription a POST or PATCH asks for, as the client wrote it. */
  function AskedFor(e: Event): Subscription
    requires Writes(e)
  {
    Owned(e.body, OwnerNamed(e).0, OwnerNamed(e).1)
  }

  /** The POST stores its record, and the record is still there in a later state. */
  ghost predicate PostedAndKept(s: State, e: Event, later: State) {
    (e.PostV1? || e.PostV2?) && AskedFor(e).Key() !in s.data && AskedFor(e).Key() in DataAfter(s, e)
    && SameAt(DataAfter(s, e), later.data, AskedFor(e).Key())
  }

  lemma KeptAsAsked(s: State, e: Event, later: State)
    requires PostedAndKept(s, e, later)
    ensures CarriedOut(e) && later.data[AskedFor(e).Key()] == SubData(Lower(e.body.url), LowerAll(e.body.components))
  {
    PostExactly(s, e);
  }

  /** From POST to notification: as long as the record of an accepted POST is there, handling an SCN that
      carries an attribute the body lists and a component the body's list selects queues a job naming the
      component to the body's Url, unless the owner is suppressed. */
  lemma PostedIsNotified(s: State, e: Event, later: State, io: KvIo, attr: string, c: string)
    requires PostedAndKept(s, e, later) && Sound(AskedFor(e)) && io.rangeOk && later.cache.queue != []
    requires attr != "" && '#' !in attr && '.' !in attr && AsksFor(e.body, attr)
    requires var scn := later.cache.queue[0];
             attr in ScnAttrs(scn) && Lower(c) in LowerAll(scn.components)
             && OwnerNamed(e).0 !in Suppressed(scn, later.marks)
    requires var first := Lower(e.body.components[0]);
             first == "all" || (if first == "allnodes" then NodeShaped(Lower(c)) else c in e.body.components)
    ensures exists job :: job in JobsAfter(later, HandleScn(io)) && job.subscriber == OwnerNamed(e).0
                          && job.url == Lower(e.body.url) && Lower(c) in job.scn.components
  {
    KeptAsAsked(s, e, later);
    if c in e.body.components {
      LowerListed(e.body.components, c);
    }
    JobQueued(later, io, AskedFor(e), attr, Lower(c));
  }

  lemma LowerListed(vals: seq<string>, v: string)
    requires v in vals
    ensures Lower(v) in LowerAll(vals)
  {
    var i :| 0 <= i < |vals| && vals[i] == v;
    assert LowerAll(vals)[i] == Lower(v);
  }

  /** From POST to GET: as long as the record of an accepted POST of plain values is there, a listing of
      its component has the subscription, every field of the body in its place and lower-cased. */
  lemma PostedIsListed(s: State, e: Event, later: State)
    requires PostedAndKept(s, e, later) && Sound(AskedFor(e)) && PlainFields(e.body) && '.' !in OwnerNamed(e).1
    ensures var (x, a) := OwnerNamed(e);
            ScnSubscribe(LowerAll(e.body.components), OwnerLabel(x, a), if a == "" then "" else x, a,
                         if e.body.enabled.Some? then Some(true) else None, LowerAll(e.body.roles),
                         LowerAll(e.body.subRoles), LowerAll(e.body.softwareStatus), LowerAll(e.body.states),
                         Lower(e.body.url))
            in ListedFor(ListingOf(later.data, RANGE_START, RANGE_END), x)
  {
    KeptAsAsked(s, e, later);
    StoredIsListed(later.data, AskedFor(e));
  }

  function RecordsFor(list: seq<Record>, xname: string): seq<Record> {
    if list == [] then []
    else
      var init, last := list[..|list| - 1], list[|list| - 1];
      RecordsFor(init, xname) + (if XnameOf(last.key) == xname then [last] else [])
  }

  lemma {:induction false} RecordsForHas(list: seq<Record>, xname: string)
    ensures forall r :: r in RecordsFor(list, xname) <==> r in list && XnameOf(r.key) == xname
  {
    if list != [] {
      var init, last := list[..|list| - 1], list[|list| - 1];
      RecordsForHas(init, xname);
      assert list == init + [last];
    }
  }

  lemma {:induction false} RecordsForSorted(list: seq<Record>, xname: string)
    requires Sorted(list)
    ensures Sorted(RecordsFor(list, xname))
  {
    if list != [] {
      var init, last := list[..|list| - 1], list[|list| - 1];
      RecordsForSorted(init, xname);
      RecordsForHas(init, xname);
      var recs := RecordsFor(init, xname);
      forall i | 0 <= i < |recs| ensures Less(recs[i].key, last.key) {
        assert recs[i] in recs;
        var j :| 0 <= j < |init| && init[j] == recs[i];
        assert list[j] == recs[i];
      }
    }
  }

  lemma {:induction false} ListedOneByOne(list: seq<Record>, xname: string)
    ensures |ListedFor(list, xname)| == |RecordsFor(list, xname)|
    ensures forall i :: 0 <= i < |ListedFor(list, xname)| ==>
              ListedFor(list, xname)[i] == ListedInfo(RecordsFor(list, xname)[i])
  {
    if list != [] {
      ListedOneByOne(list[..|list| - 1], xname);
    }
  }

  /** All records of one component, in key order. */
  ghost predicate RecordsOf(data: Db, xname: string, recs: seq<Record>) {
    Sorted(recs)
    && forall r :: r in recs <==> r.key in data && r.value == data[r.key] && Scanned(r.key) && XnameOf(r.key) == xname
  }

  /** A GET answers with one entry for each record of the component, in key order: what its key parses
      to, with its stored components and Url. */
  lemma ListedInKeyOrder(data: Db, xname: string)
    ensures var listed := ListedFor(ListingOf(data, RANGE_START, RANGE_END), xname);
            exists recs: seq<Record> :: RecordsOf(data, xname, recs) && |listed| == |recs|
                           && forall i :: 0 <= i < |recs| ==>
                                listed[i] == ParseKey(recs[i].key).(components := recs[i].value.scnNodes,
                                                                    url := recs[i].value.url)
  {
    var list := ListingOf(data, RANGE_START, RANGE_END);
    ListingHas(data, RANGE_START, RANGE_END, list);
    RecordsForHas(list, xname);
    RecordsForSorted(list, xname);
    ListedOneByOne(list, xname);
    assert RecordsOf(data, xname, RecordsFor(list, xname));
  }

  // ---------- what a step queues and marks ----------

  /** Running a job takes exactly that job out of the queue; no other step but the handling of an SCN
      touches it, and that only adds at its end. */
  lemma QueueExactly(s: State, e: Event)
    ensures var after := Step(s, e).jobs;
            if e.RunJob? && e.index < |s.jobs| then
              |after| == |s.jobs| - 1
              && (forall k :: 0 <= k < e.index ==> after[k] == s.jobs[k])
              && (forall k :: e.index <= k < |after| ==> after[k] == s.jobs[k + 1])
            else s.jobs <= after && (after != s.jobs ==> e.HandleScn? && e.io.rangeOk && s.cache.queue != [])
  {
  }

  /** The step marks this name: an SCN that reports its component unavailable, a job given up, a dead
      owner of a stored subscription, or a DELETE of a stored subscription under the owner's label. */
  ghost predicate MarksName(s: State, e: Event, m: string) {
    match e
    case HandleScn(_) =>
      s.cache.queue != [] && IsStateUnavailable(s.cache.queue[0]) && m in LowerAll(s.cache.queue[0].components)
    case RunJob(i, outcome, retries) =>
      i < |s.jobs| && m == s.jobs[i].subscriber && s.jobs[i].url != "" && m !in s.marks
      && var n := AttemptsOfSend(s.jobs[i], s.marks, outcome, retries); n == 0 || outcome(n) != Status(200)
    case DeadWood(bad, io) => io.rangeOk && m in bad && exists o :: Sound(o) && o.Key() in s.data && o.xname == m
    case PruneTick(_) => false
    case _ => exists o :: Sound(o) && o.Key() in Gone(s, e) && OwnerLabel(o.xname, o.agent) == m
  }

  lemma DeadWoodMarks(data: Db, bad: set<string>, m: string)
    requires StoreInv(data)
    ensures m in DeadOwners(data, bad) <==> m in bad && exists o :: Sound(o) && o.Key() in data && o.xname == m
  {
    if m in DeadOwners(data, bad) {
      var k :| k in data && Scanned(k) && XnameOf(k) in bad && XnameOf(k) == m;
      assert SoundKey(k);
      var o :| Sound(o) && o.Key() == k;
      OwnerRead(o);
    }
    if m in bad {
      forall o | Sound(o) && o.Key() in data && o.xname == m ensures m in DeadOwners(data, bad) {
        OwnerRead(o);
      }
    }
  }

  lemma DeletedMarkOwner(data: Db, gone: set<string>, m: string)
    requires StoreInv(data) && gone <= data.Keys
    ensures m in LabelsOf(gone) <==> exists o :: Sound(o) && o.Key() in gone && OwnerLabel(o.xname, o.agent) == m
  {
    if m in LabelsOf(gone) {
      var k :| k in gone && KeyLabel(k) == m;
      assert SoundKey(k);
      var o :| Sound(o) && o.Key() == k;
      OwnerRead(o);
    }
    forall o | Sound(o) && o.Key() in gone && OwnerLabel(o.xname, o.agent) == m ensures m in LabelsOf(gone) {
      OwnerRead(o);
    }
  }

  lemma JobMarks(s: State, e: Event, m: string)
    requires e.RunJob? && m !in s.marks
    ensures m in Added(s, e) <==> MarksName(s, e, m)
  {
    if e.index < |s.jobs| {
      SendMarksExactly(s.jobs[e.index], s.marks, e.outcome, e.retries);
    }
  }

  lemma NoticeMarks(s: State, e: Event, m: string)
    requires (e.HandleScn? || e.DeadWood?) && StoreInv(s.data)
    ensures m in Added(s, e) <==> MarksName(s, e, m)
  {
    if e.DeadWood? {
      DeadWoodMarks(s.data, e.bad, m);
    }
  }

  lemma RemovalMarks(s: State, e: Event, m: string)
    requires !e.HandleScn? && !e.RunJob? && !e.DeadWood? && !e.PruneTick? && StoreInv(s.data)
    ensures m in Added(s, e) <==> MarksName(s, e, m)
  {
    DeletedMarkOwner(s.data, Gone(s, e), m);
  }

  /** After a step exactly the old names and those it marks are marked; after a prune none is. */
  lemma MarksExactly(s: State, e: Event, m: string)
    requires StoreInv(s.data)
    ensures m in Step(s, e).marks <==> !e.PruneTick? && (m in s.marks || MarksName(s, e, m))
  {
    if e.RunJob? {
      if m !in s.marks {
        JobMarks(s, e, m);
      }
    } else if e.HandleScn? || e.DeadWood? {
      NoticeMarks(s, e, m);
    } else if !e.PruneTick? {
      RemovalMarks(s, e, m);
    }
  }

  /** An agent DELETE answers that it matched exactly if a subscription of that owner is stored. */
  lemma AgentDeleteMatched(data: Db, xname: string, agent: string)
    requires StoreInv(data)
    ensures AnyHit(data, OfAgent(xname, agent)) <==> exists k :: StoredOf(data, k, xname, agent)
  {
    forall k | k in data ensures Scanned(k) && (Hit(OfAgent(xname, agent), k, data[k]) <==>
                                                StoredOf(data, k, xname, agent))
    {
      assert SoundKey(k);
      var o :| Sound(o) && o.Key() == k;
      OwnerRead(o);
      OwnerStored(data, k, xname, agent);
    }
  }
}
