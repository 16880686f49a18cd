/** The service together with its loop towards the State Manager: start-up puts one subscription on
    the loop's channel and every accepted POST its body, a PATCH nothing. When every stored
    subscription's attributes are asked for. */
module HsmCoverage {
  import opened Text
  import opened Types
  import opened SubscriptionKey
  import opened Scanners
  import opened Store
  import opened Fanout
  import opened Subscriptions
  import opened SubscriptionLaws
  import opened Service
  import opened Interleaving
  import H = HsmTracker

  datatype Joint = Joint(svc: State, hsm: H.HsmState)

  datatype JointEvent = Serving(e: Event) | Posting(postOk: bool)

  /** The subscription every process makes before it listens. */
  function Mandatory(url: string): ScnSubscribe {
    EMPTY_SUBSCRIBE.(subscriber := "hmnfd", url := url, enabled := Some(true), roles := ["compute", "service"],
                     states := ["Empty", "Populated", "Off", "On", "Standby", "Halt", "Ready"])
  }

  /** The POST is answered with success. */
  predicate PostStores(s: State, e: Event) {
    (e.PostV1? || e.PostV2?) && Accepted(e) && e.io.getOk && NewSub(e).Key() !in s.data && e.io.storeOk
  }

  ghost function FoundKey(s: State, e: Event): Option<string>
    requires e.PatchV1? || e.PatchV2?
  {
    FirstMatch(PatchListing(s, e), WhoOf(e))
  }

  /** The PATCH finds a record and stores the new one. */
  ghost predicate PatchStores(s: State, e: Event) {
    (e.PatchV1? || e.PatchV2?) && Accepted(e) && e.io.rangeOk && FoundKey(s, e).Some? && e.io.storeOk
    && (NewSub(e).Key() == FoundKey(s, e).value || FoundKey(s, e).value !in e.io.deleteFails)
  }

  ghost function JointStep(j: Joint, je: JointEvent): Joint {
    match je
    case Posting(ok) => j.(hsm := H.Serve(j.hsm, ok))
    case Serving(e) =>
      Joint(Step(j.svc, e), if PostStores(j.svc, e) then H.Step(j.hsm, H.Enqueue(LowerBody(e.body))) else j.hsm)
  }

  /** A process started on a store that an earlier one may have left. */
  ghost function JointRun(data: Db, url: string, events: seq<JointEvent>): Joint {
    if events == [] then Joint(Service.START.(data := data), H.Step(H.START, H.Enqueue(Mandatory(url))))
    else JointStep(JointRun(data, url, events[..|events| - 1]), events[|events| - 1])
  }

  // ---------- what is asked for ----------

  /** Attributes the loop has asked for, counts as asked for, or has still to ask for. */
  function Asked(h: H.HsmState): set<H.Attribute> {
    h.tracked + H.UnionOf(h.pending)
  }

  lemma {:induction false} UnionFront(subs: seq<ScnSubscribe>)
    requires subs != []
    ensures H.UnionOf(subs) == H.Attributes(subs[0]) + H.UnionOf(subs[1..])
  {
    var n := |subs| - 1;
    if n > 0 {
      UnionFront(subs[..n]);
      assert subs[..n][1..] == subs[1..][..n - 1];
    }
  }

  /** No pass of the loop, with its post failing or not, changes what is asked for. */
  lemma AskedStays(h: H.HsmState, ok: bool)
    ensures Asked(H.Serve(h, ok)) == Asked(h)
  {
    if h.pending != [] {
      UnionFront(h.pending);
      H.UnionAppend(h.pending[1..], h.pending[0]);
    }
  }

  /** The attributes a subscription's key names; it names Enabled whatever its value. */
  function KeyAttributes(sub: ScnSubscribe): set<H.Attribute> {
    H.AllAttributes(H.LowerSet(sub.states), H.LowerSet(sub.softwareStatus), H.LowerSet(sub.roles),
                    H.LowerSet(sub.subRoles), sub.enabled.Some?)
  }

  lemma KeyAttributesOf(sub: ScnSubscribe)
    ensures H.Attributes(sub) <= KeyAttributes(sub) <= H.Attributes(sub) + {H.Enabled}
  {
  }

  predicate Plain(s: Subscription) {
    '#' !in s.xname && '#' !in s.agent && '.' !in s.agent && PlainFields(s.body)
  }

  lemma LowerSetOf(vals: seq<string>)
    ensures H.LowerSet(vals) == set v | v in LowerAll(vals)
  {
    forall v | v in LowerAll(vals) ensures v in H.LowerSet(vals) {
      var i :| 0 <= i < |vals| && LowerAll(vals)[i] == v;
    }
    forall v | v in H.LowerSet(vals) ensures v in LowerAll(vals) {
      var i :| 0 <= i < |vals| && Lower(vals[i]) == v;
      assert LowerAll(vals)[i] == v;
    }
  }

  lemma SameAttributes(s: ScnSubscribe, t: ScnSubscribe)
    requires H.LowerSet(s.states) == H.LowerSet(t.states)
             && H.LowerSet(s.softwareStatus) == H.LowerSet(t.softwareStatus)
    requires H.LowerSet(s.roles) == H.LowerSet(t.roles) && H.LowerSet(s.subRoles) == H.LowerSet(t.subRoles)
    requires s.enabled.Some? == t.enabled.Some?
    ensures KeyAttributes(s) == KeyAttributes(t)
  {
  }

  lemma SameLowerSet(v: seq<string>, w: seq<string>)
    requires LowerAll(v) == LowerAll(w)
    ensures H.LowerSet(v) == H.LowerSet(w)
  {
    LowerSetOf(v);
    LowerSetOf(w);
  }

  /** Plain subscriptions under one key have the same attributes. */
  lemma KeyTellsAttributes(s: Subscription, t: Subscription)
    requires Plain(s) && Plain(t) && s.Key() == t.Key()
    ensures KeyAttributes(s.body) == KeyAttributes(t.body)
  {
    KeyInjective(s.body, s.xname, s.agent, t.body, t.xname, t.agent);
    SameLowerSet(s.body.states, t.body.states);
    SameLowerSet(s.body.softwareStatus, t.body.softwareStatus);
    SameLowerSet(s.body.roles, t.body.roles);
    SameLowerSet(s.body.subRoles, t.body.subRoles);
    SameAttributes(s.body, t.body);
  }

  ghost predicate CoveredKey(key: string, asked: set<H.Attribute>) {
    forall s :: Plain(s) && s.Key() == key ==> KeyAttributes(s.body) <= asked
  }

  /** Every attribute a stored key names is asked for. */
  ghost predicate Covered(data: Db, asked: set<H.Attribute>) {
    forall k :: k in data ==> CoveredKey(k, asked)
  }

  lemma PlainKeyCovered(s: Subscription, asked: set<H.Attribute>)
    requires Plain(s)
    ensures CoveredKey(s.Key(), asked) <==> KeyAttributes(s.body) <= asked
  {
    forall t | Plain(t) && t.Key() == s.Key() ensures KeyAttributes(t.body) == KeyAttributes(s.body) {
      KeyTellsAttributes(s, t);
    }
  }

  lemma CoveredMore(data: Db, after: Db, asked: set<H.Attribute>, more: set<H.Attribute>)
    requires Covered(data, asked) && asked <= more && after.Keys <= data.Keys
    ensures Covered(after, more)
  {
  }

  lemma CoveredOneMore(data: Db, after: Db, key: string, asked: set<H.Attribute>, more: set<H.Attribute>)
    requires Covered(data, asked) && asked <= more && key in after && after.Keys <= data.Keys + {key}
    ensures Covered(after, more) <==> CoveredKey(key, more)
  {
    if CoveredKey(key, more) {
      forall k | k in after ensures CoveredKey(k, more) {
      }
    }
  }

  // ---------- steps ----------

  predicate PlainInput(e: Event) {
    Writes(e) && Accepted(e) ==> Plain(NewSub(e))
  }

  lemma PostKeys(s: State, e: Event)
    requires e.PostV1? || e.PostV2?
    ensures DataAfter(s, e) == if PostStores(s, e) then s.data[NewSub(e).Key() := DataOf(LowerBody(e.body))] else s.data
  {
    KeyOfV1Owner(LowerBody(e.body));
  }

  lemma PatchKeys(s: State, e: Event)
    requires e.PatchV1? || e.PatchV2?
    ensures PatchStores(s, e) ==> NewSub(e).Key() in DataAfter(s, e)
    ensures DataAfter(s, e).Keys <= if PatchStores(s, e) then s.data.Keys + {NewSub(e).Key()} else s.data.Keys
  {
    KeyOfV1Owner(LowerBody(e.body));
  }

  lemma OtherKeys(s: State, e: Event)
    requires !Writes(e)
    ensures DataAfter(s, e).Keys <= s.data.Keys
  {
  }

  lemma PostStaysCovered(j: Joint, e: Event)
    requires (e.PostV1? || e.PostV2?) && PlainInput(e) && Covered(j.svc.data, Asked(j.hsm))
    requires H.Enabled in Asked(j.hsm)
    ensures var after := JointStep(j, Serving(e)); Covered(after.svc.data, Asked(after.hsm))
  {
    var after := JointStep(j, Serving(e));
    PostKeys(j.svc, e);
    if PostStores(j.svc, e) {
      H.UnionAppend(j.hsm.pending, LowerBody(e.body));
      KeyAttributesOf(LowerBody(e.body));
      PlainKeyCovered(NewSub(e), Asked(after.hsm));
      CoveredOneMore(j.svc.data, after.svc.data, NewSub(e).Key(), Asked(j.hsm), Asked(after.hsm));
    }
  }

  /** A PATCH keeps every stored attribute asked for exactly if it stores nothing, or nothing that
      was not asked for already. */
  lemma PatchStaysCoveredExactly(j: Joint, e: Event)
    requires (e.PatchV1? || e.PatchV2?) && PlainInput(e) && Covered(j.svc.data, Asked(j.hsm))
    ensures var after := JointStep(j, Serving(e));
            Covered(after.svc.data, Asked(after.hsm)) <==>
            (PatchStores(j.svc, e) ==> KeyAttributes(NewSub(e).body) <= Asked(j.hsm))
  {
    var after := JointStep(j, Serving(e));
    PatchKeys(j.svc, e);
    if PatchStores(j.svc, e) {
      PlainKeyCovered(NewSub(e), Asked(j.hsm));
      CoveredOneMore(j.svc.data, after.svc.data, NewSub(e).Key(), Asked(j.hsm), Asked(j.hsm));
    } else {
      CoveredMore(j.svc.data, after.svc.data, Asked(j.hsm), Asked(j.hsm));
    }
  }

  /** Everything else keeps them asked for, a failing post included. */
  lemma OthersStayCovered(j: Joint, je: JointEvent)
    requires Covered(j.svc.data, Asked(j.hsm)) && (je.Serving? ==> !Writes(je.e))
    ensures var after := JointStep(j, je); Covered(after.svc.data, Asked(after.hsm))
  {
    var after := JointStep(j, je);
    match je
    case Posting(ok) =>
      AskedStays(j.hsm, ok);
      CoveredMore(j.svc.data, after.svc.data, Asked(j.hsm), Asked(after.hsm));
    case Serving(e) =>
      OtherKeys(j.svc, e);
      CoveredMore(j.svc.data, after.svc.data, Asked(j.hsm), Asked(after.hsm));
  }

  /** The event is no PATCH that stores an attribute not asked for. */
  ghost predicate BringsNothingNew(j: Joint, je: JointEvent, asked: set<H.Attribute>) {
    je.Serving? && PatchStores(j.svc, je.e) ==> KeyAttributes(NewSub(je.e).body) <= asked
  }

  lemma StepStaysCoveredExactly(j: Joint, je: JointEvent)
    requires Covered(j.svc.data, Asked(j.hsm)) && H.Enabled in Asked(j.hsm) && (je.Serving? ==> PlainInput(je.e))
    ensures var after := JointStep(j, je);
            Covered(after.svc.data, Asked(after.hsm)) <==> BringsNothingNew(j, je, Asked(j.hsm))
  {
    if je.Serving? && (je.e.PatchV1? || je.e.PatchV2?) {
      PatchStaysCoveredExactly(j, je.e);
    } else if je.Serving? && Writes(je.e) {
      PostStaysCovered(j, je.e);
    } else {
      OthersStayCovered(j, je);
    }
  }

  // ---------- runs ----------

  lemma LoweredAsksTheSame(b: ScnSubscribe)
    ensures H.Attributes(LowerBody(b)) == H.Attributes(b)
  {
    LowerAllIdempotent(b.states);
    LowerAllIdempotent(b.softwareStatus);
    LowerAllIdempotent(b.roles);
    LowerAllIdempotent(b.subRoles);
    SameLowerSet(LowerAll(b.states), b.states);
    SameLowerSet(LowerAll(b.softwareStatus), b.softwareStatus);
    SameLowerSet(LowerAll(b.roles), b.roles);
    SameLowerSet(LowerAll(b.subRoles), b.subRoles);
  }

  /** The bodies of the POSTs answered with success, in order. */
  ghost function PostedBodies(data: Db, url: string, events: seq<JointEvent>): seq<ScnSubscribe> {
    if events == [] then []
    else
      var before, je := events[..|events| - 1], events[|events| - 1];
      if je.Serving? && PostStores(JointRun(data, url, before).svc, je.e)
      then PostedBodies(data, url, before) + [je.e.body]
      else PostedBodies(data, url, before)
  }

  /** What clients can know to be asked for: the start-up list and what was POSTed since. */
  ghost function Told(data: Db, url: string, events: seq<JointEvent>): set<H.Attribute> {
    H.Attributes(Mandatory(url)) + H.UnionOf(PostedBodies(data, url, events))
  }

  lemma AskedAtStart(url: string)
    ensures Asked(H.Step(H.START, H.Enqueue(Mandatory(url)))) == H.Attributes(Mandatory(url))
    ensures H.Enabled in H.Attributes(Mandatory(url))
  {
    assert H.START.pending + [Mandatory(url)] == [Mandatory(url)];
    H.UnionAppend([], Mandatory(url));
    assert [] + [Mandatory(url)] == [Mandatory(url)];
  }

  /** What a joint step adds to what is asked for. */
  ghost function Adds(j: Joint, je: JointEvent): set<H.Attribute> {
    if je.Serving? && PostStores(j.svc, je.e) then H.Attributes(je.e.body) else {}
  }

  lemma AskedAfter(j: Joint, je: JointEvent)
    ensures Asked(JointStep(j, je).hsm) == Asked(j.hsm) + Adds(j, je)
  {
    if je.Posting? {
      AskedStays(j.hsm, je.postOk);
    } else if PostStores(j.svc, je.e) {
      H.UnionAppend(j.hsm.pending, LowerBody(je.e.body));
      LoweredAsksTheSame(je.e.body);
    }
  }

  lemma ToldAfter(data: Db, url: string, events: seq<JointEvent>)
    requires events != []
    ensures var before, je := events[..|events| - 1], events[|events| - 1];
            Told(data, url, events) == Told(data, url, before) + Adds(JointRun(data, url, before), je)
  {
    var before, je := events[..|events| - 1], events[|events| - 1];
    if je.Serving? && PostStores(JointRun(data, url, before).svc, je.e) {
      H.UnionAppend(PostedBodies(data, url, before), je.e.body);
    }
  }

  /** Whatever fails, what is tracked or waiting to be asked for is exactly the start-up list and
      what accepted POSTs asked for. */
  lemma {:induction false} AskedExactly(data: Db, url: string, events: seq<JointEvent>)
    ensures Asked(JointRun(data, url, events).hsm) == Told(data, url, events)
    ensures H.Enabled in Told(data, url, events)
  {
    AskedAtStart(url);
    if events != [] {
      var before, je := events[..|events| - 1], events[|events| - 1];
      AskedExactly(data, url, before);
      AskedAfter(JointRun(data, url, before), je);
      ToldAfter(data, url, events);
    }
  }

  lemma StatesAndRoles(sub: ScnSubscribe, a: H.Attribute)
    requires sub.softwareStatus == [] && sub.subRoles == [] && sub.enabled == Some(true)
    ensures a in H.Attributes(sub) <==>
            a == H.Enabled || (a.Role? && a.s in LowerAll(sub.roles)) || (a.HwState? && a.s in LowerAll(sub.states))
  {
    LowerSetOf(sub.roles);
    LowerSetOf(sub.states);
  }

  /** The start-up subscription in lower case. */
  lemma StartUpAsksFor(url: string, a: H.Attribute)
    ensures a in H.Attributes(Mandatory(url)) <==>
            a == H.Enabled || (a.Role? && a.s in ["compute", "service"])
            || (a.HwState? && a.s in ["empty", "populated", "off", "on", "standby", "halt", "ready"])
  {
    LowerNames();
    StatesAndRoles(Mandatory(url), a);
  }

  lemma LowerNames()
    ensures LowerAll(["Empty", "Populated", "Off", "On", "Standby", "Halt", "Ready"])
            == ["empty", "populated", "off", "on", "standby", "halt", "ready"]
    ensures LowerAll(["compute", "service"]) == ["compute", "service"]
  {
    assert Lower("Empty") == "empty" && Lower("Populated") == "populated" && Lower("Off") == "off";
    assert Lower("On") == "on" && Lower("Standby") == "standby" && Lower("Halt") == "halt";
    assert Lower("Ready") == "ready" && Lower("compute") == "compute" && Lower("service") == "service";
  }

  /** So in every process, whatever fails, what makes a component unavailable is asked for: its state
      by name, or Enabled. */
  lemma UnavailabilityIsAskedFor(data: Db, url: string, events: seq<JointEvent>, scn: Scn)
    requires IsStateUnavailable(scn)
    ensures var asked := Asked(JointRun(data, url, events).hsm);
            (scn.enabled == Some(false) && H.Enabled in asked)
            || H.HwState(Lower(scn.state)) in asked
  {
    AskedExactly(data, url, events);
    StartUpAsksFor(url, H.HwState(Lower(scn.state)));
  }

  ghost predicate CoveredAfter(data: Db, url: string, events: seq<JointEvent>) {
    var j := JointRun(data, url, events); Covered(j.svc.data, Asked(j.hsm))
  }

  ghost predicate AlwaysCovered(data: Db, url: string, events: seq<JointEvent>) {
    CoveredAfter(data, url, events) && (events != [] ==> AlwaysCovered(data, url, events[..|events| - 1]))
  }

  /** The keys found at start-up name only attributes of the start-up list, and every PATCH that
      stored named only attributes of that list or of POSTs accepted before it. */
  ghost predicate OnlyTold(data: Db, url: string, events: seq<JointEvent>) {
    if events == [] then Covered(data, H.Attributes(Mandatory(url)))
    else
      var before, je := events[..|events| - 1], events[|events| - 1];
      OnlyTold(data, url, before) && BringsNothingNew(JointRun(data, url, before), je, Told(data, url, before))
  }

  /** Throughout a process every attribute a stored key names is tracked or waiting to be asked for,
      exactly under that condition. */
  lemma {:induction false} AlwaysCoveredExactly(data: Db, url: string, events: seq<JointEvent>)
    requires forall i :: 0 <= i < |events| && events[i].Serving? ==> PlainInput(events[i].e)
    ensures AlwaysCovered(data, url, events) <==> OnlyTold(data, url, events)
  {
    if events == [] {
      AskedAtStart(url);
    } else {
      var before, je := events[..|events| - 1], events[|events| - 1];
      AlwaysCoveredExactly(data, url, before);
      AskedExactly(data, url, before);
      if AlwaysCovered(data, url, before) {
        assert CoveredAfter(data, url, before);
        StepStaysCoveredExactly(JointRun(data, url, before), je);
      }
    }
  }
}
