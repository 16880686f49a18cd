/** hmnfd's own subscriptions with the State Manager: the loop that posts a subscription only
    when it brings an attribute not asked for before, and what a failed post costs. */
module HsmTracker {
  import opened Text
  import opened Types

  /** One thing a subscription can ask the State Manager for. */
  datatype Attribute = HwState(s: string) | SwStatus(s: string) | Role(s: string) | SubRole(s: string) | Enabled

  function LowerSet(vals: seq<string>): set<string> {
    set i | 0 <= i < |vals| :: Lower(vals[i])
  }

  /** An attribute is among these category sets and the Enabled flag. */
  predicate Among(hw: set<string>, sw: set<string>, ro: set<string>, sr: set<string>, en: bool, a: Attribute) {
    match a
    case HwState(s) => s in hw
    case SwStatus(s) => s in sw
    case Role(s) => s in ro
    case SubRole(s) => s in sr
    case Enabled => en
  }

  function AllAttributes(hw: set<string>, sw: set<string>, ro: set<string>, sr: set<string>,
                         en: bool): (r: set<Attribute>)
    ensures forall a :: a in r <==> Among(hw, sw, ro, sr, en, a)
  {
    (set s | s in hw :: HwState(s)) + (set s | s in sw :: SwStatus(s)) + (set s | s in ro :: Role(s))
    + (set s | s in sr :: SubRole(s)) + (if en then {Enabled} else {})
  }

  function Attributes(sub: ScnSubscribe): set<Attribute> {
    AllAttributes(LowerSet(sub.states), LowerSet(sub.softwareStatus), LowerSet(sub.roles), LowerSet(sub.subRoles),
                  sub.enabled == Some(true))
  }

  /** The tracker keeps the four kinds of value apart, compares them lower-cased, and counts Enabled
      only when it is true. */
  lemma AttributesListed(sub: ScnSubscribe, s: string)
    ensures HwState(s) in Attributes(sub) <==> exists i :: 0 <= i < |sub.states| && Lower(sub.states[i]) == s
    ensures SwStatus(s) in Attributes(sub) <==>
            exists i :: 0 <= i < |sub.softwareStatus| && Lower(sub.softwareStatus[i]) == s
    ensures Role(s) in Attributes(sub) <==> exists i :: 0 <= i < |sub.roles| && Lower(sub.roles[i]) == s
    ensures SubRole(s) in Attributes(sub) <==> exists i :: 0 <= i < |sub.subRoles| && Lower(sub.subRoles[i]) == s
    ensures Enabled in Attributes(sub) <==> sub.enabled == Some(true)
  {
  }

  // ---------- the loop's state, as values ----------

  /** What the tracker holds, the channel, and the subscriptions posted with success. */
  datatype HsmState = HsmState(tracked: set<Attribute>, pending: seq<ScnSubscribe>, sent: seq<ScnSubscribe>)

  const START := HsmState({}, [], [])

  /** One pass of the loop. The tracker's maps are shared with the copy that a failed post
      discards, so everything but Enabled is tracked even then. */
  function Serve(st: HsmState, postOk: bool): HsmState {
    if st.pending == [] then st
    else
      var sub, rest := st.pending[0], st.pending[1..];
      if Attributes(sub) <= st.tracked then st.(pending := rest)
      else if postOk then HsmState(st.tracked + Attributes(sub), rest, st.sent + [sub])
      else HsmState(st.tracked + (Attributes(sub) - {Enabled}), rest + [sub], st.sent)
  }

  // ---------- the loop itself, over shared maps ----------

  /** A Go map from string to bool, reached by reference; it only ever stores true. */
  class StringMap {
    var keys: set<string>

    constructor ()
      ensures keys == {}
    {
      keys := {};
    }
  }

  /** The tracker struct: copying it copies the references and the flag. */
  datatype SubTracker = SubTracker(hwStates: StringMap, swStatus: StringMap, roles: StringMap, subroles: StringMap,
                                   enabled: bool) {
    ghost predicate Apart() {
      hwStates != swStatus && hwStates != roles && hwStates != subroles && swStatus != roles && swStatus != subroles
      && roles != subroles
    }

    function Tracked(): set<Attribute>
      reads hwStates, swStatus, roles, subroles
    {
      AllAttributes(hwStates.keys, swStatus.keys, roles.keys, subroles.keys, enabled)
    }
  }

  /** One loop of needHSMSubs: looks values up in the tracker's map, adds the missing ones to the copy's. */
  method AddMissing(vals: seq<string>, tracker: StringMap, ttmp: StringMap, need: bool) returns (needSub: bool)
    requires tracker == ttmp
    modifies ttmp
    ensures ttmp.keys == old(ttmp.keys) + LowerSet(vals)
    ensures needSub == (need || !(LowerSet(vals) <= old(tracker.keys)))
  {
    needSub := need;
    for i := 0 to |vals|
      invariant ttmp.keys == old(ttmp.keys) + LowerSet(vals[..i])
      invariant needSub == (need || !(LowerSet(vals[..i]) <= old(tracker.keys)))
    {
      var stl := Lower(vals[i]);
      assert LowerSet(vals[..i + 1]) == LowerSet(vals[..i]) + {stl} by {
        assert vals[..i + 1] == vals[..i] + [vals[i]];
        assert vals[..i + 1][i] == vals[i];
        assert forall j :: 0 <= j < i ==> vals[..i + 1][j] == vals[..i][j];
      }
      if stl !in tracker.keys {
        ttmp.keys := ttmp.keys + {stl};
        needSub := true;
      }
    }
    assert vals[..|vals|] == vals;
  }

  method NeedHsmSubs(sub: ScnSubscribe, tracker: SubTracker) returns (needSub: bool, ttmp: SubTracker)
    requires tracker.Apart()
    modifies tracker.hwStates, tracker.swStatus, tracker.roles, tracker.subroles
    ensures ttmp == tracker.(enabled := tracker.enabled || sub.enabled == Some(true))
    ensures needSub == !(Attributes(sub) <= old(tracker.Tracked()))
    ensures tracker.Tracked() == old(tracker.Tracked()) + (Attributes(sub) - {Enabled})
    ensures ttmp.Tracked() == old(tracker.Tracked()) + Attributes(sub)
  {
    ttmp := tracker;
    ghost var hw, sw, ro, sr := tracker.hwStates.keys, tracker.swStatus.keys, tracker.roles.keys, tracker.subroles.keys;
    needSub := AddMissing(sub.states, tracker.hwStates, ttmp.hwStates, false);
    needSub := AddMissing(sub.softwareStatus, tracker.swStatus, ttmp.swStatus, needSub);
    needSub := AddMissing(sub.roles, tracker.roles, ttmp.roles, needSub);
    needSub := AddMissing(sub.subRoles, tracker.subroles, ttmp.subroles, needSub);
    if !tracker.enabled && sub.enabled == Some(true) {
      ttmp := ttmp.(enabled := true);
      needSub := true;
    }
    AttributesCover(hw, sw, ro, sr, tracker.enabled, LowerSet(sub.states), LowerSet(sub.softwareStatus),
                    LowerSet(sub.roles), LowerSet(sub.subRoles), sub.enabled == Some(true));
    AttributesUnion(hw, sw, ro, sr, tracker.enabled, LowerSet(sub.states), LowerSet(sub.softwareStatus),
                    LowerSet(sub.roles), LowerSet(sub.subRoles), sub.enabled == Some(true));
    AttributesUnion(hw, sw, ro, sr, tracker.enabled, LowerSet(sub.states), LowerSet(sub.softwareStatus),
                    LowerSet(sub.roles), LowerSet(sub.subRoles), false);
    WithoutEnabled(LowerSet(sub.states), LowerSet(sub.softwareStatus), LowerSet(sub.roles), LowerSet(sub.subRoles),
                   sub.enabled == Some(true));
  }

  /** Coverage and union of attribute sets are coverage and union category by category. */
  lemma AttributesCover(hw: set<string>, sw: set<string>, ro: set<string>, sr: set<string>, en: bool,
                        hw': set<string>, sw': set<string>, ro': set<string>, sr': set<string>, en': bool)
    ensures AllAttributes(hw', sw', ro', sr', en') <= AllAttributes(hw, sw, ro, sr, en) <==>
              hw' <= hw && sw' <= sw && ro' <= ro && sr' <= sr && (en' ==> en)
  {
    var all, sub := AllAttributes(hw, sw, ro, sr, en), AllAttributes(hw', sw', ro', sr', en');
    if sub <= all {
      forall s | s in hw' ensures s in hw { assert HwState(s) in sub; }
      forall s | s in sw' ensures s in sw { assert SwStatus(s) in sub; }
      forall s | s in ro' ensures s in ro { assert Role(s) in sub; }
      forall s | s in sr' ensures s in sr { assert SubRole(s) in sub; }
      assert en' ==> Enabled in sub;
    }
  }

  lemma AttributesUnion(hw: set<string>, sw: set<string>, ro: set<string>, sr: set<string>, en: bool,
                        hw': set<string>, sw': set<string>, ro': set<string>, sr': set<string>, en': bool)
    ensures AllAttributes(hw + hw', sw + sw', ro + ro', sr + sr', en || en')
            == AllAttributes(hw, sw, ro, sr, en) + AllAttributes(hw', sw', ro', sr', en')
  {
    forall e
      ensures Among(hw + hw', sw + sw', ro + ro', sr + sr', en || en', e) <==>
              Among(hw, sw, ro, sr, en, e) || Among(hw', sw', ro', sr', en', e)
    {
    }
  }

  lemma WithoutEnabled(hw: set<string>, sw: set<string>, ro: set<string>, sr: set<string>, en: bool)
    ensures AllAttributes(hw, sw, ro, sr, en) - {Enabled} == AllAttributes(hw, sw, ro, sr, false)
  {
  }

  class HsmSubscriber {
    var tracker: SubTracker
    var pending: seq<ScnSubscribe>
    var sent: seq<ScnSubscribe>

    ghost predicate Valid()
      reads this
    {
      tracker.Apart()
    }

    function State(): HsmState
      reads this, tracker.hwStates, tracker.swStatus, tracker.roles, tracker.subroles
    {
      HsmState(tracker.Tracked(), pending, sent)
    }

    constructor ()
      ensures Valid() && State() == START
    {
      var hw := new StringMap();
      var sw := new StringMap();
      var ro := new StringMap();
      var sr := new StringMap();
      tracker := SubTracker(hw, sw, ro, sr, false);
      pending, sent := [], [];
      new;
      assert tracker.Tracked() == {};
    }

    /** One pass: take a subscription off the channel and post it if it is needed. */
    method ServeOne(postOk: bool)
      requires Valid() && pending != []
      modifies this, tracker.hwStates, tracker.swStatus, tracker.roles, tracker.subroles
      ensures Valid() && State() == Serve(old(State()), postOk)
    {
      var sub := pending[0];
      pending := pending[1..];
      var needSub, trackerTmp := NeedHsmSubs(sub, tracker);
      if !needSub {
        assert Attributes(sub) <= old(tracker.Tracked());
        assert tracker.Tracked() == old(tracker.Tracked());
        return;
      }
      if !postOk {
        pending := pending + [sub];
        return;
      }
      sent := sent + [sub];
      tracker := trackerTmp;
    }
  }

  // ---------- runs ----------

  datatype HsmEvent = Enqueue(sub: ScnSubscribe) | Pass(postOk: bool)

  function Step(st: HsmState, e: HsmEvent): HsmState {
    match e
    case Enqueue(sub) => st.(pending := st.pending + [sub])
    case Pass(postOk) => Serve(st, postOk)
  }

  function RunFrom(st: HsmState, events: seq<HsmEvent>): HsmState {
    if events == [] then st else Step(RunFrom(st, events[..|events| - 1]), events[|events| - 1])
  }

  /** The subscriptions taken off the channel, in order. */
  function Taken(st: HsmState, events: seq<HsmEvent>): seq<ScnSubscribe> {
    if events == [] then []
    else
      var before, e := events[..|events| - 1], events[|events| - 1];
      var at := RunFrom(st, before);
      Taken(st, before) + (if e.Pass? && at.pending != [] then [at.pending[0]] else [])
  }

  function UnionOf(subs: seq<ScnSubscribe>): set<Attribute> {
    if subs == [] then {} else UnionOf(subs[..|subs| - 1]) + Attributes(subs[|subs| - 1])
  }

  lemma UnionAppend(subs: seq<ScnSubscribe>, s: ScnSubscribe)
    ensures UnionOf(subs + [s]) == UnionOf(subs) + Attributes(s)
  {
    assert (subs + [s])[..|subs|] == subs;
  }

  lemma PostedStep(at: HsmState, taken: seq<ScnSubscribe>)
    requires at.pending != [] && at.tracked == UnionOf(taken) && at.tracked == UnionOf(at.sent)
    ensures Serve(at, true).tracked == UnionOf(taken + [at.pending[0]])
    ensures Serve(at, true).tracked == UnionOf(Serve(at, true).sent)
  {
    UnionAppend(taken, at.pending[0]);
    UnionAppend(at.sent, at.pending[0]);
  }

  /** Coverage: when every post succeeds, the tracker holds exactly the attributes of the
      subscriptions taken off the channel, and exactly those of the subscriptions posted. */
  lemma {:induction false} EveryAttributePosted(events: seq<HsmEvent>)
    requires forall i :: 0 <= i < |events| && events[i].Pass? ==> events[i].postOk
    ensures RunFrom(START, events).tracked == UnionOf(Taken(START, events))
    ensures RunFrom(START, events).tracked == UnionOf(RunFrom(START, events).sent)
  {
    if events != [] {
      var before, e := events[..|events| - 1], events[|events| - 1];
      var at := RunFrom(START, before);
      EveryAttributePosted(before);
      if e.Pass? && at.pending != [] {
        PostedStep(at, Taken(START, before));
      } else {
        assert Taken(START, before) + [] == Taken(START, before);
      }
    }
  }

  lemma BiggerSet(a: set<Attribute>, b: set<Attribute>)
    requires !(b <= a)
    ensures |a + b| >= |a| + 1
  {
    var x :| x in b && x !in a;
    SubsetSize(a + {x}, a + b);
  }

  lemma {:induction false} SubsetSize(a: set<Attribute>, b: set<Attribute>)
    requires a <= b
    ensures |a| <= |b|
    decreases a
  {
    if a != {} {
      var x :| x in a;
      SubsetSize(a - {x}, b - {x});
    }
  }

  ghost predicate PostsWithin(st: HsmState) {
    |st.sent| <= |st.tracked| && (Enabled in st.tracked <==> Enabled in UnionOf(st.sent))
      && UnionOf(st.sent) <= st.tracked
  }

  lemma PostsWithinStep(at: HsmState, e: HsmEvent)
    requires PostsWithin(at)
    ensures PostsWithin(Step(at, e))
  {
    if e.Pass? && at.pending != [] {
      var a := Attributes(at.pending[0]);
      UnionAppend(at.sent, at.pending[0]);
      if !(a <= at.tracked) {
        BiggerSet(at.tracked, a);
        SubsetSize(at.tracked, at.tracked + (a - {Enabled}));
      }
    }
  }

  /** Whatever fails, there are no more successful posts than distinct tracked attributes, and
      the Enabled flag is only set by a successful post that asked for it. */
  lemma {:induction false} PostsBounded(events: seq<HsmEvent>)
    ensures var st := RunFrom(START, events);
            |st.sent| <= |st.tracked| && (Enabled in st.tracked <==> Enabled in UnionOf(st.sent))
            && UnionOf(st.sent) <= st.tracked
  {
    if events != [] {
      PostsBounded(events[..|events| - 1]);
      PostsWithinStep(RunFrom(START, events[..|events| - 1]), events[|events| - 1]);
    }
  }

  lemma {:induction false} TrackedGrows(st: HsmState, events: seq<HsmEvent>)
    ensures st.tracked <= RunFrom(st, events).tracked
  {
    if events != [] {
      TrackedGrows(st, events[..|events| - 1]);
    }
  }

  /** After a failed post, whenever the retried subscription comes off the channel again it is
      posted exactly if it asks for Enabled and no successful post has asked for it meanwhile. */
  lemma RetryPostsExactly(st: HsmState, events: seq<HsmEvent>)
    requires st.pending != [] && !(Attributes(st.pending[0]) <= st.tracked)
    ensures var sub := st.pending[0];
            var later := RunFrom(Serve(st, false), events);
            later.pending != [] && later.pending[0] == sub ==>
              (Serve(later, true).sent == later.sent + [sub] <==>
               sub.enabled == Some(true) && Enabled !in later.tracked)
  {
    var sub := st.pending[0];
    TrackedGrows(Serve(st, false), events);
    var later := RunFrom(Serve(st, false), events);
    assert Attributes(sub) - {Enabled} <= later.tracked;
    assert Enabled in Attributes(sub) <==> sub.enabled == Some(true);
    assert Attributes(sub) <= later.tracked <==> (Enabled in Attributes(sub) ==> Enabled in later.tracked);
  }

  /** The pass posts the subscription it takes off the channel. */
  predicate Posts(at: HsmState, e: HsmEvent) {
    e == Pass(true) && at.pending != [] && !(Attributes(at.pending[0]) <= at.tracked)
  }

  /** A pass that posts a subscription asking for Enabled. */
  predicate Enables(at: HsmState, e: HsmEvent) {
    Posts(at, e) && at.pending[0].enabled == Some(true)
  }

  /** There is one at some point of the run. */
  predicate EverEnabled(st: HsmState, events: seq<HsmEvent>) {
    events != []
    && (EverEnabled(st, events[..|events| - 1])
        || Enables(RunFrom(st, events[..|events| - 1]), events[|events| - 1]))
  }

  lemma EnablesStep(at: HsmState, e: HsmEvent)
    ensures Enabled in Step(at, e).tracked <==> Enabled in at.tracked || Enables(at, e)
  {
    assert at.pending != [] ==> (Enabled in Attributes(at.pending[0]) <==> at.pending[0].enabled == Some(true));
  }

  /** Only a successful post of a subscription that asks for it brings Enabled. */
  lemma {:induction false} EnabledByPostOnly(st: HsmState, events: seq<HsmEvent>)
    ensures Enabled in RunFrom(st, events).tracked <==> Enabled in st.tracked || EverEnabled(st, events)
  {
    if events != [] {
      EnabledByPostOnly(st, events[..|events| - 1]);
      EnablesStep(RunFrom(st, events[..|events| - 1]), events[|events| - 1]);
    }
  }

  /** The subscription comes off the channel on a pass whose post would succeed, it asks for Enabled,
      and no post has brought Enabled before. */
  predicate ComesFirst(at: HsmState, e: HsmEvent, sub: ScnSubscribe) {
    e == Pass(true) && at.pending != [] && at.pending[0] == sub && sub.enabled == Some(true) && Enabled !in at.tracked
  }

  /** It does so at some point of the run. */
  predicate EverComesFirst(st: HsmState, events: seq<HsmEvent>, sub: ScnSubscribe) {
    events != []
    && (EverComesFirst(st, events[..|events| - 1], sub)
        || ComesFirst(RunFrom(st, events[..|events| - 1]), events[|events| - 1], sub))
  }

  /** How often a subscription has been posted. */
  function PostsOf(st: HsmState, sub: ScnSubscribe): nat {
    multiset(st.sent)[sub]
  }

  lemma PassCounts(at: HsmState, e: HsmEvent, sub: ScnSubscribe)
    requires Attributes(sub) - {Enabled} <= at.tracked
    ensures PostsOf(Step(at, e), sub) == PostsOf(at, sub) + if ComesFirst(at, e, sub) then 1 else 0
    ensures ComesFirst(at, e, sub) ==> Enabled in Step(at, e).tracked
    ensures at.tracked <= Step(at, e).tracked
  {
    assert Attributes(sub) <= at.tracked <==> (Enabled in Attributes(sub) ==> Enabled in at.tracked);
    assert Enabled in Attributes(sub) <==> sub.enabled == Some(true);
  }

  /** Once all that a subscription asks for but Enabled is tracked, whatever happens: it is posted at
      most once, and exactly if it comes off the channel before another post brings Enabled. */
  lemma {:induction false} PostedLaterExactly(st: HsmState, sub: ScnSubscribe, events: seq<HsmEvent>)
    requires Attributes(sub) - {Enabled} <= st.tracked
    ensures PostsOf(RunFrom(st, events), sub) == PostsOf(st, sub) + if EverComesFirst(st, events, sub) then 1 else 0
    ensures EverComesFirst(st, events, sub) ==> Enabled in RunFrom(st, events).tracked && sub.enabled == Some(true)
    ensures Attributes(sub) - {Enabled} <= RunFrom(st, events).tracked
  {
    if events != [] {
      PostedLaterExactly(st, sub, events[..|events| - 1]);
      PassCounts(RunFrom(st, events[..|events| - 1]), events[|events| - 1], sub);
    }
  }

  /** So a subscription whose post has failed is never posted if it does not ask for Enabled, although
      its attributes count as asked for; otherwise it is posted exactly if it comes off the channel
      again before another post brings Enabled. */
  lemma FailedPostRecoversExactly(st: HsmState, events: seq<HsmEvent>)
    requires st.pending != [] && !(Attributes(st.pending[0]) <= st.tracked)
    ensures var sub, failed := st.pending[0], Serve(st, false);
            Attributes(sub) - {Enabled} <= failed.tracked
            && PostsOf(RunFrom(failed, events), sub)
            == PostsOf(st, sub) + (if EverComesFirst(failed, events, sub) then 1 else 0)
            && (sub.enabled != Some(true) ==> !EverComesFirst(failed, events, sub))
  {
    PostedLaterExactly(Serve(st, false), st.pending[0], events);
  }

  // ---------- the order of the channel ----------

  predicate Fails(at: HsmState, e: HsmEvent) {
    e == Pass(false) && at.pending != [] && !(Attributes(at.pending[0]) <= at.tracked)
  }

  /** What an event puts on the channel: a new subscription, or again the one whose post failed. */
  function PutBy(at: HsmState, e: HsmEvent): seq<ScnSubscribe> {
    if e.Enqueue? then [e.sub] else if Fails(at, e) then [at.pending[0]] else []
  }

  function PutOn(st: HsmState, events: seq<HsmEvent>): seq<ScnSubscribe> {
    if events == [] then []
    else
      var before := events[..|events| - 1];
      PutOn(st, before) + PutBy(RunFrom(st, before), events[|events| - 1])
  }

  function Passes(events: seq<HsmEvent>): nat {
    if events == [] then 0
    else Passes(events[..|events| - 1]) + if events[|events| - 1].Pass? then 1 else 0
  }

  lemma PassTakesFront(at: HsmState, e: HsmEvent)
    ensures (if e.Pass? && at.pending != [] then [at.pending[0]] else []) + Step(at, e).pending
            == at.pending + PutBy(at, e)
  {
  }

  lemma MoveFront(a: seq<ScnSubscribe>, front: seq<ScnSubscribe>, b: seq<ScnSubscribe>, put: seq<ScnSubscribe>,
                  pending: seq<ScnSubscribe>, more: seq<ScnSubscribe>, st: seq<ScnSubscribe>)
    requires a + pending == st + put && front + b == pending + more
    ensures a + front + b == st + (put + more)
  {
    assert a + front + b == a + (front + b);
    assert st + (put + more) == st + put + more;
  }

  /** The channel is first in, first out, whatever fails: the subscriptions taken off it and then those
      still on it are those that were on it and then those put on it, in the order they were put on. */
  lemma {:induction false} ChannelIsFifo(st: HsmState, events: seq<HsmEvent>)
    ensures Taken(st, events) + RunFrom(st, events).pending == st.pending + PutOn(st, events)
  {
    if events != [] {
      var before, e := events[..|events| - 1], events[|events| - 1];
      var at := RunFrom(st, before);
      ChannelIsFifo(st, before);
      PassTakesFront(at, e);
      var front := if e.Pass? && at.pending != [] then [at.pending[0]] else [];
      MoveFront(Taken(st, before), front, Step(at, e).pending, PutOn(st, before), at.pending, PutBy(at, e), st.pending);
    }
  }

  lemma {:induction false} PassesTake(st: HsmState, events: seq<HsmEvent>)
    requires Passes(events) <= |st.pending|
    ensures |Taken(st, events)| == Passes(events)
  {
    if events != [] {
      var before, e := events[..|events| - 1], events[|events| - 1];
      PassesTake(st, before);
      ChannelIsFifo(st, before);
    }
  }

  /** So no failing post holds up a subscription behind it: each pass takes the next of those waiting,
      whatever the passes before it did and whatever was put on the channel meanwhile. */
  lemma ServedInOrder(st: HsmState, events: seq<HsmEvent>)
    requires Passes(events) <= |st.pending|
    ensures Taken(st, events) == st.pending[..Passes(events)]
    ensures st.pending[Passes(events)..] <= RunFrom(st, events).pending
    ensures Passes(events) < |st.pending| ==> RunFrom(st, events).pending[0] == st.pending[Passes(events)]
  {
    ChannelIsFifo(st, events);
    PassesTake(st, events);
    var n, all := Passes(events), Taken(st, events) + RunFrom(st, events).pending;
    assert all[..n] == Taken(st, events) && all[n..] == RunFrom(st, events).pending;
    assert (st.pending + PutOn(st, events))[..n] == st.pending[..n];
    assert (st.pending + PutOn(st, events))[n..] == st.pending[n..] + PutOn(st, events);
  }

  // ---------- what is tracked ----------

  /** The subscriptions whose posts failed, in order. */
  function Failed(st: HsmState, events: seq<HsmEvent>): seq<ScnSubscribe> {
    if events == [] then []
    else
      var before, e := events[..|events| - 1], events[|events| - 1];
      var at := RunFrom(st, before);
      if Fails(at, e) then Failed(st, before) + [at.pending[0]] else Failed(st, before)
  }

  lemma TrackedStep(at: HsmState, e: HsmEvent, failed: seq<ScnSubscribe>)
    requires at.tracked == UnionOf(at.sent) + (UnionOf(failed) - {Enabled})
    ensures var failed' := if Fails(at, e) then failed + [at.pending[0]] else failed;
            Step(at, e).tracked == UnionOf(Step(at, e).sent) + (UnionOf(failed') - {Enabled})
  {
    if at.pending != [] {
      UnionAppend(at.sent, at.pending[0]);
      UnionAppend(failed, at.pending[0]);
    }
  }

  /** Whatever fails, the tracker holds exactly what was posted, and what failed posts asked for
      apart from Enabled. */
  lemma {:induction false} TrackedExactly(events: seq<HsmEvent>)
    ensures RunFrom(START, events).tracked
            == UnionOf(RunFrom(START, events).sent) + (UnionOf(Failed(START, events)) - {Enabled})
  {
    if events != [] {
      TrackedExactly(events[..|events| - 1]);
      TrackedStep(RunFrom(START, events[..|events| - 1]), events[|events| - 1], Failed(START, events[..|events| - 1]));
    }
  }
}
