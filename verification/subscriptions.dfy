/** The handlers that change the store of subscriptions: POST, PATCH, the three DELETEs and
    the prune pass, each against a description of the store and prune map it leaves. */
module Subscriptions {
  import opened Text
  import opened Types
  import opened SubscriptionKey
  import opened Scanners
  import opened Store
  import opened Fanout

  // ---------- request bodies ----------

  /** The bodies of POST and PATCH are lower-cased as a whole before they are parsed. */
  function LowerBody(b: ScnSubscribe): ScnSubscribe {
    ScnSubscribe(LowerAll(b.components), Lower(b.subscriber), Lower(b.subscriberComponent), Lower(b.subscriberAgent),
                 b.enabled, LowerAll(b.roles), LowerAll(b.subRoles), LowerAll(b.softwareStatus), LowerAll(b.states),
                 Lower(b.url))
  }

  lemma LowerAllTwice(vals: seq<string>, tag: string)
    ensures Category(tag, LowerAll(vals)) == Category(tag, vals)
  {
    LowerAllIdempotent(vals);
  }

  /** Lower-casing the body first changes neither the key nor the owner. */
  lemma KeyOfLowered(b: ScnSubscribe, xname: string, agent: string)
    ensures KeyOf(LowerBody(b), xname, agent) == KeyOf(b, xname, agent)
  {
    LowerAllTwice(b.states, "hs");
    LowerAllTwice(b.softwareStatus, "ss");
    LowerAllTwice(b.roles, "roles");
    LowerAllTwice(b.subRoles, "subroles");
  }

  predicate HasTrigger(b: ScnSubscribe) {
    b.states != [] || b.softwareStatus != [] || b.enabled.Some? || b.roles != [] || b.subRoles != []
  }

  predicate CheckSubscriptionV1(b: ScnSubscribe) {
    b.subscriber != "" && |Split(b.subscriber, '@')| <= 2 && b.components != [] && b.url != "" && HasTrigger(b)
  }

  predicate CheckSubscriptionV2(b: ScnSubscribe) {
    b.components != [] && b.url != "" && HasTrigger(b)
  }

  function DataOf(b: ScnSubscribe): SubData {
    SubData(b.url, b.components)
  }

  /** The xname POST v1 has validated: what follows the first '@', if there is one. */
  function PostXname(subscriber: string): string {
    var ix := Index(subscriber, "@");
    if ix != -1 then subscriber[ix + 1..] else subscriber
  }

  // ---------- POST ----------

  /** The store after a POST: unchanged, or with one new record. */
  function Posted(data: Db, key: string, body: ScnSubscribe, valid: bool, io: KvIo): Db {
    if valid && io.getOk && key !in data && io.storeOk then data[key := DataOf(body)] else data
  }

  method MakeSubscriptionEntry(kv: KvStore, complist: seq<string>, url: string, key: string,
                               io: KvIo) returns (ok: bool)
    modifies kv
    ensures ok == io.storeOk
    ensures kv.data == if ok then old(kv.data)[key := SubData(url, complist)] else old(kv.data)
  {
    ok := kv.Put(key, SubData(url, complist), io);
  }

  method DoSubscribePost(kv: KvStore, body: ScnSubscribe, isXname: string -> bool, io: KvIo) returns (accepted: bool)
    modifies kv
    ensures var j := LowerBody(body);
            var valid := CheckSubscriptionV1(j) && isXname(PostXname(j.subscriber));
            kv.data == Posted(old(kv.data), KeyOfV1(j), j, valid, io)
            && accepted == (valid && io.getOk && KeyOfV1(j) !in old(kv.data) && io.storeOk)
    ensures var value := SubData(Lower(body.url), LowerAll(body.components));
            kv.data == if accepted then old(kv.data)[KeyOfV1(LowerBody(body)) := value] else old(kv.data)
  {
    var jdata := LowerBody(body);
    if !CheckSubscriptionV1(jdata) {
      return false;
    }
    var subscriberXname := jdata.subscriber;
    var ix := Index(jdata.subscriber, "@");
    if ix != -1 {
      subscriberXname := jdata.subscriber[ix + 1..];
    }
    if !isXname(subscriberXname) {
      return false;
    }
    var subKey := MakeSubscriptionKeyV1(jdata);
    var found, ok := kv.Get(subKey, io);
    if !ok || found {
      return false;
    }
    accepted := MakeSubscriptionEntry(kv, jdata.components, jdata.url, subKey, io);
  }

  /** POST v2; the xname is the normalised one, empty if the path had no valid xname. */
  method SubscriptionsAgentPost(kv: KvStore, xname: string, agent: string, body: ScnSubscribe, isXname: string -> bool,
                                io: KvIo) returns (accepted: bool)
    modifies kv
    ensures var j := LowerBody(body);
            var valid := xname != "" && CheckSubscriptionV2(j) && isXname(xname);
            kv.data == Posted(old(kv.data), KeyOf(j, xname, agent), j, valid, io)
            && accepted == (valid && io.getOk && KeyOf(j, xname, agent) !in old(kv.data) && io.storeOk)
    ensures var value := SubData(Lower(body.url), LowerAll(body.components));
            kv.data == if accepted then old(kv.data)[KeyOf(body, xname, agent) := value] else old(kv.data)
  {
    KeyOfLowered(body, xname, agent);
    if xname == "" {
      return false;
    }
    var jdata := LowerBody(body);
    if !CheckSubscriptionV2(jdata) || !isXname(xname) {
      return false;
    }
    var subKey := MakeSubscriptionKeyV2(jdata, xname, agent);
    var found, ok := kv.Get(subKey, io);
    if !ok || found {
      return false;
    }
    accepted := MakeSubscriptionEntry(kv, jdata.components, jdata.url, subKey, io);
  }

  // ---------- DELETE and prune ----------

  /** What a DELETE or the prune pass looks for. */
  datatype Target = OfAgent(xname: string, agent: string) | OfXname(xname: string)
                  | OfBody(subscriber: string, url: string) | OfMarks(marks: set<string>)

  /** The name under which prune looks a key's agent up. */
  function PruneLabel(key: string): string {
    if ScanAgent(key).Agent? then ScanAgent(key).name + "@" + XnameOf(key) else "bad_sub"
  }

  predicate Hit(t: Target, key: string, value: SubData) {
    match t
    case OfAgent(x, a) => XnameOf(key) == x && AgentName(ScanAgent(key)) == a
    case OfXname(x) => XnameOf(key) == x
    case OfBody(s, u) => Lower(KeyLabel(key)) == Lower(s) && Lower(u) == Lower(value.url)
    case OfMarks(m) => XnameOf(key) in m || PruneLabel(key) in m
  }

  /** The keys removed: the scanned ones that are hit and whose deletion succeeds. */
  function Victims(data: Db, t: Target, io: KvIo): set<string> {
    if io.rangeOk then set k | k in data && Scanned(k) && Hit(t, k, data[k]) && k !in io.deleteFails else {}
  }

  function LabelsOf(keys: set<string>): set<string> {
    set k | k in keys :: KeyLabel(k)
  }

  /** No scanned key makes the agent scan slice out of range. */
  ghost predicate ScanSafe(data: Db) {
    forall k :: k in data && Scanned(k) ==> !ScanAgent(k).OutOfRange?
  }

  /** What going past one record removes. */
  function RemovedOne(rec: Record, t: Target, io: KvIo): set<string> {
    if Hit(t, rec.key, rec.value) && rec.key !in io.deleteFails then {rec.key} else {}
  }

  /** The keys removed while going through a list. */
  function Removed(list: seq<Record>, t: Target, io: KvIo): set<string> {
    if list == [] then {} else Removed(list[..|list| - 1], t, io) + RemovedOne(list[|list| - 1], t, io)
  }

  lemma RemovedStep(data: Db, list: seq<Record>, i: nat, t: Target, io: KvIo)
    requires i < |list|
    ensures var gone, one, next := Removed(list[..i], t, io), RemovedOne(list[i], t, io), Removed(list[..i + 1], t, io);
            data - gone - one == data - next && LabelsOf(gone) + LabelsOf(one) == LabelsOf(next)
  {
    assert list[..i + 1][..i] == list[..i] && list[..i + 1][i] == list[i];
  }

  lemma {:induction false} RemovedHas(list: seq<Record>, t: Target, io: KvIo)
    ensures forall k :: k in Removed(list, t, io) <==> exists r :: r in list && k in RemovedOne(r, t, io)
  {
    if list != [] {
      var init, last := list[..|list| - 1], list[|list| - 1];
      RemovedHas(init, t, io);
      assert list == init + [last];
      assert forall r :: r in list <==> r in init || r == last;
    }
  }

  lemma RemovedAll(data: Db, t: Target, io: KvIo)
    requires io.rangeOk
    ensures Removed(ListingOf(data, RANGE_START, RANGE_END), t, io) == Victims(data, t, io)
  {
    var list := ListingOf(data, RANGE_START, RANGE_END);
    ListingHas(data, RANGE_START, RANGE_END, list);
    RemovedHas(list, t, io);
    forall k | k in Victims(data, t, io) ensures k in Removed(list, t, io) {
      assert Record(k, data[k]) in list && k in RemovedOne(Record(k, data[k]), t, io);
    }
    forall k | k in Removed(list, t, io) ensures k in Victims(data, t, io) {
      var r :| r in list && k in RemovedOne(r, t, io);
    }
  }

  /** What is left after the first n records, and the marks made. */
  ghost predicate GoneSoFar(data: Db, marks: set<string>, dataNow: Db, marksNow: set<string>, list: seq<Record>, n: nat,
                            t: Target, io: KvIo)
    requires n <= |list|
  {
    dataNow == data - Removed(list[..n], t, io) && marksNow == marks + LabelsOf(Removed(list[..n], t, io))
  }

  lemma GoneStep(data: Db, marks: set<string>, dataNow: Db, marksNow: set<string>, list: seq<Record>, n: nat, t: Target,
                 io: KvIo)
    requires n < |list| && GoneSoFar(data, marks, dataNow, marksNow, list, n, t, io)
    ensures var one := RemovedOne(list[n], t, io);
            GoneSoFar(data, marks, dataNow - one, marksNow + LabelsOf(one), list, n + 1, t, io)
  {
    RemovedStep(data, list, n, t, io);
  }

  lemma GoneAll(data: Db, marks: set<string>, dataNow: Db, marksNow: set<string>, list: seq<Record>, t: Target,
                io: KvIo)
    requires io.rangeOk && list == ListingOf(data, RANGE_START, RANGE_END)
    requires GoneSoFar(data, marks, dataNow, marksNow, list, |list|, t, io)
    ensures dataNow == data - Victims(data, t, io) && marksNow == marks + LabelsOf(Victims(data, t, io))
  {
    assert list[..|list|] == list;
    RemovedAll(data, t, io);
  }

  ghost predicate AnyHit(data: Db, t: Target) {
    exists k :: k in data && Scanned(k) && Hit(t, k, data[k])
  }

  ghost predicate HitIn(list: seq<Record>, t: Target) {
    exists r :: r in list && Hit(t, r.key, r.value)
  }

  lemma HitInStep(list: seq<Record>, i: nat, t: Target)
    requires i < |list|
    ensures HitIn(list[..i + 1], t) <==> HitIn(list[..i], t) || Hit(t, list[i].key, list[i].value)
  {
    assert list[..i + 1] == list[..i] + [list[i]];
    assert list[i] in list[..i + 1];
  }

  lemma HitInAll(data: Db, t: Target)
    ensures HitIn(ListingOf(data, RANGE_START, RANGE_END), t) <==> AnyHit(data, t)
  {
    var list := ListingOf(data, RANGE_START, RANGE_END);
    ListingHas(data, RANGE_START, RANGE_END, list);
    if k :| k in data && Scanned(k) && Hit(t, k, data[k]) {
      assert Record(k, data[k]) in list;
    }
  }

  /** Deletes one key and, if that succeeds, marks its owner so that queued sends are dropped. */
  method DeleteAndMark(kv: KvStore, pm: PruneMap, key: string, owner: string, io: KvIo)
    modifies kv, pm
    ensures kv.data == old(kv.data) - if key in io.deleteFails then {} else {key}
    ensures pm.marks == old(pm.marks) + if key in io.deleteFails then {} else {owner}
  {
    var ok := kv.Delete(key, io);
    if ok {
      pm.marks := pm.marks + {owner};
    }
  }

  /** The owner a DELETE loop reads off a key: xname, agent and `agent@xname`. */
  method ReadOwner(key: string) returns (subXName: string, subAgent: string, subsvc: string)
    requires Scanned(key) && !ScanAgent(key).OutOfRange?
    ensures subXName == XnameOf(key) && subAgent == AgentName(ScanAgent(key)) && subsvc == KeyLabel(key)
  {
    var toks := Split(key, '#');
    ScannedHasXname(key);
    subXName := toks[1];
    subAgent := "";
    subsvc := subXName;
    var ix := Index(key, "svc");
    if ix > 0 {
      var tt := Split(key[ix + 3 + 1..], '#');
      subAgent := tt[0];
      subsvc := tt[0] + "@" + subXName;
    }
  }

  /** One turn of each loop: what it does to the record it looks at. */
  method AgentDeleteOne(kv: KvStore, pm: PruneMap, sub: Record, xname: string, agent: string,
                        io: KvIo) returns (hit: bool)
    requires Scanned(sub.key) && !ScanAgent(sub.key).OutOfRange?
    modifies kv, pm
    ensures var gone := RemovedOne(sub, OfAgent(xname, agent), io);
            kv.data == old(kv.data) - gone && pm.marks == old(pm.marks) + LabelsOf(gone)
    ensures hit == Hit(OfAgent(xname, agent), sub.key, sub.value)
  {
    var subXName, subAgent, subsvc := ReadOwner(sub.key);
    hit := xname == subXName && agent == subAgent;
    if hit {
      DeleteAndMark(kv, pm, sub.key, subsvc, io);
    }
  }

  method XNameDeleteOne(kv: KvStore, pm: PruneMap, sub: Record, xname: string, io: KvIo)
    requires Scanned(sub.key) && !ScanAgent(sub.key).OutOfRange?
    modifies kv, pm
    ensures var gone := RemovedOne(sub, OfXname(xname), io);
            kv.data == old(kv.data) - gone && pm.marks == old(pm.marks) + LabelsOf(gone)
  {
    var subXName, _, subsvc := ReadOwner(sub.key);
    if xname == subXName {
      DeleteAndMark(kv, pm, sub.key, subsvc, io);
    }
  }

  method BodyDeleteOne(kv: KvStore, pm: PruneMap, sub: Record, subscriber: string, url: string, io: KvIo)
    requires Scanned(sub.key) && !ScanAgent(sub.key).OutOfRange?
    modifies kv, pm
    ensures var gone := RemovedOne(sub, OfBody(subscriber, url), io);
            kv.data == old(kv.data) - gone && pm.marks == old(pm.marks) + LabelsOf(gone)
  {
    var _, _, subsvc := ReadOwner(sub.key);
    if Lower(subsvc) == Lower(subscriber) {
      if Lower(url) == Lower(sub.value.url) {
        DeleteAndMark(kv, pm, sub.key, subsvc, io);
      }
    }
  }

  method PruneOne(kv: KvStore, pm: PruneMap, sub: Record, io: KvIo)
    requires Scanned(sub.key) && !ScanAgent(sub.key).OutOfRange?
    modifies kv
    ensures kv.data == old(kv.data) - RemovedOne(sub, OfMarks(pm.marks), io)
  {
    var toks := Split(sub.key, '#');
    ScannedHasXname(sub.key);
    var xname := toks[1];
    var subscriber := "bad_sub";
    var ix := Index(sub.key, "svc");
    if ix > 0 {
      var tt := Split(sub.key[ix + 3 + 1..], '#');
      subscriber := tt[0] + "@" + toks[1];
    }
    if xname in pm.marks || subscriber in pm.marks {
      var deleted := kv.Delete(sub.key, io);
    }
  }

  method SubscriptionsAgentDelete(kv: KvStore, pm: PruneMap, xname: string, agent: string,
                                  io: KvIo) returns (matched: bool)
    requires xname != "" && io.rangeOk ==> ScanSafe(kv.data)
    modifies kv, pm
    ensures var gone := if xname == "" then {} else Victims(old(kv.data), OfAgent(xname, agent), io);
            kv.data == old(kv.data) - gone && pm.marks == old(pm.marks) + LabelsOf(gone)
    ensures matched <==> xname != "" && io.rangeOk && AnyHit(old(kv.data), OfAgent(xname, agent))
  {
    matched := false;
    if xname == "" {
      return;
    }
    var ok, skvlist := kv.GetRange(RANGE_START, RANGE_END, io);
    if !ok {
      return;
    }
    ghost var t := OfAgent(xname, agent);
    for i := 0 to |skvlist|
      invariant GoneSoFar(old(kv.data), old(pm.marks), kv.data, pm.marks, skvlist, i, t, io)
      invariant matched <==> HitIn(skvlist[..i], t)
    {
      GoneStep(old(kv.data), old(pm.marks), kv.data, pm.marks, skvlist, i, t, io);
      HitInStep(skvlist, i, t);
      var hit := AgentDeleteOne(kv, pm, skvlist[i], xname, agent, io);
      matched := matched || hit;
    }
    GoneAll(old(kv.data), old(pm.marks), kv.data, pm.marks, skvlist, t, io);
    assert skvlist[..|skvlist|] == skvlist;
    HitInAll(old(kv.data), t);
  }

  method SubscriptionsXNameDelete(kv: KvStore, pm: PruneMap, xname: string, io: KvIo)
    requires xname != "" && io.rangeOk ==> ScanSafe(kv.data)
    modifies kv, pm
    ensures var gone := if xname == "" then {} else Victims(old(kv.data), OfXname(xname), io);
            kv.data == old(kv.data) - gone && pm.marks == old(pm.marks) + LabelsOf(gone)
  {
    if xname == "" {
      return;
    }
    var ok, skvlist := kv.GetRange(RANGE_START, RANGE_END, io);
    if !ok {
      return;
    }
    ghost var t := OfXname(xname);
    for i := 0 to |skvlist|
      invariant GoneSoFar(old(kv.data), old(pm.marks), kv.data, pm.marks, skvlist, i, t, io)
    {
      GoneStep(old(kv.data), old(pm.marks), kv.data, pm.marks, skvlist, i, t, io);
      XNameDeleteOne(kv, pm, skvlist[i], xname, io);
    }
    GoneAll(old(kv.data), old(pm.marks), kv.data, pm.marks, skvlist, t, io);
  }

  /** DELETE v1. A missing field is answered with an error, but the source goes on regardless. */
  method DoSubscribeDelete(kv: KvStore, pm: PruneMap, subscriber: string, url: string, io: KvIo)
    requires io.rangeOk ==> ScanSafe(kv.data)
    modifies kv, pm
    ensures var gone := Victims(old(kv.data), OfBody(subscriber, url), io);
            kv.data == old(kv.data) - gone && pm.marks == old(pm.marks) + LabelsOf(gone)
  {
    var ok, skvlist := kv.GetRange(RANGE_START, RANGE_END, io);
    if !ok {
      return;
    }
    ghost var t := OfBody(subscriber, url);
    for i := 0 to |skvlist|
      invariant GoneSoFar(old(kv.data), old(pm.marks), kv.data, pm.marks, skvlist, i, t, io)
    {
      GoneStep(old(kv.data), old(pm.marks), kv.data, pm.marks, skvlist, i, t, io);
      BodyDeleteOne(kv, pm, skvlist[i], subscriber, url, io);
    }
    GoneAll(old(kv.data), old(pm.marks), kv.data, pm.marks, skvlist, t, io);
  }

  method SubPrune(kv: KvStore, pm: PruneMap, io: KvIo)
    requires io.rangeOk ==> ScanSafe(kv.data)
    modifies kv
    ensures kv.data == old(kv.data) - Victims(old(kv.data), OfMarks(pm.marks), io)
  {
    var ok, kvlist := kv.GetRange(RANGE_START, RANGE_END, io);
    if !ok {
      return;
    }
    ghost var t := OfMarks(pm.marks);
    for i := 0 to |kvlist|
      invariant kv.data == old(kv.data) - Removed(kvlist[..i], t, io)
    {
      RemovedStep(old(kv.data), kvlist, i, t, io);
      PruneOne(kv, pm, kvlist[i], io);
    }
    assert kvlist[..|kvlist|] == kvlist;
    RemovedAll(old(kv.data), t, io);
  }

  /** One round of the prune loop. The prune map ends empty even when a read or a delete failed. */
  method Prune(kv: KvStore, pm: PruneMap, io: KvIo)
    requires pm.marks != {} && io.rangeOk ==> ScanSafe(kv.data)
    modifies kv, pm
    ensures kv.data == old(kv.data) - Victims(old(kv.data), OfMarks(old(pm.marks)), io)
    ensures pm.marks == {}
  {
    if |pm.marks| > 0 {
      SubPrune(kv, pm, io);
      while pm.marks != {}
        invariant kv.data == old(kv.data) - Victims(old(kv.data), OfMarks(old(pm.marks)), io)
        decreases pm.marks
      {
        var m :| m in pm.marks;
        pm.marks := pm.marks - {m};
      }
    }
  }

  // ---------- PATCH ----------

  /** Whom a PATCH looks for: v1 compares `agent@xname` and the Url, v2 the path's xname and agent. */
  datatype Who = ByBody(subscriber: string, url: string) | ByPath(xname: string, agent: string)

  /** The owner v1 reads off a key to compare with the body's Subscriber. */
  function PatchLabel(key: string): string {
    var scan := ScanAgentPatch(key);
    if scan.Agent? then scan.name + "@" + XnameOf(key) else XnameOf(key)
  }

  predicate PatchMatch(w: Who, rec: Record) {
    match w
    case ByBody(s, u) => rec.value.url == u && PatchLabel(rec.key) == s
    case ByPath(x, a) => XnameOf(rec.key) == x && AgentName(ScanAgentPatch(rec.key)) == a
  }

  function FirstMatch(list: seq<Record>, w: Who): Option<string> {
    if list == [] then None
    else if PatchMatch(w, list[0]) then Some(list[0].key)
    else FirstMatch(list[1..], w)
  }

  /** A key replaced by another (or by itself) with a new value, as the calls' outcomes allow. */
  function Replaced(data: Db, key: string, exKey: string, value: SubData, io: KvIo): Db {
    if exKey != key && key in io.deleteFails then data
    else
      var rest := if exKey != key then data - {key} else data;
      if io.storeOk then rest[exKey := value] else rest
  }

  ghost function Patched(data: Db, lo: string, hi: string, w: Who, exKey: string, value: SubData, io: KvIo): Db {
    if !io.rangeOk then data
    else
      match FirstMatch(ListingOf(data, lo, hi), w)
      case None => data
      case Some(key) => Replaced(data, key, exKey, value, io)
  }

  /** Every key whose scan would slice out of range comes after a match, where the loop has ended. */
  ghost predicate PatchSafe(list: seq<Record>, w: Who) {
    forall i :: 0 <= i < |list| && ScanAgentPatch(list[i].key).OutOfRange? ==>
      exists j :: 0 <= j < i && PatchMatch(w, list[j])
  }

  /** Both APIs cut the range at what follows an '@' that is not the first character. */
  function PatchStart(subscriber: string): string {
    var ix := Index(subscriber, "@");
    "sub#" + (if ix > 0 then subscriber[ix + 1..] else subscriber)
  }

  /** The owner a PATCH loop reads off a key: xname, agent and `agent@xname`. */
  method ReadPatchOwner(key: string) returns (svcXName: string, svcAgent: string, svcKey: string)
    requires |Split(key, '#')| >= 2 && !ScanAgentPatch(key).OutOfRange?
    ensures svcXName == XnameOf(key) && svcAgent == AgentName(ScanAgentPatch(key)) && svcKey == PatchLabel(key)
  {
    var toks := Split(key, '#');
    svcXName := toks[1];
    svcAgent := "";
    svcKey := svcXName;
    var ix := Index(key, "svc.");
    if ix > 0 {
      var iy := Index(key[ix..], "#");
      if iy == -1 {
        svcAgent := key[ix + 4..];
      } else {
        svcAgent := key[ix + 4..iy - 1];
      }
      svcKey := svcAgent + "@" + svcKey;
    }
  }

  /** The loop of both PATCH handlers: replace the first match and stop. */
  method PatchLoop(kv: KvStore, skvlist: seq<Record>, w: Who, exKey: string, value: SubData, io: KvIo)
    requires PatchSafe(skvlist, w)
    requires forall i :: 0 <= i < |skvlist| ==> |Split(skvlist[i].key, '#')| >= 2
    modifies kv
    ensures kv.data == match FirstMatch(skvlist, w)
                       case None => old(kv.data)
                       case Some(key) => Replaced(old(kv.data), key, exKey, value, io)
  {
    for i := 0 to |skvlist|
      invariant kv.data == old(kv.data)
      invariant FirstMatch(skvlist, w) == FirstMatch(skvlist[i..], w)
      invariant forall j :: 0 <= j < i ==> !PatchMatch(w, skvlist[j])
    {
      assert skvlist[i..][0] == skvlist[i] && skvlist[i..][1..] == skvlist[i + 1..];
      var key := skvlist[i].key;
      var svcXName, svcAgent, svcKey := ReadPatchOwner(key);
      var matched;
      match w {
        case ByBody(subscriber, url) => matched := skvlist[i].value.url == url && svcKey == subscriber;
        case ByPath(xname, agent) => matched := svcXName == xname && svcAgent == agent;
      }
      if matched {
        if exKey != key {
          var ok := kv.Delete(key, io);
          if !ok {
            return;
          }
        }
        var stored := MakeSubscriptionEntry(kv, value.scnNodes, value.url, exKey, io);
        return;
      }
    }
  }

  lemma PatchRangeHasXname(start: string, key: string)
    requires "sub#" <= start && InRange(start, start + "z", key)
    ensures |Split(key, '#')| >= 2
  {
    assert start == start + "";
    RangeSharesPrefix(start, "", "z", key);
    assert key == "sub" + ['#'] + key[4..];
    SplitAtDelimiter("sub", '#', key[4..]);
  }

  method DoSubscribePatch(kv: KvStore, body: ScnSubscribe, io: KvIo)
    requires var j := LowerBody(body);
             var start := PatchStart(j.subscriber);
             CheckSubscriptionV1(j) && io.rangeOk ==>
               PatchSafe(ListingOf(kv.data, start, start + "z"), ByBody(j.subscriber, j.url))
    modifies kv
    ensures var j := LowerBody(body);
            var start := PatchStart(j.subscriber);
            kv.data == if CheckSubscriptionV1(j)
                       then Patched(old(kv.data), start, start + "z", ByBody(j.subscriber, j.url), KeyOfV1(j),
                                    DataOf(j), io)
                       else old(kv.data)
  {
    var jdata := LowerBody(body);
    if !CheckSubscriptionV1(jdata) {
      return;
    }
    var start := PatchStart(jdata.subscriber);
    var ok, skvlist := kv.GetRange(start, start + "z", io);
    if !ok {
      return;
    }
    forall i | 0 <= i < |skvlist| ensures |Split(skvlist[i].key, '#')| >= 2 {
      PatchRangeHasXname(start, skvlist[i].key);
    }
    var exKey := MakeSubscriptionKeyV1(jdata);
    PatchLoop(kv, skvlist, ByBody(jdata.subscriber, jdata.url), exKey, DataOf(jdata), io);
  }

  /** PATCH v2: the body is not checked, and the range comes from the body, not from the path. */
  method SubscriptionsAgentPatch(kv: KvStore, xname: string, agent: string, body: ScnSubscribe, io: KvIo)
    requires var start := PatchStart(LowerBody(body).subscriber);
             xname != "" && io.rangeOk ==> PatchSafe(ListingOf(kv.data, start, start + "z"), ByPath(xname, agent))
    modifies kv
    ensures var j := LowerBody(body);
            var start := PatchStart(j.subscriber);
            kv.data == if xname == "" then old(kv.data)
                       else Patched(old(kv.data), start, start + "z", ByPath(xname, agent), KeyOf(j, xname, agent),
                                    DataOf(j), io)
  {
    if xname == "" {
      return;
    }
    var jdata := LowerBody(body);
    var start := PatchStart(jdata.subscriber);
    var ok, skvlist := kv.GetRange(start, start + "z", io);
    if !ok {
      return;
    }
    forall i | 0 <= i < |skvlist| ensures |Split(skvlist[i].key, '#')| >= 2 {
      PatchRangeHasXname(start, skvlist[i].key);
    }
    var exKey := MakeSubscriptionKeyV2(jdata, xname, agent);
    PatchLoop(kv, skvlist, ByPath(xname, agent), exKey, DataOf(jdata), io);
  }

  // ---------- listing ----------

  function ListedInfo(rec: Record): ScnSubscribe {
    ParseKey(rec.key).(components := rec.value.scnNodes, url := rec.value.url)
  }

  /** The subscriptions of one component, in key order. */
  function ListedFor(list: seq<Record>, xname: string): seq<ScnSubscribe> {
    if list == [] then []
    else
      var init, last := list[..|list| - 1], list[|list| - 1];
      ListedFor(init, xname) + (if XnameOf(last.key) == xname then [ListedInfo(last)] else [])
  }

  lemma ListedForStep(list: seq<Record>, i: nat, xname: string)
    requires i < |list|
    ensures ListedFor(list[..i + 1], xname)
            == ListedFor(list[..i], xname) + if XnameOf(list[i].key) == xname then [ListedInfo(list[i])] else []
  {
    assert list[..i + 1][..i] == list[..i] && list[..i + 1][i] == list[i];
  }

  /** The listing of one record: its parsed key, with the stored components and Url. */
  method ListOne(rec: Record) returns (info: ScnSubscribe)
    requires Parsable(rec.key)
    ensures info == ListedInfo(rec)
  {
    var subinfo := ParseSubscription(rec.key);
    info := subinfo.(components := rec.value.scnNodes, url := rec.value.url);
  }

  method SubscriptionsXNameGet(kv: KvStore, xname: string, io: KvIo) returns (ok: bool, sublist: seq<ScnSubscribe>)
    requires xname != "" && io.rangeOk ==>
               forall k :: k in kv.data && Scanned(k) && XnameOf(k) == xname ==> Parsable(k)
    ensures ok == (xname != "" && io.rangeOk)
    ensures sublist == if ok then ListedFor(ListingOf(kv.data, RANGE_START, RANGE_END), xname) else []
  {
    sublist := [];
    if xname == "" {
      return false, sublist;
    }
    var kvlist: seq<Record>;
    ok, kvlist := kv.GetRange(RANGE_START, RANGE_END, io);
    if !ok {
      return;
    }
    for i := 0 to |kvlist|
      invariant sublist == ListedFor(kvlist[..i], xname)
    {
      ListedForStep(kvlist, i, xname);
      ScannedHasXname(kvlist[i].key);
      if XnameOf(kvlist[i].key) == xname {
        var subinfo := ListOne(kvlist[i]);
        sublist := sublist + [subinfo];
      }
    }
    assert kvlist[..|kvlist|] == kvlist;
  }
}
