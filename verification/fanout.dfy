/** Turning one SCN into send jobs, sending a job, and the dead-node pass. */
module Fanout {
  import opened Text
  import opened Types
  import opened Scanners
  import opened Store

  // ---------- intersect ----------

  predicate Digits(s: string) {
    s != "" && forall i :: 0 <= i < |s| ==> '0' <= s[i] <= '9'
  }

  /** The regular expression ^x.*b[0-9]+n[0-9]+$, with its b and n at these places. */
  predicate MatchesAt(s: string, i: int, j: int) {
    1 <= i < j < |s| && s[0] == 'x' && s[i] == 'b' && s[j] == 'n' && '\n' !in s[1..i]
    && Digits(s[i + 1..j]) && Digits(s[j + 1..])
  }

  predicate NodeShaped(s: string) {
    exists i, j :: 1 <= i < j < |s| && MatchesAt(s, i, j)
  }

  function NodeName(cabinet: string, bmc: string, node: string): string {
    "x" + cabinet + "b" + bmc + "n" + node
  }

  lemma NodeNameShaped(c: string, b: string, n: string)
    requires '\n' !in c && Digits(b) && Digits(n)
    ensures NodeShaped(NodeName(c, b, n))
  {
    var s := NodeName(c, b, n);
    var i := 1 + |c|;
    var j := i + 1 + |b|;
    assert s == "x" + (c + ("b" + (b + ("n" + n))));
    assert s[1..i] == c && s[i + 1..j] == b && s[j + 1..] == n;
    assert MatchesAt(s, i, j);
  }

  predicate IsNodeName(s: string, c: string, b: string, n: string) {
    s == NodeName(c, b, n) && '\n' !in c && Digits(b) && Digits(n)
  }

  lemma NodeShapedSplits(s: string, i: nat, j: nat)
    requires MatchesAt(s, i, j)
    ensures s == NodeName(s[1..i], s[i + 1..j], s[j + 1..])
  {
    assert s[..i] == "x" + s[1..i];
    assert s[..i + 1] == s[..i] + "b";
    assert s[..j] == s[..i + 1] + s[i + 1..j];
    assert s[..j + 1] == s[..j] + "n";
    assert s == s[..j + 1] + s[j + 1..];
  }

  /** Node-shaped names are x, anything on one line, then a numbered b and a numbered n. */
  lemma NodeShapedExactly(s: string)
    ensures NodeShaped(s) <==> exists c, b, n :: IsNodeName(s, c, b, n)
  {
    if NodeShaped(s) {
      var i, j :| 1 <= i < j < |s| && MatchesAt(s, i, j);
      NodeShapedSplits(s, i, j);
      assert IsNodeName(s, s[1..i], s[i + 1..j], s[j + 1..]);
    } else if c, b, n :| IsNodeName(s, c, b, n) {
      NodeNameShaped(c, b, n);
    }
  }

  function NodesOnly(hsmarr: seq<string>): seq<string> {
    if hsmarr == [] then []
    else
      var init, last := hsmarr[..|hsmarr| - 1], hsmarr[|hsmarr| - 1];
      NodesOnly(init) + (if NodeShaped(last) then [last] else [])
  }

  /** The first occurrence of every element that both lists have, in the second list's order. */
  function FirstCommon(subarr: seq<string>, hsmarr: seq<string>): seq<string> {
    if hsmarr == [] then []
    else
      var init, last := hsmarr[..|hsmarr| - 1], hsmarr[|hsmarr| - 1];
      FirstCommon(subarr, init) + (if last in subarr && last !in init then [last] else [])
  }

  /** The components a subscriber's node list selects from an SCN's. An empty node list is an
      index out of range in the source; Intersect forbids it. */
  function CommonNodes(subarr: seq<string>, hsmarr: seq<string>): seq<string> {
    if subarr == [] then []
    else if subarr[0] == "all" then hsmarr
    else if subarr[0] == "allnodes" then NodesOnly(hsmarr)
    else FirstCommon(subarr, hsmarr)
  }

  lemma NodesOnlyStep(hsmarr: seq<string>, i: nat)
    requires i < |hsmarr|
    ensures NodesOnly(hsmarr[..i + 1]) == NodesOnly(hsmarr[..i]) + if NodeShaped(hsmarr[i]) then [hsmarr[i]] else []
  {
    assert hsmarr[..i + 1][..i] == hsmarr[..i] && hsmarr[..i + 1][i] == hsmarr[i];
  }

  lemma FirstCommonStep(subarr: seq<string>, hsmarr: seq<string>, i: nat)
    requires i < |hsmarr|
    ensures FirstCommon(subarr, hsmarr[..i + 1])
            == FirstCommon(subarr, hsmarr[..i])
               + if hsmarr[i] in subarr && hsmarr[i] !in hsmarr[..i] then [hsmarr[i]] else []
    ensures forall s :: s in hsmarr[..i + 1] <==> s in hsmarr[..i] || s == hsmarr[i]
  {
    assert hsmarr[..i + 1][..i] == hsmarr[..i] && hsmarr[..i + 1][i] == hsmarr[i];
    assert hsmarr[..i + 1] == hsmarr[..i] + [hsmarr[i]];
  }

  /** The three ways of filling the pre-sized buffer; each returns how much of it is used. */
  method TakeAll(osa: array<string>, hsmarr: seq<string>) returns (ix: nat)
    requires osa.Length >= |hsmarr|
    modifies osa
    ensures ix <= osa.Length && osa[..ix] == hsmarr
  {
    ix := 0;
    for iy := 0 to |hsmarr|
      invariant ix == iy && osa[..ix] == hsmarr[..iy]
    {
      osa[ix] := hsmarr[iy];
      ix := ix + 1;
    }
  }

  method TakeNodes(osa: array<string>, hsmarr: seq<string>) returns (ix: nat)
    requires osa.Length >= |hsmarr|
    modifies osa
    ensures ix <= osa.Length && osa[..ix] == NodesOnly(hsmarr)
  {
    ix := 0;
    for iy := 0 to |hsmarr|
      invariant ix <= iy && osa[..ix] == NodesOnly(hsmarr[..iy])
    {
      NodesOnlyStep(hsmarr, iy);
      if NodeShaped(hsmarr[iy]) {
        osa[ix] := hsmarr[iy];
        ix := ix + 1;
      }
    }
    assert hsmarr[..|hsmarr|] == hsmarr;
  }

  method TakeCommon(osa: array<string>, subarr: seq<string>, hsmarr: seq<string>) returns (ix: nat)
    requires osa.Length >= |hsmarr|
    modifies osa
    ensures ix <= osa.Length && osa[..ix] == FirstCommon(subarr, hsmarr)
  {
    var dmap: set<string> := {};
    for iz := 0 to |subarr|
      invariant forall s :: s in dmap <==> s in subarr[..iz]
    {
      dmap := dmap + {subarr[iz]};
      assert subarr[..iz + 1] == subarr[..iz] + [subarr[iz]];
    }
    assert subarr[..|subarr|] == subarr;
    ix := 0;
    for iy := 0 to |hsmarr|
      invariant ix <= iy && osa[..ix] == FirstCommon(subarr, hsmarr[..iy])
      invariant forall s :: s in dmap <==> s in subarr && s !in hsmarr[..iy]
    {
      FirstCommonStep(subarr, hsmarr, iy);
      var v := hsmarr[iy];
      if v in dmap {
        osa[ix] := v;
        ix := ix + 1;
        dmap := dmap - {v};
      }
    }
    assert hsmarr[..|hsmarr|] == hsmarr;
  }

  method Intersect(subarr: seq<string>, hsmarr: seq<string>) returns (res: seq<string>)
    requires subarr != []
    ensures res == CommonNodes(subarr, hsmarr) && SelectedInOrder(subarr, hsmarr, res)
  {
    SelectionExactly(subarr, hsmarr);
    var tlen := if |subarr| >= |hsmarr| then |subarr| else |hsmarr|;
    var osa := new string[tlen];
    var ix;
    var lcc := subarr[0];
    if lcc == "all" {
      ix := TakeAll(osa, hsmarr);
    } else if lcc == "allnodes" {
      ix := TakeNodes(osa, hsmarr);
    } else {
      ix := TakeCommon(osa, subarr, hsmarr);
    }
    res := osa[..ix];
  }

  /** The subscriber wants to hear about this component. */
  predicate Interested(nodes: seq<string>, c: string) {
    nodes != [] &&
    (nodes[0] == "all" || (if nodes[0] == "allnodes" then NodeShaped(c) else c in nodes))
  }

  /** The components selected are exactly those of the SCN the subscriber is interested in. */
  lemma {:induction false} CommonNodesExact(nodes: seq<string>, comps: seq<string>, c: string)
    requires nodes != []
    ensures c in CommonNodes(nodes, comps) <==> c in comps && Interested(nodes, c)
  {
    if nodes[0] != "all" && comps != [] {
      var init, last := comps[..|comps| - 1], comps[|comps| - 1];
      assert comps == init + [last];
      CommonNodesExact(nodes, init, c);
    }
  }

  /** The index of the first x in s; past the end if there is none. */
  function FirstPosition(s: seq<string>, x: string): nat {
    if s == [] || s[0] == x then 0 else 1 + FirstPosition(s[1..], x)
  }

  lemma {:induction false} FirstPositionGrows(init: seq<string>, last: string, x: string)
    ensures FirstPosition(init + [last], x)
            == if x in init then FirstPosition(init, x) else if x == last then |init| else |init| + 1
    ensures FirstPosition(init, x) <= |init| && (x in init ==> FirstPosition(init, x) < |init|)
  {
    if init == [] {
      assert ([] + [last])[1..] == [];
    } else {
      assert (init + [last])[1..] == init[1..] + [last];
      FirstPositionGrows(init[1..], last, x);
    }
  }

  /** An explicit node list selects each common component once, in the order in which the SCN
      first mentions them. */
  lemma {:induction false} FirstCommonOrdered(nodes: seq<string>, comps: seq<string>)
    ensures forall i :: 0 <= i < |FirstCommon(nodes, comps)| ==> FirstCommon(nodes, comps)[i] in comps
    ensures forall i, j :: 0 <= i < j < |FirstCommon(nodes, comps)| ==>
              FirstPosition(comps, FirstCommon(nodes, comps)[i]) < FirstPosition(comps, FirstCommon(nodes, comps)[j])
  {
    if comps != [] {
      var init, last := comps[..|comps| - 1], comps[|comps| - 1];
      assert comps == init + [last];
      FirstCommonOrdered(nodes, init);
      var r0, r := FirstCommon(nodes, init), FirstCommon(nodes, comps);
      assert forall i :: 0 <= i < |r0| ==> r[i] == r0[i] && r0[i] in init;
      forall i | 0 <= i < |r|
        ensures FirstPosition(comps, r[i]) == if i < |r0| then FirstPosition(init, r0[i]) else |init|
        ensures i < |r0| ==> FirstPosition(init, r0[i]) < |init|
      {
        FirstPositionGrows(init, last, r[i]);
      }
    }
  }

  /** The elements at these places, which are those of the node-shaped elements. */
  predicate NodesAt(places: seq<int>, comps: seq<string>, r: seq<string>) {
    |places| == |r|
    && (forall i :: 0 <= i < |r| ==> 0 <= places[i] < |comps| && r[i] == comps[places[i]])
    && (forall i, j :: 0 <= i < j < |r| ==> places[i] < places[j])
    && (forall k :: 0 <= k < |comps| && NodeShaped(comps[k]) ==> k in places)
    && (forall i :: 0 <= i < |r| ==> NodeShaped(r[i]))
  }

  /** "all" selects every element of a list; "allnodes" its node-shaped ones, with their repetitions and
      in their places; any other node list the elements it names, each once, in the order in which the
      list first has them. */
  ghost predicate SelectedInOrder(nodes: seq<string>, comps: seq<string>, r: seq<string>) {
    nodes != []
    && (if nodes[0] == "all" then r == comps
        else if nodes[0] == "allnodes" then exists places :: NodesAt(places, comps, r)
        else (forall c :: c in r <==> c in comps && c in nodes)
             && (forall i, j :: 0 <= i < j < |r| ==> FirstPosition(comps, r[i]) < FirstPosition(comps, r[j])))
  }

  lemma NodesAtMore(places: seq<int>, init: seq<string>, last: string, r: seq<string>)
    requires NodesAt(places, init, r)
    ensures NodeShaped(last) ==> NodesAt(places + [|init|], init + [last], r + [last])
    ensures !NodeShaped(last) ==> NodesAt(places, init + [last], r)
  {
  }

  lemma {:induction false} NodesKeepPlaces(comps: seq<string>) returns (places: seq<int>)
    ensures NodesAt(places, comps, NodesOnly(comps))
  {
    places := [];
    if comps != [] {
      var init, last := comps[..|comps| - 1], comps[|comps| - 1];
      places := NodesKeepPlaces(init);
      NodesAtMore(places, init, last, NodesOnly(init));
      assert init + [last] == comps;
      if NodeShaped(last) {
        places := places + [|init|];
      }
    }
  }

  lemma {:induction false} FirstCommonHas(nodes: seq<string>, comps: seq<string>, c: string)
    ensures c in FirstCommon(nodes, comps) <==> c in comps && c in nodes
  {
    if comps != [] {
      assert comps == comps[..|comps| - 1] + [comps[|comps| - 1]];
      FirstCommonHas(nodes, comps[..|comps| - 1], c);
    }
  }

  /** What a node list selects, with order and repetitions. */
  lemma SelectionExactly(nodes: seq<string>, comps: seq<string>)
    requires nodes != []
    ensures SelectedInOrder(nodes, comps, CommonNodes(nodes, comps))
  {
    var places := NodesKeepPlaces(comps);
    FirstCommonOrdered(nodes, comps);
    forall c ensures c in FirstCommon(nodes, comps) <==> c in comps && c in nodes {
      FirstCommonHas(nodes, comps, c);
    }
  }

  // ---------- one SCN against the store ----------

  /** A state of the listed components in which nothing should be sent to them. */
  predicate IsStateUnavailable(scn: Scn) {
    Lower(scn.state) in ["empty", "off", "halt"] || scn.enabled == Some(false)
  }

  /** Only an explicit disabling, or the State Manager's Empty, Off and Halt in any letter case, are
      unavailable; in particular an SCN that says nothing about Enabled is not. */
  lemma UnavailableExactly(scn: Scn)
    ensures IsStateUnavailable(scn) <==>
            (scn.enabled.Some? && !scn.enabled.value)
            || (exists name :: name in {"Empty", "Off", "Halt"} && Lower(scn.state) == Lower(name))
  {
    assert Lower("Empty") == "empty" && Lower("Off") == "off" && Lower("Halt") == "halt";
    assert "Empty" in {"Empty", "Off", "Halt"} && "Off" in {"Empty", "Off", "Halt"}
           && "Halt" in {"Empty", "Off", "Halt"};
  }

  function NonEmpty(s: string): seq<string> {
    if s == "" then [] else [Lower(s)]
  }

  /** The attributes an SCN is matched by. */
  function ScnAttrs(scn: Scn): seq<string> {
    (if scn.enabled.Some? then ["enbl"] else []) + NonEmpty(scn.role) + NonEmpty(scn.subRole)
    + NonEmpty(scn.state) + NonEmpty(scn.softwareStatus)
  }

  method GetScnAttrs(jdata: Scn) returns (attrs: seq<string>)
    ensures attrs == ScnAttrs(jdata)
  {
    attrs := [];
    if jdata.enabled != None { attrs := attrs + ["enbl"]; }
    ghost var enabled := if jdata.enabled.Some? then ["enbl"] else [];
    assert attrs == enabled;
    if jdata.role != "" { attrs := attrs + [Lower(jdata.role)]; }
    assert attrs == enabled + NonEmpty(jdata.role);
    if jdata.subRole != "" { attrs := attrs + [Lower(jdata.subRole)]; }
    assert attrs == enabled + NonEmpty(jdata.role) + NonEmpty(jdata.subRole);
    if jdata.state != "" { attrs := attrs + [Lower(jdata.state)]; }
    assert attrs == enabled + NonEmpty(jdata.role) + NonEmpty(jdata.subRole) + NonEmpty(jdata.state);
    if jdata.softwareStatus != "" { attrs := attrs + [Lower(jdata.softwareStatus)]; }
  }

  predicate Matches(key: string, attrs: seq<string>) {
    exists i :: 0 <= i < |attrs| && Contains(key, attrs[i])
  }

  function AsSet(ss: seq<string>): set<string> {
    set s | s in ss
  }

  /** Marks an SCN adds before it is fanned out. */
  function MarksOf(scn: Scn): set<string> {
    if IsStateUnavailable(scn) then AsSet(LowerAll(scn.components)) else {}
  }

  /** Xnames the fanout of an SCN leaves out, given the marks before it. */
  function Suppressed(scn: Scn, marks: set<string>): set<string> {
    if IsStateUnavailable(scn) then marks + MarksOf(scn) else {}
  }

  /** What is sent: the SCN's header without its Flag, and the selected components. */
  function SendData(scn: Scn, components: seq<string>): Scn {
    Scn(components, scn.enabled, "", scn.role, scn.subRole, scn.softwareStatus, scn.state)
  }

  predicate Wanted(rec: Record, scn: Scn, suppressed: set<string>) {
    Matches(rec.key, ScnAttrs(scn)) && XnameOf(rec.key) !in suppressed
  }

  predicate Selected(rec: Record, scn: Scn, suppressed: set<string>) {
    Wanted(rec, scn, suppressed) && CommonNodes(rec.value.scnNodes, LowerAll(scn.components)) != []
  }

  function JobFor(rec: Record, scn: Scn): Job {
    Job(SendData(scn, CommonNodes(rec.value.scnNodes, LowerAll(scn.components))), XnameOf(rec.key), rec.value.url)
  }

  /** A queued job and the subscription key it came from. */
  datatype Delivery = Delivery(key: string, job: Job)

  function DeliveryOf(rec: Record, scn: Scn): Delivery {
    Delivery(rec.key, JobFor(rec, scn))
  }

  /** What one record adds to a fanout, with its key and without. */
  function DeliveriesOfOne(rec: Record, scn: Scn, suppressed: set<string>): seq<Delivery> {
    if Selected(rec, scn, suppressed) then [DeliveryOf(rec, scn)] else []
  }

  function JobsOfOne(rec: Record, scn: Scn, suppressed: set<string>): seq<Job> {
    if Selected(rec, scn, suppressed) then [JobFor(rec, scn)] else []
  }

  /** The jobs of a range read, in its order. */
  function FanoutOf(list: seq<Record>, scn: Scn, suppressed: set<string>): seq<Delivery> {
    if list == [] then []
    else DeliveriesOfOne(list[0], scn, suppressed) + FanoutOf(list[1..], scn, suppressed)
  }

  function Jobs(ds: seq<Delivery>): (jobs: seq<Job>)
    ensures |jobs| == |ds| && forall i :: 0 <= i < |ds| ==> jobs[i] == ds[i].job
  {
    seq(|ds|, i requires 0 <= i < |ds| => ds[i].job)
  }

  class JobPool {
    var jobs: seq<Job>
  }

  /** Whether the fanout reads an empty node list, which is an index out of range. */
  ghost predicate NodesListed(list: seq<Record>, scn: Scn, suppressed: set<string>) {
    forall i :: 0 <= i < |list| && Wanted(list[i], scn, suppressed) ==> list[i].value.scnNodes != []
  }

  method AttributeMatch(key: string, scnAttrs: seq<string>) returns (attrMatch: bool)
    ensures attrMatch == Matches(key, scnAttrs)
  {
    attrMatch := false;
    for a := 0 to |scnAttrs|
      invariant attrMatch == exists j :: 0 <= j < a && Contains(key, scnAttrs[j])
    {
      var ix := Index(key, scnAttrs[a]);
      assert ix >= 0 <==> Contains(key, scnAttrs[a]);
      if ix >= 0 {
        attrMatch := true;
        break;
      }
    }
  }

  lemma JobsConcat(a: seq<Delivery>, b: seq<Delivery>)
    ensures Jobs(a + b) == Jobs(a) + Jobs(b)
  {
  }

  lemma {:induction false} FanoutAppend(list: seq<Record>, rec: Record, scn: Scn, suppressed: set<string>)
    ensures FanoutOf(list + [rec], scn, suppressed)
            == FanoutOf(list, scn, suppressed) + DeliveriesOfOne(rec, scn, suppressed)
  {
    if list == [] {
      assert ([] + [rec])[1..] == [];
    } else {
      assert (list + [rec])[1..] == list[1..] + [rec];
      FanoutAppend(list[1..], rec, scn, suppressed);
    }
  }

  lemma FanoutStep(list: seq<Record>, i: nat, scn: Scn, suppressed: set<string>)
    requires i < |list|
    ensures Jobs(FanoutOf(list[..i + 1], scn, suppressed))
            == Jobs(FanoutOf(list[..i], scn, suppressed)) + JobsOfOne(list[i], scn, suppressed)
  {
    assert list[..i + 1] == list[..i] + [list[i]];
    FanoutAppend(list[..i], list[i], scn, suppressed);
    JobsConcat(FanoutOf(list[..i], scn, suppressed), DeliveriesOfOne(list[i], scn, suppressed));
  }

  lemma FanoutFirst(list: seq<Record>, scn: Scn, suppressed: set<string>)
    requires list != []
    ensures Jobs(FanoutOf(list, scn, suppressed))
            == JobsOfOne(list[0], scn, suppressed) + Jobs(FanoutOf(list[1..], scn, suppressed))
  {
    JobsConcat(DeliveriesOfOne(list[0], scn, suppressed), FanoutOf(list[1..], scn, suppressed));
  }

  /** Queues the job for one record, if there is one to queue. */
  method QueueOne(pool: JobPool, sub: Record, jdata: Scn, scnAttrs: seq<string>, prune: bool, prunemapCopy: set<string>)
    requires scnAttrs == ScnAttrs(jdata)
    requires Wanted(sub, jdata, if prune then prunemapCopy else {}) ==> sub.value.scnNodes != []
    modifies pool
    ensures pool.jobs == old(pool.jobs) + JobsOfOne(sub, jdata, if prune then prunemapCopy else {})
  {
    var attrMatch := AttributeMatch(sub.key, scnAttrs);
    var subxname := XnameOf(sub.key);
    if attrMatch && !(prune && subxname in prunemapCopy) {
      var common := Intersect(sub.value.scnNodes, LowerAll(jdata.components));
      if |common| >= 1 {
        pool.jobs := pool.jobs + [Job(SendData(jdata, common), subxname, sub.value.url)];
      }
    }
  }

  /** The jobs of the first n records have been queued. */
  ghost predicate QueuedSoFar(before: seq<Job>, now: seq<Job>, list: seq<Record>, n: nat, scn: Scn,
                              suppressed: set<string>)
    requires n <= |list|
  {
    now == before + Jobs(FanoutOf(list[..n], scn, suppressed))
  }

  lemma QueuedStep(before: seq<Job>, now: seq<Job>, list: seq<Record>, n: nat, scn: Scn, suppressed: set<string>)
    requires n < |list| && QueuedSoFar(before, now, list, n, scn, suppressed)
    ensures QueuedSoFar(before, now + JobsOfOne(list[n], scn, suppressed), list, n + 1, scn, suppressed)
  {
    FanoutStep(list, n, scn, suppressed);
  }

  method QueueAll(pool: JobPool, kvlist: seq<Record>, jdata: Scn, scnAttrs: seq<string>, prune: bool,
                  prunemapCopy: set<string>)
    requires scnAttrs == ScnAttrs(jdata)
    requires NodesListed(kvlist, jdata, if prune then prunemapCopy else {})
    modifies pool
    ensures pool.jobs == old(pool.jobs) + Jobs(FanoutOf(kvlist, jdata, if prune then prunemapCopy else {}))
  {
    ghost var suppressed := if prune then prunemapCopy else {};
    for i := 0 to |kvlist|
      invariant QueuedSoFar(old(pool.jobs), pool.jobs, kvlist, i, jdata, suppressed)
    {
      QueuedStep(old(pool.jobs), pool.jobs, kvlist, i, jdata, suppressed);
      QueueOne(pool, kvlist[i], jdata, scnAttrs, prune, prunemapCopy);
    }
    assert kvlist[..|kvlist|] == kvlist;
  }

  method MarkAll(pm: PruneMap, components: seq<string>)
    modifies pm
    ensures pm.marks == old(pm.marks) + AsSet(components)
  {
    for ix := 0 to |components|
      invariant pm.marks == old(pm.marks) + AsSet(components[..ix])
    {
      pm.marks := pm.marks + {components[ix]};
      assert components[..ix + 1] == components[..ix] + [components[ix]];
    }
    assert components[..|components|] == components;
  }

  method DoScn(kv: KvStore, pm: PruneMap, pool: JobPool, jdata: Scn, io: KvIo)
    requires io.rangeOk ==> NodesListed(ListingOf(kv.data, RANGE_START, RANGE_END), jdata, Suppressed(jdata, pm.marks))
    modifies pm, pool
    ensures pm.marks == old(pm.marks) + MarksOf(jdata)
    ensures pool.jobs == old(pool.jobs) +
                         if io.rangeOk then Jobs(FanoutOf(ListingOf(kv.data, RANGE_START, RANGE_END), jdata,
                                                          Suppressed(jdata, old(pm.marks))))
                         else []
  {
    var prune := IsStateUnavailable(jdata);
    var prunemapCopy: set<string> := {};
    if prune {
      MarkAll(pm, LowerAll(jdata.components));
      prunemapCopy := pm.marks;
    }
    var scnAttrs := GetScnAttrs(jdata);
    var ok, kvlist := kv.GetRange(RANGE_START, RANGE_END, io);
    if !ok {
      assert pool.jobs == old(pool.jobs) + [];
      return;
    }
    QueueAll(pool, kvlist, jdata, scnAttrs, prune, prunemapCopy);
  }

  // ---------- what the fanout queues ----------

  lemma ListingHas(data: Db, lo: string, hi: string, list: seq<Record>)
    requires Listing(data, lo, hi, list)
    ensures forall r :: r in list <==> r.key in data && InRange(lo, hi, r.key) && r.value == data[r.key]
  {
    forall r: Record | r.key in data && InRange(lo, hi, r.key) && r.value == data[r.key] ensures r in list {
      assert HasKey(list, r.key);
    }
  }

  /** The fanout has, in key order, one job for each record selected. */
  ghost predicate FanoutExact(list: seq<Record>, scn: Scn, suppressed: set<string>, ds: seq<Delivery>) {
    (forall i, j :: 0 <= i < j < |ds| ==> Less(ds[i].key, ds[j].key))
    && (forall d :: d in ds <==> exists r :: r in list && Selected(r, scn, suppressed) && d == DeliveryOf(r, scn))
  }

  lemma FanoutExactMore(init: seq<Record>, last: Record, scn: Scn, suppressed: set<string>, ds: seq<Delivery>)
    requires Sorted(init + [last]) && FanoutExact(init, scn, suppressed, ds)
    ensures FanoutExact(init + [last], scn, suppressed, ds + DeliveriesOfOne(last, scn, suppressed))
  {
    var list := init + [last];
    assert forall r :: r in list <==> r in init || r == last;
    forall i | 0 <= i < |ds| ensures Less(ds[i].key, last.key) {
      assert ds[i] in ds;
      var r :| r in init && Selected(r, scn, suppressed) && ds[i] == DeliveryOf(r, scn);
      var j :| 0 <= j < |init| && init[j] == r;
      assert list[j] == r && list[|init|] == last;
    }
  }

  lemma {:induction false} FanoutMembers(list: seq<Record>, scn: Scn, suppressed: set<string>)
    requires Sorted(list)
    ensures FanoutExact(list, scn, suppressed, FanoutOf(list, scn, suppressed))
    decreases |list|
  {
    if list != [] {
      var init, last := list[..|list| - 1], list[|list| - 1];
      assert list == init + [last];
      FanoutMembers(init, scn, suppressed);
      FanoutAppend(init, last, scn, suppressed);
      FanoutExactMore(init, last, scn, suppressed, FanoutOf(init, scn, suppressed));
    }
  }

  /** The fanout of an SCN, in key order, holds exactly one job per scanned key that matches, is
      not suppressed and shares a component with it, and no other job. */
  lemma FanoutIsFilterMap(data: Db, scn: Scn, suppressed: set<string>)
    ensures var ds := FanoutOf(ListingOf(data, RANGE_START, RANGE_END), scn, suppressed);
            (forall i, j :: 0 <= i < j < |ds| ==> Less(ds[i].key, ds[j].key))
            && (forall d :: d in ds <==>
                  d.key in data && Scanned(d.key) && Selected(Record(d.key, data[d.key]), scn, suppressed)
                  && d == DeliveryOf(Record(d.key, data[d.key]), scn))
  {
    var list := ListingOf(data, RANGE_START, RANGE_END);
    var ds := FanoutOf(list, scn, suppressed);
    FanoutMembers(list, scn, suppressed);
    ListingHas(data, RANGE_START, RANGE_END, list);
    forall d
      ensures d in ds <==>
              d.key in data && Scanned(d.key) && Selected(Record(d.key, data[d.key]), scn, suppressed)
              && d == DeliveryOf(Record(d.key, data[d.key]), scn)
    {
      if d in ds {
        var r :| r in list && Selected(r, scn, suppressed) && d == DeliveryOf(r, scn);
        assert r == Record(d.key, data[d.key]);
      }
      if d.key in data && Scanned(d.key) && Selected(Record(d.key, data[d.key]), scn, suppressed)
         && d == DeliveryOf(Record(d.key, data[d.key]), scn) {
        assert Record(d.key, data[d.key]) in list;
      }
    }
  }

  /** Every queued job goes to the owner's xname and the stored Url, repeats the SCN's header except
      its Flag, and lists the components that the stored node list selects from the SCN's, in order. */
  lemma JobsRepeatTheScn(data: Db, scn: Scn, suppressed: set<string>, d: Delivery, c: string)
    requires d in FanoutOf(ListingOf(data, RANGE_START, RANGE_END), scn, suppressed)
    requires d.key in data ==> data[d.key].scnNodes != []
    ensures d.key in data && d.job.url == data[d.key].url && d.job.subscriber == XnameOf(d.key)
    ensures var sent := d.job.scn;
            sent.state == scn.state && sent.role == scn.role && sent.subRole == scn.subRole && sent.flag == ""
            && sent.softwareStatus == scn.softwareStatus && sent.enabled == scn.enabled && sent.components != []
            && (c in sent.components <==> c in LowerAll(scn.components) && Interested(data[d.key].scnNodes, c))
            && SelectedInOrder(data[d.key].scnNodes, LowerAll(scn.components), sent.components)
  {
    FanoutIsFilterMap(data, scn, suppressed);
    SelectionExactly(data[d.key].scnNodes, LowerAll(scn.components));
    CommonNodesExact(data[d.key].scnNodes, LowerAll(scn.components), c);
  }

  /** An SCN is matched by "enbl" if it reports Enabled, and by the non-empty ones among its role,
      subrole, state and software status, lower-cased. */
  lemma AttributesMatched(scn: Scn, a: string)
    ensures a in ScnAttrs(scn) <==>
            (a == "enbl" && scn.enabled.Some?)
            || (a != "" && (a == Lower(scn.role) || a == Lower(scn.subRole) || a == Lower(scn.state)
                            || a == Lower(scn.softwareStatus)))
  {
    assert |Lower(scn.role)| == |scn.role| && |Lower(scn.subRole)| == |scn.subRole|;
    assert |Lower(scn.state)| == |scn.state| && |Lower(scn.softwareStatus)| == |scn.softwareStatus|;
  }

  /** One piece of a key carries something the SCN reports. */
  predicate PieceMatches(piece: string, scn: Scn) {
    (scn.enabled.Some? && Contains(piece, "enbl"))
    || (scn.role != "" && Contains(piece, Lower(scn.role)))
    || (scn.subRole != "" && Contains(piece, Lower(scn.subRole)))
    || (scn.state != "" && Contains(piece, Lower(scn.state)))
    || (scn.softwareStatus != "" && Contains(piece, Lower(scn.softwareStatus)))
  }

  lemma PieceMatchesAttribute(piece: string, scn: Scn)
    ensures PieceMatches(piece, scn) <==> exists a :: a in ScnAttrs(scn) && Contains(piece, a)
  {
    forall a | a in ScnAttrs(scn) && Contains(piece, a) ensures PieceMatches(piece, scn) {
      AttributesMatched(scn, a);
    }
    AttributesMatched(scn, "enbl");
    AttributesMatched(scn, Lower(scn.role));
    AttributesMatched(scn, Lower(scn.subRole));
    AttributesMatched(scn, Lower(scn.state));
    AttributesMatched(scn, Lower(scn.softwareStatus));
  }

  /** The loop over attributes and raw keys matches an SCN of delimiter-free fields exactly if some
      piece between a key's delimiters carries its Enabled tag, role, subrole, state or software status. */
  lemma ScnMatchesExactly(key: string, scn: Scn)
    requires forall a :: a in ScnAttrs(scn) ==> '#' !in a && '.' !in a
    ensures var pieces := Segments(Split(key, '#'));
            Matches(key, ScnAttrs(scn)) <==> exists i :: 0 <= i < |pieces| && PieceMatches(pieces[i], scn)
  {
    var pieces, attrs := Segments(Split(key, '#')), ScnAttrs(scn);
    if Matches(key, attrs) {
      var j :| 0 <= j < |attrs| && Contains(key, attrs[j]);
      assert attrs[j] in attrs;
      AttributesMatched(scn, attrs[j]);
      AttributeInSegment(key, attrs[j]);
      var i :| 0 <= i < |pieces| && Contains(pieces[i], attrs[j]);
      PieceMatchesAttribute(pieces[i], scn);
    }
    if i :| 0 <= i < |pieces| && PieceMatches(pieces[i], scn) {
      PieceMatchesAttribute(pieces[i], scn);
      var a :| a in attrs && Contains(pieces[i], a);
      AttributesMatched(scn, a);
      AttributeInSegment(key, a);
      var j :| 0 <= j < |attrs| && attrs[j] == a;
    }
  }

  /** An unavailability notice is sent neither to a component it lists nor to a subscriber that
      was already marked for pruning. */
  lemma NothingToTheUnavailable(data: Db, scn: Scn, marks: set<string>)
    requires IsStateUnavailable(scn)
    ensures var ds := FanoutOf(ListingOf(data, RANGE_START, RANGE_END), scn, Suppressed(scn, marks));
            forall i :: 0 <= i < |ds| ==>
              ds[i].job.subscriber !in marks && ds[i].job.subscriber !in LowerAll(scn.components)
  {
    var ds := FanoutOf(ListingOf(data, RANGE_START, RANGE_END), scn, Suppressed(scn, marks));
    FanoutIsFilterMap(data, scn, Suppressed(scn, marks));
    forall i | 0 <= i < |ds|
      ensures ds[i].job.subscriber !in marks && ds[i].job.subscriber !in LowerAll(scn.components)
    {
      assert ds[i] in ds;
    }
  }

  lemma AskedIsSelected(data: Db, scn: Scn, suppressed: set<string>, sub: Subscription, attr: string, c: string)
    requires sub.xname != "" && 'a' <= sub.xname[0] <= 'y' && '#' !in sub.xname && sub.xname !in suppressed
    requires sub.Key() in data && Interested(data[sub.Key()].scnNodes, c) && c in LowerAll(scn.components)
    requires attr != "" && '#' !in attr && '.' !in attr && attr in ScnAttrs(scn) && AsksFor(sub.body, attr)
    ensures var rec := Record(sub.Key(), data[sub.Key()]);
            Scanned(rec.key) && Selected(rec, scn, suppressed) && JobFor(rec, scn).subscriber == sub.xname
            && c in JobFor(rec, scn).scn.components
  {
    ListedAttributeFound(sub.body, sub.xname, sub.agent, attr);
    ScannedExactly(sub.body, sub.xname, sub.agent);
    XnameOfKey(sub.body, sub.xname, sub.agent);
    CommonNodesExact(data[sub.Key()].scnNodes, LowerAll(scn.components), c);
  }

  /** A subscription stored under its printed key, asking for an attribute the SCN carries and
      interested in a component it lists, gets a job naming that component, unless suppressed. */
  lemma NoMissedNotification(data: Db, scn: Scn, suppressed: set<string>, sub: Subscription, attr: string, c: string)
    requires sub.xname != "" && 'a' <= sub.xname[0] <= 'y' && '#' !in sub.xname && sub.xname !in suppressed
    requires sub.Key() in data && Interested(data[sub.Key()].scnNodes, c) && c in LowerAll(scn.components)
    requires attr != "" && '#' !in attr && '.' !in attr && attr in ScnAttrs(scn) && AsksFor(sub.body, attr)
    ensures var ds := FanoutOf(ListingOf(data, RANGE_START, RANGE_END), scn, suppressed);
            exists i :: 0 <= i < |ds| && ds[i].key == sub.Key() && ds[i].job.subscriber == sub.xname
                        && ds[i].job.url == data[sub.Key()].url && c in ds[i].job.scn.components
  {
    AskedIsSelected(data, scn, suppressed, sub, attr, c);
    FanoutIsFilterMap(data, scn, suppressed);
    var rec := Record(sub.Key(), data[sub.Key()]);
    assert DeliveryOf(rec, scn) in FanoutOf(ListingOf(data, RANGE_START, RANGE_END), scn, suppressed);
  }

  // ---------- sending one job ----------

  /** How one attempt to POST an SCN ends. */
  datatype Outcome = NoRequest | Refused | SendError | Status(code: int)

  datatype SendEnd = SendEnd(attempts: int, prune: bool)

  /** The attempts from number n on. */
  function SendFrom(outcome: int -> Outcome, n: int, retries: int): SendEnd
    decreases retries - n
  {
    if n > retries then SendEnd(n - 1, true)
    else if outcome(n) == Status(200) then SendEnd(n, false)
    else if outcome(n) == Refused then SendEnd(n, true)
    else SendFrom(outcome, n + 1, retries)
  }

  /** What sending does to the prune map. */
  function MarksOfSend(job: Job, marks: set<string>, outcome: int -> Outcome, retries: int): set<string> {
    if job.url == "" || job.subscriber in marks then {}
    else if SendFrom(outcome, 1, retries).prune then {job.subscriber}
    else {}
  }

  /** How many attempts sending makes. */
  function AttemptsOfSend(job: Job, marks: set<string>, outcome: int -> Outcome, retries: int): int {
    if job.url == "" || job.subscriber in marks then 0 else SendFrom(outcome, 1, retries).attempts
  }

  method SendScnToSubscriber(pm: PruneMap, job: Job, outcome: int -> Outcome, retries: int) returns (attempts: int)
    modifies pm
    ensures attempts == AttemptsOfSend(job, old(pm.marks), outcome, retries)
    ensures pm.marks == old(pm.marks) + MarksOfSend(job, old(pm.marks), outcome, retries)
  {
    attempts := 0;
    if job.url == "" {
      return;
    }
    if job.subscriber in pm.marks {
      return;
    }
    var retry := 1;
    while retry <= retries
      invariant retry >= 1 && attempts == retry - 1 && pm.marks == old(pm.marks)
      invariant SendFrom(outcome, retry, retries) == SendFrom(outcome, 1, retries)
    {
      attempts := attempts + 1;
      match outcome(retry) {
        case Refused =>
          pm.marks := pm.marks + {job.subscriber};
          return;
        case Status(code) =>
          if code == 200 {
            break;
          }
        case _ =>
      }
      retry := retry + 1;
    }
    if retry > retries {
      pm.marks := pm.marks + {job.subscriber};
    }
  }

  predicate Stops(o: Outcome) {
    o == Status(200) || o == Refused
  }

  /** None of the attempts from n on, up to but not including r, is answered with 200. */
  predicate NoneOk(outcome: int -> Outcome, n: int, r: int) {
    forall m :: n <= m < r ==> outcome(m) != Status(200)
  }

  /** The retry loop, for every sequence of outcomes: it stops at the first 200 or refusal, makes no
      more than the allowed attempts, and gives the subscriber up exactly if a refusal came before
      any 200 or no attempt was answered with 200. */
  lemma {:induction false} SendExact(outcome: int -> Outcome, n: int, retries: int)
    requires 1 <= n
    ensures var end := SendFrom(outcome, n, retries);
            n - 1 <= end.attempts && (end.attempts <= retries || end.attempts == n - 1)
            && (forall m :: n <= m < end.attempts ==> !Stops(outcome(m)))
            && (end.attempts < retries ==> n <= end.attempts && Stops(outcome(end.attempts)))
            && (end.prune <==>
                (exists r :: n <= r <= retries && outcome(r) == Refused && NoneOk(outcome, n, r))
                || NoneOk(outcome, n, retries + 1))
    decreases retries - n
  {
    if n > retries {
    } else if outcome(n) == Status(200) {
    } else if outcome(n) == Refused {
    } else {
      SendExact(outcome, n + 1, retries);
      if r :| n <= r <= retries && outcome(r) == Refused && NoneOk(outcome, n, r) {
        assert n + 1 <= r && NoneOk(outcome, n + 1, r);
      }
      if r :| n + 1 <= r <= retries && outcome(r) == Refused && NoneOk(outcome, n + 1, r) {
        assert NoneOk(outcome, n, r);
      }
    }
  }

  /** What running a job does, for every sequence of outcomes: nothing for an empty Url or a subscriber
      already marked; otherwise it attempts until the first 200 or refusal, or as often as it may, and
      marks the subscriber exactly if that was a refusal or no attempt was answered with 200. */
  lemma SendMarksExactly(job: Job, marks: set<string>, outcome: int -> Outcome, retries: int)
    ensures var n, added := AttemptsOfSend(job, marks, outcome, retries), MarksOfSend(job, marks, outcome, retries);
            if job.url == "" || job.subscriber in marks then n == 0 && added == {}
            else
              0 <= n && (n == 0 || n <= retries)
              && (forall m :: 1 <= m < n ==> outcome(m) != Status(200) && outcome(m) != Refused)
              && (n < retries ==> n >= 1 && (outcome(n) == Status(200) || outcome(n) == Refused))
              && added == if n >= 1 && outcome(n) == Status(200) then {} else {job.subscriber}
  {
    if job.url != "" && job.subscriber !in marks {
      SendExact(outcome, 1, retries);
      SendEndsWith(outcome, 1, retries);
    }
  }

  lemma {:induction false} SendEndsWith(outcome: int -> Outcome, n: int, retries: int)
    requires 1 <= n
    ensures var end := SendFrom(outcome, n, retries);
            end.prune <==> !(end.attempts >= n && outcome(end.attempts) == Status(200))
    decreases retries - n
  {
    if n <= retries && outcome(n) != Status(200) && outcome(n) != Refused {
      SendEndsWith(outcome, n + 1, retries);
    }
  }

  // ---------- the dead-node pass ----------

  /** Owners of scanned subscriptions that the State Manager reports in a bad state. */
  function DeadOwners(data: Db, bad: set<string>): set<string> {
    set k | k in data && Scanned(k) && XnameOf(k) in bad :: XnameOf(k)
  }

  function DeadAmong(list: seq<Record>, bad: set<string>): set<string> {
    if list == [] then {}
    else DeadAmong(list[1..], bad) + if XnameOf(list[0].key) in bad then {XnameOf(list[0].key)} else {}
  }

  lemma {:induction false} DeadAmongMeans(list: seq<Record>, bad: set<string>)
    ensures forall x :: x in DeadAmong(list, bad) <==> x in bad && exists r :: r in list && XnameOf(r.key) == x
  {
    if list != [] {
      DeadAmongMeans(list[1..], bad);
      assert list == [list[0]] + list[1..];
      assert forall r :: r in list <==> r == list[0] || r in list[1..];
    }
  }

  lemma {:induction false} DeadAmongAppend(list: seq<Record>, rec: Record, bad: set<string>)
    ensures DeadAmong(list + [rec], bad)
            == DeadAmong(list, bad) + if XnameOf(rec.key) in bad then {XnameOf(rec.key)} else {}
  {
    if list == [] {
      assert ([] + [rec])[1..] == [];
    } else {
      assert (list + [rec])[1..] == list[1..] + [rec];
      DeadAmongAppend(list[1..], rec, bad);
    }
  }

  lemma DeadAmongAll(data: Db, bad: set<string>)
    ensures DeadAmong(ListingOf(data, RANGE_START, RANGE_END), bad) == DeadOwners(data, bad)
  {
    var list := ListingOf(data, RANGE_START, RANGE_END);
    ListingHas(data, RANGE_START, RANGE_END, list);
    DeadAmongMeans(list, bad);
    forall x | x in DeadOwners(data, bad) ensures x in DeadAmong(list, bad) {
      var k :| k in data && Scanned(k) && XnameOf(k) in bad && XnameOf(k) == x;
      assert Record(k, data[k]) in list;
    }
  }

  lemma DeadAmongStep(list: seq<Record>, i: nat, bad: set<string>)
    requires i < |list|
    ensures DeadAmong(list[..i + 1], bad)
            == DeadAmong(list[..i], bad) + if XnameOf(list[i].key) in bad then {XnameOf(list[i].key)} else {}
  {
    assert list[..i + 1] == list[..i] + [list[i]];
    DeadAmongAppend(list[..i], list[i], bad);
  }

  method BuryOne(pm: PruneMap, sub: Record, bad: set<string>)
    modifies pm
    ensures pm.marks == old(pm.marks) + if XnameOf(sub.key) in bad then {XnameOf(sub.key)} else {}
  {
    var xname := XnameOf(sub.key);
    if xname in bad {
      pm.marks := pm.marks + {xname};
    }
  }

  method PruneDeadWood(kv: KvStore, pm: PruneMap, bad: set<string>, io: KvIo)
    modifies pm
    ensures pm.marks == old(pm.marks) + if io.rangeOk then DeadOwners(kv.data, bad) else {}
  {
    var ok, kvlist := kv.GetRange(RANGE_START, RANGE_END, io);
    if !ok {
      return;
    }
    for i := 0 to |kvlist|
      invariant pm.marks == old(pm.marks) + DeadAmong(kvlist[..i], bad)
    {
      DeadAmongStep(kvlist, i, bad);
      BuryOne(pm, kvlist[i], bad);
    }
    assert kvlist[..|kvlist|] == kvlist;
    DeadAmongAll(kv.data, bad);
  }
}
