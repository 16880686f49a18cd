/** The substring shortcuts that find a key's owner without tokenising it, and exactly
    when they agree with the tokens the key was printed from. */
module Scanners {
  import opened Text
  import opened Types
  import opened SubscriptionKey

  /** toks[1] of the key; every key of the scanned ranges has it. */
  function XnameOf(key: string): string {
    var toks := Split(key, '#');
    if |toks| < 2 then "" else toks[1]
  }

  /** Outcome of a scan. OutOfRange stands for a slice expression that panics. */
  datatype AgentScan = NoAgent | Agent(name: string) | OutOfRange

  function AgentName(scan: AgentScan): string {
    if scan.Agent? then scan.name else ""
  }

  /** DELETE and prune: the first "svc" anywhere in the key, skip one character, take
      everything up to the next '#'. */
  function ScanAgent(key: string): AgentScan {
    var ix := Index(key, "svc");
    if ix <= 0 then NoAgent
    else if ix + 4 > |key| then OutOfRange
    else Agent(Split(key[ix + 4..], '#')[0])
  }

  /** PATCH: the first "svc." anywhere in the key; the end of the agent is looked up relative
      to that position but used as an absolute one. */
  function ScanAgentPatch(key: string): AgentScan {
    var ix := Index(key, "svc.");
    if ix <= 0 then NoAgent
    else
      var iy := Index(key[ix..], "#");
      if iy == -1 then Agent(key[ix + 4..])
      else if ix + 4 > iy - 1 then OutOfRange
      else Agent(key[ix + 4..iy - 1])
  }

  /** `agent@xname`, or the bare xname when the key names no agent. */
  function OwnerLabel(xname: string, agent: string): string {
    if agent == "" then xname else agent + "@" + xname
  }

  function KeyLabel(key: string): string {
    var scan := ScanAgent(key);
    if scan.Agent? then scan.name + "@" + XnameOf(key) else XnameOf(key)
  }

  // ---------- where "svc" can occur in a printed key ----------

  predicate SvcFreeAll(vals: seq<string>) {
    forall i :: 0 <= i < |vals| ==> !Contains(Lower(vals[i]), "svc")
  }

  /** Neither the xname nor an attribute value contains the letters "svc". */
  predicate SvcFree(sub: ScnSubscribe, xname: string) {
    !Contains(xname, "svc") && SvcFreeAll(sub.states) && SvcFreeAll(sub.softwareStatus)
    && SvcFreeAll(sub.roles) && SvcFreeAll(sub.subRoles)
  }

  lemma CategoryHasSvc(tag: string, vals: seq<string>)
    requires 'v' !in tag
    ensures AnyContains(Category(tag, vals), "svc") <==> !SvcFreeAll(vals)
  {
    var parts := [tag] + LowerAll(vals);
    MissingLetter(tag, "svc", 'v');
    ContainsJoin(parts, '.', "svc");
    assert parts[1..] == LowerAll(vals);
    AnyContainsMeans(LowerAll(vals), "svc");
  }

  lemma EnabledHasNoSvc(enabled: Option<bool>)
    ensures !AnyContains(EnabledToken(enabled), "svc")
  {
    MissingLetter(Join(["enbl", "enbl"], '.'), "svc", 'v');
  }

  /** The printed key without its agent contains "svc" exactly if the xname or a value does. */
  lemma HeadHasSvc(sub: ScnSubscribe, xname: string)
    ensures Contains(HeadOf(sub, xname), "svc") <==> !SvcFree(sub, xname)
  {
    var hs, ss, en := Category("hs", sub.states), Category("ss", sub.softwareStatus), EnabledToken(sub.enabled);
    var ro, sr := Category("roles", sub.roles), Category("subroles", sub.subRoles);
    var p := ["sub", xname];
    ContainsJoin(HeadTokens(sub, xname), '#', "svc");
    AnyContainsAppend(p + hs + ss + en + ro, sr, "svc");
    AnyContainsAppend(p + hs + ss + en, ro, "svc");
    AnyContainsAppend(p + hs + ss, en, "svc");
    AnyContainsAppend(p + hs, ss, "svc");
    AnyContainsAppend(p, hs, "svc");
    MissingLetter("sub", "svc", 'v');
    assert p[1..] == [xname];
    CategoryHasSvc("hs", sub.states);
    CategoryHasSvc("ss", sub.softwareStatus);
    CategoryHasSvc("roles", sub.roles);
    CategoryHasSvc("subroles", sub.subRoles);
    EnabledHasNoSvc(sub.enabled);
  }

  function HeadOf(sub: ScnSubscribe, xname: string): string {
    Join(HeadTokens(sub, xname), '#')
  }

  /** A printed key is its head, then '#' and the agent token if there is an agent. */
  lemma KeyIsHeadThenAgent(sub: ScnSubscribe, xname: string, agent: string)
    ensures KeyOf(sub, xname, agent) == HeadOf(sub, xname) + (if agent == "" then "" else "#" + ("svc." + agent))
  {
    if agent == "" {
      assert HeadTokens(sub, xname) + [] == HeadTokens(sub, xname);
    } else {
      assert ["svc", agent][1..] == [agent];
      assert Join(["svc", agent], '.') == "svc." + agent;
      JoinAppend(HeadTokens(sub, xname), "svc." + agent, '#');
    }
  }

  lemma HeadStart(sub: ScnSubscribe, xname: string)
    ensures "sub#" + xname <= HeadOf(sub, xname)
    ensures HeadOf(sub, xname) == "sub#" + xname || "sub#" + xname + "#" <= HeadOf(sub, xname)
  {
    var toks := HeadTokens(sub, xname);
    assert toks[0] == "sub" && toks[1] == xname;
    assert Join(toks, '#') == "sub" + "#" + Join(toks[1..], '#');
    if |toks| == 2 {
      assert toks[1..] == [xname];
    } else {
      assert Join(toks[1..], '#') == xname + "#" + Join(toks[1..][1..], '#');
    }
  }

  /** The agent token's "svc" is the first one after a head without "svc". */
  lemma FirstSvc(head: string, agent: string, sub: string)
    requires sub == "svc" || sub == "svc."
    requires !Contains(head, "svc")
    ensures Index(head + "#" + ("svc." + agent), sub) == |head| + 1
  {
    var key := head + "#" + ("svc." + agent);
    assert OccursAt(key, sub, |head| + 1) by {
      assert key[|head| + 1..] == "svc." + agent;
    }
    forall i | OccursAt(key, sub, i) ensures i >= |head| + 1 {
      assert sub[..3] == "svc" && key[i..i + 3] == key[i..i + |sub|][..3];
      assert OccursAt(key, "svc", i);
      OccursAroundDelimiter(head, '#', "svc." + agent, "svc", i);
    }
  }

  // ---------- agreement ----------

  lemma ScanPastHead(head: string, agent: string)
    requires !Contains(head, "svc") && '#' !in agent
    ensures ScanAgent(head + "#" + ("svc." + agent)) == Agent(agent)
    ensures ScanAgentPatch(head + "#" + ("svc." + agent)) == Agent(agent)
  {
    var key := head + "#" + ("svc." + agent);
    FirstSvc(head, agent, "svc");
    FirstSvc(head, agent, "svc.");
    assert key[|head| + 1..] == "svc." + agent;
    assert key[|head| + 1 + 4..] == agent;
    SplitFree(agent, '#');
    NoHash("svc." + agent);
  }

  lemma ScanHeadOnly(head: string)
    requires !Contains(head, "svc")
    ensures ScanAgent(head) == NoAgent && ScanAgentPatch(head) == NoAgent
  {
    assert Index(head, "svc") == -1;
    var ix := Index(head, "svc.");
    if ix >= 0 {
      assert head[ix..ix + 4][..3] == head[ix..ix + 3];
      assert OccursAt(head, "svc", ix);
      assert false;
    }
  }

  lemma ScanSplitKey(key: string, head: string, agent: string)
    requires !Contains(head, "svc") && '#' !in agent
    requires key == head + (if agent == "" then "" else "#" + ("svc." + agent))
    ensures ScanAgent(key) == if agent == "" then NoAgent else Agent(agent)
    ensures ScanAgentPatch(key) == if agent == "" then NoAgent else Agent(agent)
  {
    if agent == "" {
      assert key == head;
      ScanHeadOnly(head);
    } else {
      assert key == head + "#" + ("svc." + agent);
      ScanPastHead(head, agent);
    }
  }

  /** On a printed key whose xname and values are free of "svc", both scanners return the
      agent the key was printed with, and neither slices out of range. */
  lemma ScannersFindAgent(sub: ScnSubscribe, xname: string, agent: string)
    requires SvcFree(sub, xname) && '#' !in agent
    ensures ScanAgent(KeyOf(sub, xname, agent)) == if agent == "" then NoAgent else Agent(agent)
    ensures ScanAgentPatch(KeyOf(sub, xname, agent)) == if agent == "" then NoAgent else Agent(agent)
  {
    HeadHasSvc(sub, xname);
    KeyIsHeadThenAgent(sub, xname, agent);
    ScanSplitKey(KeyOf(sub, xname, agent), HeadOf(sub, xname), agent);
  }

  lemma NoHash(s: string)
    requires '#' !in s
    ensures Index(s, "#") == -1
  {
    if Contains(s, "#") {
      var i :| OccursAt(s, "#", i);
      OccurrenceCovers(s, "#", i, i);
      assert false;
    }
  }

  lemma AgentKey(sub: ScnSubscribe, xname: string, agent: string)
    requires agent != ""
    ensures KeyOf(sub, xname, agent) == HeadOf(sub, xname) + "#" + ("svc." + agent) && "sub#" <= HeadOf(sub, xname)
  {
    KeyIsHeadThenAgent(sub, xname, agent);
    HeadStart(sub, xname);
  }

  lemma ScannerMisses(sub: ScnSubscribe, xname: string) returns (agent: string)
    requires !SvcFree(sub, xname)
    ensures agent != "" && '#' !in agent && '.' !in agent && ScanAgent(KeyOf(sub, xname, agent)) != Agent(agent)
  {
    HeadHasSvc(sub, xname);
    AgentKey(sub, xname, "a");
    AgentKey(sub, xname, "b");
    ScanMissesSomeAgent(HeadOf(sub, xname));
    agent := if ScanAgent(KeyOf(sub, xname, "a")) != Agent("a") then "a" else "b";
  }

  /** The DELETE and prune scanner finds every possible agent exactly when the xname and the
      values are free of "svc". */
  lemma ScannerExact(sub: ScnSubscribe, xname: string)
    ensures (forall agent :: agent != "" && '#' !in agent && '.' !in agent
                             ==> ScanAgent(KeyOf(sub, xname, agent)) == Agent(agent))
            <==> SvcFree(sub, xname)
  {
    if SvcFree(sub, xname) {
      forall agent | agent != "" && '#' !in agent && '.' !in agent
        ensures ScanAgent(KeyOf(sub, xname, agent)) == Agent(agent)
      {
        ScannersFindAgent(sub, xname, agent);
      }
    } else {
      var agent := ScannerMisses(sub, xname);
    }
  }

  /** "all_svc" is an xname the xname library knows; the scanner misreads some agent under it. */
  lemma AllSvcMisread(sub: ScnSubscribe)
    ensures exists agent :: agent != "" && '#' !in agent && '.' !in agent
                            && ScanAgent(KeyOf(sub, "all_svc", agent)) != Agent(agent)
  {
    assert OccursAt("all_svc", "svc", 4);
    ScannerExact(sub, "all_svc");
  }

  /** "svc" found in the head is also the first one in any longer key. */
  lemma FirstSvcInHead(head: string, tail: string)
    requires "sub#" <= head && Contains(head, "svc")
    ensures Index(head + "#" + tail, "svc") == Index(head, "svc") > 0
  {
    var key := head + "#" + tail;
    var ix := Index(head, "svc");
    assert head[..4] == "sub#" && head[0..3] == head[..4][..3] == "sub";
    assert ix != 0;
    OccursAroundDelimiter(head, '#', tail, "svc", ix);
    var kx := Index(key, "svc");
    OccursAroundDelimiter(head, '#', tail, "svc", kx);
  }

  /** What the scanner returns when "svc" occurs before the agent token: text of the head,
      the same for every agent, or the whole agent token. */
  lemma ScanStopsInHead(head: string, agent: string, ix: int)
    requires "sub#" <= head && Contains(head, "svc") && '#' !in agent && ix == Index(head, "svc")
    ensures 0 < ix <= |head| - 3
    ensures ScanAgent(head + "#" + ("svc." + agent))
            == Agent(if ix + 3 == |head| then "svc." + agent else Split(head[ix + 4..], '#')[0])
  {
    FirstSvcInHead(head, "svc." + agent);
    AgentTokenHasNoHash(agent);
    ScanAt(head + "#" + ("svc." + agent), ix);
    ScanFrom(head, "svc." + agent, ix + 4);
  }

  lemma ScanAt(key: string, ix: int)
    requires ix == Index(key, "svc") && 0 < ix <= |key| - 4
    ensures ScanAgent(key) == Agent(Split(key[ix + 4..], '#')[0])
  {
  }

  lemma AgentTokenHasNoHash(agent: string)
    requires '#' !in agent
    ensures '#' !in "svc." + agent
  {
  }

  /** Skipping n characters of head#tail and reading up to the next '#'. */
  lemma ScanFrom(head: string, tail: string, n: nat)
    requires '#' !in tail && n <= |head| + 1
    ensures Split((head + "#" + tail)[n..], '#')[0] == if n == |head| + 1 then tail else Split(head[n..], '#')[0]
  {
    if n == |head| + 1 {
      assert (head + "#" + tail)[n..] == tail;
      SplitFree(tail, '#');
    } else {
      assert (head + "#" + tail)[n..] == head[n..] + "#" + tail;
      FirstPieceIgnoresTail(head[n..], '#', tail);
    }
  }

  lemma ScanMissesSomeAgent(head: string)
    requires "sub#" <= head && Contains(head, "svc")
    ensures ScanAgent(head + "#" + ("svc." + "a")) != Agent("a") || ScanAgent(head + "#" + ("svc." + "b")) != Agent("b")
  {
    ScanStopsInHead(head, "a", Index(head, "svc"));
    ScanStopsInHead(head, "b", Index(head, "svc"));
    assert |"svc." + "a"| == 5;
  }

  // ---------- PATCH's search, exactly ----------

  predicate EndsWith(s: string, t: string) {
    |t| <= |s| && s[|s| - |t|..] == t
  }

  /** "svc." in a dotted text lies in one side, or is made by the left side's "svc" and the dot. */
  lemma SvcDotAcross(a: string, b: string)
    ensures Contains(a + "." + b, "svc.") <==> Contains(a, "svc.") || EndsWith(a, "svc") || Contains(b, "svc.")
  {
    var s := a + "." + b;
    if Contains(s, "svc.") {
      var i :| OccursAt(s, "svc.", i);
      SvcDotSide(a, b, i);
    }
    if Contains(a, "svc.") {
      var i :| 0 <= i <= |a| - 4 && OccursAt(a, "svc.", i);
      OccursInFront(a + ".", b, "svc.", i);
      OccursInFront(a, ".", "svc.", i);
    }
    if EndsWith(a, "svc") {
      assert (a + ".")[|a| - 3..|a| + 1] == a[|a| - 3..] + "." == "svc.";
      OccursInFront(a + ".", b, "svc.", |a| - 3);
    }
    if Contains(b, "svc.") {
      var i :| 0 <= i <= |b| - 4 && OccursAt(b, "svc.", i);
      OccursBehind(a + ".", b, "svc.", i);
    }
  }

  lemma SvcDotSide(a: string, b: string, i: int)
    requires OccursAt(a + "." + b, "svc.", i)
    ensures Contains(a, "svc.") || EndsWith(a, "svc") || Contains(b, "svc.")
  {
    var s := a + "." + b;
    if i + 4 <= |a| {
      OccursInFront(a + ".", b, "svc.", i);
      OccursInFront(a, ".", "svc.", i);
    } else if i <= |a| {
      OccursChar(s, "svc.", i, |a| - i);
      assert s[|a|] == '.' && |a| - i == 3;
      assert a[i..] == s[i..i + 4][..3];
    } else {
      OccursBehind(a + ".", b, "svc.", i - |a| - 1);
    }
  }

  /** Some part contains "svc.", or ends in "svc" and has another part after it. */
  predicate SvcDotIn(parts: seq<string>) {
    parts != [] && (Contains(parts[0], "svc.") || (|parts| > 1 && EndsWith(parts[0], "svc")) || SvcDotIn(parts[1..]))
  }

  lemma {:induction false} SvcDotJoined(parts: seq<string>)
    requires |parts| >= 1
    ensures Contains(Join(parts, '.'), "svc.") <==> SvcDotIn(parts)
  {
    if |parts| > 1 {
      SvcDotJoined(parts[1..]);
      SvcDotAcross(parts[0], Join(parts[1..], '.'));
    }
  }

  /** No value contains "svc.", and none but the last ends in "svc". */
  predicate SvcDotFreeAll(vals: seq<string>) {
    forall i :: 0 <= i < |vals| ==>
      !Contains(Lower(vals[i]), "svc.") && (i < |vals| - 1 ==> !EndsWith(Lower(vals[i]), "svc"))
  }

  predicate SvcDotFree(sub: ScnSubscribe, xname: string) {
    !Contains(xname, "svc.") && SvcDotFreeAll(sub.states) && SvcDotFreeAll(sub.softwareStatus)
    && SvcDotFreeAll(sub.roles) && SvcDotFreeAll(sub.subRoles)
  }

  lemma {:induction false} SvcDotInMeans(parts: seq<string>)
    ensures SvcDotIn(parts) <==>
            exists i :: 0 <= i < |parts|
              && (Contains(parts[i], "svc.") || (i < |parts| - 1 && EndsWith(parts[i], "svc")))
  {
    if parts != [] {
      var rest := parts[1..];
      SvcDotInMeans(rest);
      if SvcDotIn(rest) {
        var i :| 0 <= i < |rest| && (Contains(rest[i], "svc.") || (i < |rest| - 1 && EndsWith(rest[i], "svc")));
        assert rest[i] == parts[i + 1];
      }
      if i :| 0 <= i < |parts| && (Contains(parts[i], "svc.") || (i < |parts| - 1 && EndsWith(parts[i], "svc"))) {
        assert i > 0 ==> rest[i - 1] == parts[i];
      }
    }
  }

  lemma NoSvcAtEnd(tag: string)
    requires 'v' !in tag
    ensures !EndsWith(tag, "svc")
  {
    if EndsWith(tag, "svc") {
      assert OccursAt(tag, "svc", |tag| - 3);
      OccursChar(tag, "svc", |tag| - 3, 1);
      assert false;
    }
  }

  lemma CategoryHasSvcDot(tag: string, vals: seq<string>)
    requires 'v' !in tag
    ensures AnyContains(Category(tag, vals), "svc.") <==> !SvcDotFreeAll(vals)
  {
    var parts := [tag] + LowerAll(vals);
    MissingLetter(tag, "svc.", 'v');
    NoSvcAtEnd(tag);
    SvcDotJoined(parts);
    assert parts[1..] == LowerAll(vals);
    SvcDotInMeans(LowerAll(vals));
  }

  /** The printed key without its agent contains "svc." exactly if a value or the xname does, or a
      value that is not the last of its category ends in "svc". */
  lemma HeadHasSvcDot(sub: ScnSubscribe, xname: string)
    ensures Contains(HeadOf(sub, xname), "svc.") <==> !SvcDotFree(sub, xname)
  {
    var hs, ss, en := Category("hs", sub.states), Category("ss", sub.softwareStatus), EnabledToken(sub.enabled);
    var ro, sr := Category("roles", sub.roles), Category("subroles", sub.subRoles);
    var p := ["sub", xname];
    ContainsJoin(HeadTokens(sub, xname), '#', "svc.");
    AnyContainsAppend(p + hs + ss + en + ro, sr, "svc.");
    AnyContainsAppend(p + hs + ss + en, ro, "svc.");
    AnyContainsAppend(p + hs + ss, en, "svc.");
    AnyContainsAppend(p + hs, ss, "svc.");
    AnyContainsAppend(p, hs, "svc.");
    MissingLetter("sub", "svc.", 'v');
    assert p[1..] == [xname];
    CategoryHasSvcDot("hs", sub.states);
    CategoryHasSvcDot("ss", sub.softwareStatus);
    CategoryHasSvcDot("roles", sub.roles);
    CategoryHasSvcDot("subroles", sub.subRoles);
    MissingLetter(Join(["enbl", "enbl"], '.'), "svc.", 'v');
  }

  /** A head without "svc." is passed over, whatever bare "svc" it holds. */
  lemma PatchScanPastHead(head: string, agent: string)
    requires !Contains(head, "svc.") && '#' !in agent
    ensures ScanAgentPatch(head + "#" + ("svc." + agent)) == Agent(agent)
  {
    var key := head + "#" + ("svc." + agent);
    assert key[|head| + 1..] == "svc." + agent;
    assert OccursAt(key, "svc.", |head| + 1);
    forall i | OccursAt(key, "svc.", i) ensures i >= |head| + 1 {
      OccursAroundDelimiter(head, '#', "svc." + agent, "svc.", i);
    }
    assert key[|head| + 5..] == agent;
    NoHash("svc." + agent);
  }

  /** A key does not begin with what the searches look for. */
  lemma NotAtStart(key: string, sub: string)
    requires "sub#" <= key && (sub == "svc" || sub == "svc.")
    ensures Index(key, sub) != 0
  {
    assert key[1] == key[..4][1] == 'u';
    if Index(key, sub) == 0 {
      OccursChar(key, sub, 0, 1);
      assert false;
    }
  }

  lemma FirstSvcDotInHead(head: string, tail: string)
    requires "sub#" <= head && Contains(head, "svc.")
    ensures Index(head + "#" + tail, "svc.") == Index(head, "svc.") > 0
  {
    NotAtStart(head, "svc.");
    OccursAroundDelimiter(head, '#', tail, "svc.", Index(head, "svc."));
    OccursAroundDelimiter(head, '#', tail, "svc.", Index(head + "#" + tail, "svc."));
  }

  /** The first '#' of a text that goes on after one. */
  lemma FirstHash(a: string, b: string)
    ensures Index(a + "#" + b, "#") == Index(a + "#", "#")
    ensures 0 <= Index(a + "#", "#") <= |a|
  {
    OccursBehind(a, "#", "#", 0);
    assert OccursAt("#", "#", 0);
    OccursInFront(a + "#", b, "#", Index(a + "#", "#"));
    OccursInFront(a + "#", b, "#", Index(a + "#" + b, "#"));
  }

  /** What PATCH's search makes of the head alone when it finds "svc." there. */
  function HeadScan(head: string, ix: nat): AgentScan
    requires ix <= |head|
  {
    var iy := Index(head[ix..] + "#", "#");
    FirstHash(head[ix..], "");
    if ix + 4 > iy - 1 then OutOfRange else Agent(head[ix + 4..iy - 1])
  }

  lemma PatchScanAt(key: string, head: string, tail: string, ix: nat)
    requires key == head + "#" + tail && 0 < ix == Index(key, "svc.") && ix <= |head|
    ensures ScanAgentPatch(key) == HeadScan(head, ix)
  {
    HashFromHead(head, tail, ix);
    PatchSlice(key, head, ix, Index(key[ix..], "#"));
  }

  /** With "svc." in the head the search stops there and returns the same for every agent. */
  lemma PatchScanStopsInHead(head: string, agent: string)
    requires "sub#" <= head && Contains(head, "svc.")
    ensures ScanAgentPatch(head + "#" + ("svc." + agent)) == HeadScan(head, Index(head, "svc."))
  {
    FirstSvcDotInHead(head, "svc." + agent);
    PatchScanAt(head + "#" + ("svc." + agent), head, "svc." + agent, Index(head, "svc."));
  }

  lemma HashFromHead(head: string, tail: string, ix: nat)
    requires ix <= |head|
    ensures Index((head + "#" + tail)[ix..], "#") == Index(head[ix..] + "#", "#") <= |head| - ix
    ensures Index(head[ix..] + "#", "#") >= 0
  {
    assert (head + "#" + tail)[ix..] == head[ix..] + "#" + tail;
    FirstHash(head[ix..], tail);
  }

  lemma PatchSlice(key: string, head: string, ix: nat, iy: int)
    requires head <= key && ix == Index(key, "svc.") && 0 < ix <= |head| && iy == Index(key[ix..], "#")
             && 0 <= iy <= |head| - ix
    ensures ScanAgentPatch(key) == if ix + 4 > iy - 1 then OutOfRange else Agent(head[ix + 4..iy - 1])
  {
    if ix + 4 <= iy - 1 {
      assert key[ix + 4..iy - 1] == head[ix + 4..iy - 1];
    }
  }

  lemma PatchFindsAgent(sub: ScnSubscribe, xname: string, agent: string)
    requires SvcDotFree(sub, xname) && agent != "" && '#' !in agent
    ensures ScanAgentPatch(KeyOf(sub, xname, agent)) == Agent(agent)
  {
    HeadHasSvcDot(sub, xname);
    AgentKey(sub, xname, agent);
    PatchScanPastHead(HeadOf(sub, xname), agent);
  }

  lemma PatchReadsHead(sub: ScnSubscribe, xname: string, agent: string)
    requires !SvcDotFree(sub, xname) && agent != ""
    ensures var head := HeadOf(sub, xname);
            Contains(head, "svc.")
            && ScanAgentPatch(KeyOf(sub, xname, agent)) == HeadScan(head, Index(head, "svc."))
  {
    HeadHasSvcDot(sub, xname);
    AgentKey(sub, xname, agent);
    PatchScanStopsInHead(HeadOf(sub, xname), agent);
  }

  /** PATCH's search finds every possible agent. */
  ghost predicate PatchFindsAll(sub: ScnSubscribe, xname: string) {
    forall agent :: agent != "" && '#' !in agent && '.' !in agent
                    ==> ScanAgentPatch(KeyOf(sub, xname, agent)) == Agent(agent)
  }

  /** PATCH's search finds every possible agent exactly when no "svc." comes before the agent token. */
  lemma PatchScannerExact(sub: ScnSubscribe, xname: string)
    ensures (forall agent :: agent != "" && '#' !in agent && '.' !in agent
                             ==> ScanAgentPatch(KeyOf(sub, xname, agent)) == Agent(agent))
            <==> SvcDotFree(sub, xname)
  {
    assert PatchFindsAll(sub, xname) <==> SvcDotFree(sub, xname) by {
      if SvcDotFree(sub, xname) {
        forall agent | agent != "" && '#' !in agent && '.' !in agent
          ensures ScanAgentPatch(KeyOf(sub, xname, agent)) == Agent(agent)
        {
          PatchFindsAgent(sub, xname, agent);
        }
      } else {
        PatchReadsHead(sub, xname, "a");
        PatchReadsHead(sub, xname, "b");
        assert Agent("a") != Agent("b");
      }
    }
  }

  // ---------- keys without an agent ----------

  lemma AgentlessKey(sub: ScnSubscribe, xname: string)
    ensures KeyOf(sub, xname, "") == HeadOf(sub, xname) && "sub#" <= HeadOf(sub, xname)
  {
    KeyIsHeadThenAgent(sub, xname, "");
    HeadStart(sub, xname);
    assert HeadOf(sub, xname) + "" == HeadOf(sub, xname);
  }

  /** On a key without an agent the DELETE search correctly finds none exactly if the xname and the
      values are free of "svc", and reads past the end exactly if the only "svc" ends the key. */
  lemma AgentlessScanExact(sub: ScnSubscribe, xname: string)
    ensures ScanAgent(KeyOf(sub, xname, "")) == NoAgent <==> SvcFree(sub, xname)
    ensures var key := KeyOf(sub, xname, "");
            ScanAgent(key) == OutOfRange <==> EndsWith(key, "svc") && !Contains(key[..|key| - 1], "svc")
  {
    AgentlessKey(sub, xname);
    HeadHasSvc(sub, xname);
    BareScan(HeadOf(sub, xname));
  }

  lemma BareScan(key: string)
    requires "sub#" <= key
    ensures ScanAgent(key) == NoAgent <==> !Contains(key, "svc")
    ensures ScanAgent(key) == OutOfRange <==> EndsWith(key, "svc") && !Contains(key[..|key| - 1], "svc")
    ensures ScanAgentPatch(key) == NoAgent <==> !Contains(key, "svc.")
  {
    NotAtStart(key, "svc");
    NotAtStart(key, "svc.");
    OnlySvcAtEnd(key);
  }

  lemma OnlySvcAtEnd(key: string)
    requires |key| >= 4
    ensures Index(key, "svc") == |key| - 3 <==> EndsWith(key, "svc") && !Contains(key[..|key| - 1], "svc")
  {
    var front, last, ix := key[..|key| - 1], key[|key| - 1..], Index(key, "svc");
    assert key == front + last;
    assert OccursAt(key, "svc", |key| - 3) <==> EndsWith(key, "svc");
    if Contains(front, "svc") {
      var i :| 0 <= i <= |front| - 3 && OccursAt(front, "svc", i);
      OccursInFront(front, last, "svc", i);
    }
    if 0 <= ix < |key| - 3 {
      OccursInFront(front, last, "svc", ix);
    }
  }

  /** PATCH's search correctly finds no agent on such a key exactly under its own condition. */
  lemma AgentlessPatchScanExact(sub: ScnSubscribe, xname: string)
    ensures ScanAgentPatch(KeyOf(sub, xname, "")) == NoAgent <==> SvcDotFree(sub, xname)
  {
    AgentlessKey(sub, xname);
    HeadHasSvcDot(sub, xname);
    BareScan(HeadOf(sub, xname));
  }

  /** The key around a "svc." and the '#' that follows it. */
  predicate AroundSvcDot(key: string, before: string, between: string, rest: string) {
    key == before + ("svc." + (between + ("#" + rest))) && '#' !in between
  }

  lemma NoHashBefore(w: string, iy: nat)
    requires iy == Index(w, "#")
    ensures '#' !in w[..iy] && w[iy] == '#'
  {
    OccursChar(w, "#", iy, 0);
    if '#' in w[..iy] {
      var k :| 0 <= k < iy && w[..iy][k] == '#';
      assert w[k..k + 1] == "#" && OccursAt(w, "#", k);
      assert false;
    }
  }

  lemma HashAfter(key: string, ix: nat, iy: nat)
    requires OccursAt(key, "svc.", ix) && iy == Index(key[ix..], "#")
    ensures iy >= 4 && AroundSvcDot(key, key[..ix], key[ix + 4..ix + iy], key[ix + iy + 1..])
  {
    NoHashBefore(key[ix..], iy);
    assert key[ix..ix + 4] == "svc.";
    SvcDotThenHash(key, ix, iy);
  }

  lemma SvcDotThenHash(key: string, ix: nat, iy: nat)
    requires ix + 4 <= |key| && key[ix..ix + 4] == "svc." && iy < |key| - ix && key[ix..][iy] == '#'
             && '#' !in key[ix..][..iy]
    ensures iy >= 4 && '#' !in key[ix + 4..ix + iy]
    ensures key == key[..ix] + ("svc." + (key[ix + 4..ix + iy] + ("#" + key[ix + iy + 1..])))
  {
    assert key[ix + iy] == '#';
    var tag := key[ix..ix + 4];
    assert forall k :: 0 <= k < |tag| ==> tag[k] == key[ix + k];
    assert '#' !in tag && iy >= 4;
    var between := key[ix + 4..ix + iy];
    assert forall k :: 0 <= k < |between| ==> between[k] == key[ix..][..iy][k + 4];
    assert key[ix + iy..] == "#" + key[ix + iy + 1..];
    assert key[ix + 4..] == between + key[ix + iy..];
    assert key[ix..] == key[ix..ix + 4] + key[ix + 4..];
    assert key == key[..ix] + key[ix..];
  }

  lemma HashIsFirst(key: string, before: string, between: string, rest: string)
    requires AroundSvcDot(key, before, between, rest)
    ensures Index(key[|before|..], "#") == |between| + 4
  {
    var w := key[|before|..];
    var front := "svc." + between;
    assert w == front + ("#" + rest);
    OccursBehind(front, "#" + rest, "#", 0);
    assert ("#" + rest)[0..1] == "#";
    var at := Index(w, "#");
    assert '#' !in front;
    if 0 <= at < |front| {
      OccursChar(w, "#", at, 0);
      assert false;
    }
  }

  lemma PatchOverrunAt(key: string, ix: nat, iy: int)
    requires 0 < ix == Index(key, "svc.") && iy == Index(key[ix..], "#")
    ensures ScanAgentPatch(key) == OutOfRange <==> iy != -1 && iy - 4 <= ix
  {
  }

  /** A '#' follows the "svc." at this place, and what lies between the two is no longer than what
      lies before. */
  ghost predicate Crowded(key: string, ix: nat) {
    exists before, between, rest :: AroundSvcDot(key, before, between, rest) && |between| <= |before| == ix
  }

  lemma CrowdedAt(key: string, ix: nat, iy: int)
    requires OccursAt(key, "svc.", ix) && iy == Index(key[ix..], "#")
    ensures Crowded(key, ix) <==> iy != -1 && iy - 4 <= ix
  {
    if iy != -1 {
      HashAfter(key, ix, iy);
      assert |key[ix + 4..ix + iy]| == iy - 4 && |key[..ix]| == ix;
    }
    if before, between, rest :| AroundSvcDot(key, before, between, rest) && |between| <= |before| == ix {
      HashIsFirst(key, before, between, rest);
    }
  }

  /** PATCH slices backwards exactly if its first "svc." is crowded. */
  lemma PatchOverrunExact(key: string)
    requires Index(key, "svc.") > 0
    ensures ScanAgentPatch(key) == OutOfRange <==> Crowded(key, Index(key, "svc."))
  {
    var ix := Index(key, "svc.");
    PatchOverrunAt(key, ix, Index(key[ix..], "#"));
    CrowdedAt(key, ix, Index(key[ix..], "#"));
  }

  /** Without the hypothesis the scanners go wrong: a subscription to a state called "svc" makes
      DELETE read past the end of an agent-less key. */
  lemma DeleteNeedsSvcFree()
    ensures ScanAgent(KeyOf(EMPTY_SUBSCRIBE.(states := ["svc"]), "x0", "")) == OutOfRange
  {
    var sub := EMPTY_SUBSCRIBE.(states := ["svc"]);
    var key := KeyOf(sub, "x0", "");
    assert EndsWith(key, "svc") && !Contains(key[..|key| - 1], "svc") by {
      StateCalledSvc();
      assert key == "sub#x0#hs." + "svc";
      SvcEndsText("sub#x0#hs.");
    }
    AgentlessScanExact(sub, "x0");
  }

  lemma SvcEndsText(before: string)
    requires 'c' !in before
    ensures var key := before + "svc"; EndsWith(key, "svc") && !Contains(key[..|key| - 1], "svc")
  {
    var key := before + "svc";
    assert key[..|key| - 1] == before + "sv";
    MissingLetter(before + "sv", "svc", 'c');
  }

  /** And PATCH slices backwards on a state ending in "svc" that is followed by another category. */
  lemma PatchNeedsSvcFree()
    ensures ScanAgentPatch(KeyOf(EMPTY_SUBSCRIBE.(states := ["svc", "on"], softwareStatus := ["up"]), "x0", ""))
            == OutOfRange
  {
    var before, rest := "sub#x0#hs.", "ss.up";
    assert KeyOf(EMPTY_SUBSCRIBE.(states := ["svc", "on"], softwareStatus := ["up"]), "x0", "")
           == before + ("svc." + ("on" + ("#" + rest))) by {
      StateSvcThenStatus();
    }
    CrowdedIsOutOfRange(before, "on", rest);
  }

  lemma CrowdedIsOutOfRange(before: string, between: string, rest: string)
    requires 'v' !in before && before != "" && before[|before| - 1] != 's' && '#' !in between && |between| <= |before|
    ensures ScanAgentPatch(before + ("svc." + (between + ("#" + rest)))) == OutOfRange
  {
    var key := before + ("svc." + (between + ("#" + rest)));
    FirstSvcAfter(before, between + ("#" + rest));
    assert AroundSvcDot(key, before, between, rest);
    PatchOverrunExact(key);
  }

  lemma FirstSvcAfter(before: string, after: string)
    requires 'v' !in before && before != "" && before[|before| - 1] != 's'
    ensures Index(before + ("svc." + after), "svc.") == |before|
  {
    OccursBehind(before, "svc." + after, "svc.", 0);
    assert ("svc." + after)[0..4] == "svc.";
    SvcNotBefore(before, "svc." + after, Index(before + ("svc." + after), "svc."));
  }

  lemma NotInFront(front: string, rest: string, c: char)
    requires c !in front
    ensures forall k :: 0 <= k < |front| ==> (front + rest)[k] != c
  {
    forall k | 0 <= k < |front| ensures (front + rest)[k] != c {
      assert (front + rest)[k] == front[k];
    }
  }

  lemma SvcNotBefore(before: string, rest: string, ix: int)
    requires 'v' !in before && before != "" && before[|before| - 1] != 's' && OccursAt(before + rest, "svc.", ix)
    ensures ix >= |before|
  {
    var key := before + rest;
    OccursChar(key, "svc.", ix, 0);
    OccursChar(key, "svc.", ix, 1);
    NotInFront(before, rest, 'v');
    assert key[|before| - 1] == before[|before| - 1];
  }

  lemma StateCalledSvc()
    ensures KeyOf(EMPTY_SUBSCRIBE.(states := ["svc"]), "x0", "") == "sub#x0#hs.svc"
  {
    assert Lower("svc") == "svc" && "hs" + "." + "svc" == "hs.svc";
    OneValue("hs", "svc");
    var sub := EMPTY_SUBSCRIBE.(states := ["svc"]);
    var toks := ["sub", "x0", "hs.svc"];
    assert Category("hs", sub.states) == ["hs.svc"];
    assert HeadTokens(sub, "x0") + AgentToken("") == toks;
    assert toks[1..] == ["x0", "hs.svc"] && toks[1..][1..] == ["hs.svc"];
  }

  lemma StateSvcThenStatus()
    ensures KeyOf(EMPTY_SUBSCRIBE.(states := ["svc", "on"], softwareStatus := ["up"]), "x0", "")
            == "sub#x0#" + "hs.svc.on" + "#" + "ss.up"
  {
    assert Lower("svc") == "svc" && Lower("on") == "on" && Lower("up") == "up";
    assert "hs" + "." + "svc" + "." + "on" == "hs.svc.on" && "ss" + "." + "up" == "ss.up";
    TwoValues("hs", "svc", "on");
    OneValue("ss", "up");
    var sub := EMPTY_SUBSCRIBE.(states := ["svc", "on"], softwareStatus := ["up"]);
    assert Category("hs", sub.states) == ["hs.svc.on"] && Category("ss", sub.softwareStatus) == ["ss.up"];
    assert HeadTokens(sub, "x0") + AgentToken("") == ["sub", "x0", "hs.svc.on", "ss.up"];
    FourTokens("hs.svc.on", "ss.up");
  }

  lemma FourTokens(a: string, b: string)
    ensures Join(["sub", "x0", a, b], '#') == "sub#x0#" + a + "#" + b
  {
    var toks := ["sub", "x0", a, b];
    var two := [a, b];
    assert toks[1..][1..] == two && two[1..] == [b];
    assert Join(two, '#') == a + "#" + b;
    assert Join(toks[1..], '#') == "x0" + "#" + (a + "#" + b);
  }

  lemma OneValue(tag: string, v: string)
    requires Lower(v) == v
    ensures Category(tag, [v]) == [tag + "." + v]
  {
    assert LowerAll([v]) == [v];
    assert ([tag] + [v])[1..] == [v];
    assert Join([tag] + [v], '.') == tag + "." + v;
  }

  lemma TwoValues(tag: string, v: string, w: string)
    requires Lower(v) == v && Lower(w) == w
    ensures Category(tag, [v, w]) == [tag + "." + v + "." + w]
  {
    assert LowerAll([v, w]) == [v, w];
    assert ([tag] + [v, w])[1..] == [v, w] && [v, w][1..] == [w];
    assert Join([v, w], '.') == v + "." + w;
    assert Join([tag] + [v, w], '.') == tag + "." + (v + "." + w);
    assert tag + "." + (v + "." + w) == tag + "." + v + "." + w;
  }

  // ---------- substring matching of attributes ----------

  /** The pieces of a key between any two delimiters. */
  function Segments(toks: seq<string>): seq<string> {
    if toks == [] then [] else Split(toks[0], '.') + Segments(toks[1..])
  }

  lemma {:induction false} SegmentsContain(toks: seq<string>, attr: string)
    requires attr != "" && '.' !in attr
    ensures AnyContains(toks, attr) <==> AnyContains(Segments(toks), attr)
  {
    if toks != [] {
      JoinSplit(toks[0], '.');
      ContainsJoin(Split(toks[0], '.'), '.', attr);
      AnyContainsAppend(Split(toks[0], '.'), Segments(toks[1..]), attr);
      SegmentsContain(toks[1..], attr);
    }
  }

  /** A delimiter-free attribute is contained in a key exactly if it occurs inside one of
      the key's segments. */
  lemma AttributeInSegment(key: string, attr: string)
    requires attr != "" && '#' !in attr && '.' !in attr
    ensures Contains(key, attr) <==>
            exists i :: 0 <= i < |Segments(Split(key, '#'))| && Contains(Segments(Split(key, '#'))[i], attr)
  {
    JoinSplit(key, '#');
    ContainsJoin(Split(key, '#'), '#', attr);
    SegmentsContain(Split(key, '#'), attr);
    AnyContainsMeans(Segments(Split(key, '#')), attr);
  }

  predicate Lists(vals: seq<string>, attr: string) {
    exists i :: 0 <= i < |vals| && Lower(vals[i]) == attr
  }

  /** The subscription asks for SCNs carrying this attribute. */
  predicate AsksFor(sub: ScnSubscribe, attr: string) {
    Lists(sub.states, attr) || Lists(sub.softwareStatus, attr) || Lists(sub.roles, attr)
    || Lists(sub.subRoles, attr) || (attr == "enbl" && sub.enabled.Some?)
  }

  lemma CategoryHasValue(tag: string, vals: seq<string>, attr: string)
    requires Lists(vals, attr) && attr != "" && '.' !in attr
    ensures AnyContains(Category(tag, vals), attr)
  {
    var i :| 0 <= i < |vals| && Lower(vals[i]) == attr;
    var parts := [tag] + LowerAll(vals);
    assert parts[i + 1] == attr && OccursAt(attr, attr, 0);
    AnyContainsMeans(parts, attr);
    ContainsJoin(parts, '.', attr);
  }

  /** Every value a subscription lists, and "enbl" if it lists Enabled, is found in its key. */
  lemma ListedAttributeFound(sub: ScnSubscribe, xname: string, agent: string, attr: string)
    requires attr != "" && '#' !in attr && '.' !in attr && AsksFor(sub, attr)
    ensures Contains(KeyOf(sub, xname, agent), attr)
  {
    var hs, ss, en := Category("hs", sub.states), Category("ss", sub.softwareStatus), EnabledToken(sub.enabled);
    var ro, sr, ag := Category("roles", sub.roles), Category("subroles", sub.subRoles), AgentToken(agent);
    var p := ["sub", xname];
    ContainsJoin(HeadTokens(sub, xname) + ag, '#', attr);
    AnyContainsAppend(p + hs + ss + en + ro + sr, ag, attr);
    AnyContainsAppend(p + hs + ss + en + ro, sr, attr);
    AnyContainsAppend(p + hs + ss + en, ro, attr);
    AnyContainsAppend(p + hs + ss, en, attr);
    AnyContainsAppend(p + hs, ss, attr);
    AnyContainsAppend(p, hs, attr);
    if Lists(sub.states, attr) {
      CategoryHasValue("hs", sub.states, attr);
    } else if Lists(sub.softwareStatus, attr) {
      CategoryHasValue("ss", sub.softwareStatus, attr);
    } else if Lists(sub.roles, attr) {
      CategoryHasValue("roles", sub.roles, attr);
    } else if Lists(sub.subRoles, attr) {
      CategoryHasValue("subroles", sub.subRoles, attr);
    } else {
      assert OccursAt(attr, attr, 0);
      ContainsJoin(["enbl", "enbl"], '.', attr);
    }
  }

  // ---------- ownership ----------

  /** A subscription together with its owner. */
  datatype Subscription = Owned(body: ScnSubscribe, xname: string, agent: string) {
    function Key(): string {
      KeyOf(body, xname, agent)
    }
  }

  /** The xname token of a printed key is the owner's xname. */
  lemma XnameOfKey(sub: ScnSubscribe, xname: string, agent: string)
    requires '#' !in xname
    ensures XnameOf(KeyOf(sub, xname, agent)) == xname
  {
    var toks := HeadTokens(sub, xname) + AgentToken(agent);
    assert toks[0] == "sub" && toks[1] == xname;
    var key := KeyOf(sub, xname, agent);
    assert key == "sub" + ['#'] + Join(toks[1..], '#');
    SplitAtDelimiter("sub", '#', Join(toks[1..], '#'));
    if |toks| == 2 {
      assert toks[1..] == [xname];
      SplitFree(xname, '#');
    } else {
      assert Join(toks[1..], '#') == xname + ['#'] + Join(toks[1..][1..], '#');
      SplitAtDelimiter(xname, '#', Join(toks[1..][1..], '#'));
    }
  }

  lemma {:induction false} PiecesAreFree(s: string, c: char)
    ensures forall p :: p in Split(s, c) ==> c !in p
  {
    if s != "" {
      PiecesAreFree(s[1..], c);
      var rest := Split(s[1..], c);
      assert rest[0] in rest;
      assert forall p :: p in rest[1..] ==> p in rest;
    }
  }

  /** So every handler reads the owner's xname off the key exactly if the xname has no '#'. */
  lemma XnameReadExactly(sub: ScnSubscribe, xname: string, agent: string)
    ensures XnameOf(KeyOf(sub, xname, agent)) == xname <==> '#' !in xname
  {
    var key := KeyOf(sub, xname, agent);
    PiecesAreFree(key, '#');
    assert |Split(key, '#')| >= 2 ==> Split(key, '#')[1] in Split(key, '#');
    if '#' !in xname {
      XnameOfKey(sub, xname, agent);
    }
  }

  /** The partition "p0#1", which the xname library accepts, is read as the partition "p0". */
  lemma PartitionMisread(sub: ScnSubscribe, agent: string)
    ensures XnameOf(KeyOf(sub, "p0#1", agent)) == "p0"
  {
    var toks := HeadTokens(sub, "p0#1") + AgentToken(agent);
    var rest := if |toks| == 2 then "1" else "1" + "#" + Join(toks[2..], '#');
    assert toks[0] == "sub" && toks[1] == "p0#1" && toks[1..][1..] == toks[2..];
    assert Join(toks[1..], '#') == "p0" + ['#'] + rest;
    assert KeyOf(sub, "p0#1", agent) == "sub" + ['#'] + ("p0" + ['#'] + rest);
    SplitAtDelimiter("sub", '#', "p0" + ['#'] + rest);
    SplitAtDelimiter("p0", '#', rest);
  }

  // ---------- ranges ----------

  const RANGE_START := "sub#a"
  const RANGE_END := "sub#z"

  /** The keys every scan of all subscriptions reads. */
  predicate Scanned(key: string) {
    InRange(RANGE_START, RANGE_END, key)
  }

  lemma ScannedHasXname(key: string)
    requires Scanned(key)
    ensures |Split(key, '#')| >= 2
  {
    assert RANGE_START == "sub#" + "a" && RANGE_END == "sub#" + "z";
    RangeSharesPrefix("sub#", "a", "z", key);
    assert key == "sub" + ['#'] + key[4..];
    SplitAtDelimiter("sub", '#', key[4..]);
  }

  /** The scan of all subscriptions reads a printed key exactly if its xname starts with a
      letter from a to y. */
  lemma ScannedExactly(sub: ScnSubscribe, xname: string, agent: string)
    requires xname != ""
    ensures Scanned(KeyOf(sub, xname, agent)) <==> 'a' <= xname[0] <= 'y'
  {
    var key := KeyOf(sub, xname, agent);
    KeyIsHeadThenAgent(sub, xname, agent);
    HeadStart(sub, xname);
    assert "sub#" + xname <= key;
    var rest := key[4..];
    assert key == "sub#" + rest && rest[0] == xname[0];
    LessAfterPrefix("sub#", rest, "a");
    LessAfterPrefix("sub#", rest, "z");
    assert RANGE_START == "sub#" + "a" && RANGE_END == "sub#" + "z";
    assert Less(rest, "a") <==> rest[0] < 'a' by {
      assert "a"[1..] == "";
    }
    assert Less(rest, "z") <==> rest[0] < 'z' by {
      assert "z"[1..] == "";
    }
  }

  /** Every key of a component lies in the range PATCH reads for that component. */
  lemma PatchRangeCovers(sub: ScnSubscribe, xname: string, agent: string)
    ensures InRange("sub#" + xname, "sub#" + xname + "z", KeyOf(sub, xname, agent))
  {
    var p := "sub#" + xname;
    var key := KeyOf(sub, xname, agent);
    KeyIsHeadThenAgent(sub, xname, agent);
    HeadStart(sub, xname);
    assert p <= key;
    var rest := key[|p|..];
    assert key == p + rest && p == p + "";
    assert rest == "" || rest[0] == '#';
    LessAfterPrefix(p, rest, "");
    LessAfterPrefix(p, rest, "z");
  }
}
