/** The flat subscription key,
    `sub#xname[#hs.s..][#ss.s..][#enbl.enbl][#roles.r..][#subroles.r..][#svc.agent]`:
    how it is printed, how it is parsed back, and that the two agree. */
module SubscriptionKey {
  import opened Text
  import opened Types

  // ---------- the printed form, as tokens ----------

  function Category(tag: string, vals: seq<string>): seq<string> {
    if vals == [] then [] else [Join([tag] + LowerAll(vals), '.')]
  }

  function EnabledToken(enabled: Option<bool>): seq<string> {
    if enabled.Some? then [Join(["enbl", "enbl"], '.')] else []
  }

  function AgentToken(agent: string): seq<string> {
    if agent == "" then [] else [Join(["svc", agent], '.')]
  }

  /** The tokens before the agent token. */
  function HeadTokens(sub: ScnSubscribe, xname: string): (toks: seq<string>)
    ensures |toks| >= 2
  {
    ["sub", xname] + Category("hs", sub.states) + Category("ss", sub.softwareStatus)
    + EnabledToken(sub.enabled) + Category("roles", sub.roles) + Category("subroles", sub.subRoles)
  }

  function KeyOf(sub: ScnSubscribe, xname: string, agent: string): string {
    Join(HeadTokens(sub, xname) + AgentToken(agent), '#')
  }

  /** Each value lower-cased behind a '.'. */
  function Dotted(vals: seq<string>): string {
    if vals == [] then "" else "." + Lower(vals[0]) + Dotted(vals[1..])
  }

  function Tagged(tag: string, vals: seq<string>): string {
    if vals == [] then "" else "#" + tag + Dotted(vals)
  }

  lemma {:induction false} JoinDotted(tag: string, vals: seq<string>)
    ensures Join([tag] + LowerAll(vals), '.') == tag + Dotted(vals)
    decreases vals
  {
    var parts := [tag] + LowerAll(vals);
    if vals != [] {
      JoinDotted(Lower(vals[0]), vals[1..]);
      assert parts[1..] == [Lower(vals[0])] + LowerAll(vals[1..]);
    }
  }

  lemma JoinTagged(toks: seq<string>, tag: string, vals: seq<string>)
    requires |toks| >= 1
    ensures Join(toks + Category(tag, vals), '#') == Join(toks, '#') + Tagged(tag, vals)
  {
    JoinDotted(tag, vals);
    if vals == [] {
      assert toks + [] == toks;
    } else {
      JoinAppend(toks, tag + Dotted(vals), '#');
    }
  }

  lemma JoinOptional(toks: seq<string>, more: seq<string>)
    requires |toks| >= 1 && |more| <= 1
    ensures Join(toks + more, '#') == Join(toks, '#') + if more == [] then "" else "#" + more[0]
  {
    if more == [] {
      assert toks + [] == toks;
    } else {
      assert more == [more[0]];
      JoinAppend(toks, more[0], '#');
    }
  }

  lemma SpelledTokens(xname: string, agent: string)
    ensures Join(["sub", xname], '#') == "sub#" + xname
    ensures Join(["enbl", "enbl"], '.') == "enbl.enbl"
    ensures Join(["svc", agent], '.') == "svc." + agent
  {
    assert ["sub", xname][1..] == [xname];
    assert "sub" + ['#'] == "sub#";
    assert ["enbl", "enbl"][1..] == ["enbl"];
    assert ["svc", agent][1..] == [agent];
    assert "svc" + ['.'] == "svc.";
  }

  /** The key letter by letter: hs, ss, enbl, roles, subroles and svc in this order, each only if there is
      something to list, whatever the values. */
  lemma KeySpelled(sub: ScnSubscribe, xname: string, agent: string)
    ensures KeyOf(sub, xname, agent)
            == "sub#" + xname + Tagged("hs", sub.states) + Tagged("ss", sub.softwareStatus)
               + (if sub.enabled.Some? then "#" + "enbl.enbl" else "") + Tagged("roles", sub.roles)
               + Tagged("subroles", sub.subRoles) + (if agent == "" then "" else "#" + ("svc." + agent))
  {
    var hs, ss, en := Category("hs", sub.states), Category("ss", sub.softwareStatus), EnabledToken(sub.enabled);
    var ro, sr, ag := Category("roles", sub.roles), Category("subroles", sub.subRoles), AgentToken(agent);
    var p := ["sub", xname];
    SpelledTokens(xname, agent);
    JoinTagged(p, "hs", sub.states);
    JoinTagged(p + hs, "ss", sub.softwareStatus);
    JoinOptional(p + hs + ss, en);
    JoinTagged(p + hs + ss + en, "roles", sub.roles);
    JoinTagged(p + hs + ss + en + ro, "subroles", sub.subRoles);
    JoinOptional(p + hs + ss + en + ro + sr, ag);
  }

  /** Adds one `#tag.value.value...` category the way the source does, one value at a time. */
  method AppendCategory(key: string, ghost toks: seq<string>, tag: string, vals: seq<string>)
    returns (subkey: string)
    requires |toks| >= 1 && key == Join(toks, '#')
    ensures subkey == Join(toks + Category(tag, vals), '#')
  {
    subkey := key;
    if |vals| > 0 {
      subkey := subkey + "#" + tag;
      assert LowerAll(vals[..0]) == [];
      assert [tag] + LowerAll(vals[..0]) == [tag];
      for i := 0 to |vals|
        invariant subkey == key + "#" + Join([tag] + LowerAll(vals[..i]), '.')
      {
        assert LowerAll(vals[..i + 1]) == LowerAll(vals[..i]) + [Lower(vals[i])];
        assert [tag] + LowerAll(vals[..i + 1]) == [tag] + LowerAll(vals[..i]) + [Lower(vals[i])];
        JoinAppend([tag] + LowerAll(vals[..i]), Lower(vals[i]), '.');
        subkey := subkey + "." + Lower(vals[i]);
      }
      assert vals[..|vals|] == vals;
      JoinAppend(toks, Join([tag] + LowerAll(vals), '.'), '#');
    } else {
      assert toks + [] == toks;
    }
  }

  method MakeSubscriptionKeyV2(jdata: ScnSubscribe, subXName: string, subSvcName: string)
    returns (subkey: string)
    ensures subkey == KeyOf(jdata, subXName, subSvcName)
  {
    subkey := "sub" + "#" + subXName;
    ghost var toks := ["sub", subXName];
    assert toks[1..] == [subXName];
    subkey := AppendCategory(subkey, toks, "hs", jdata.states);
    toks := toks + Category("hs", jdata.states);
    subkey := AppendCategory(subkey, toks, "ss", jdata.softwareStatus);
    toks := toks + Category("ss", jdata.softwareStatus);
    if jdata.enabled != None {
      assert ["enbl", "enbl"][1..] == ["enbl"];
      JoinAppend(toks, Join(["enbl", "enbl"], '.'), '#');
      assert subkey + "#" + "enbl" + "." + "enbl" == subkey + "#" + ("enbl" + "." + "enbl");
      subkey := subkey + "#" + "enbl" + "." + "enbl";
    } else {
      assert toks + [] == toks;
    }
    toks := toks + EnabledToken(jdata.enabled);
    subkey := AppendCategory(subkey, toks, "roles", jdata.roles);
    toks := toks + Category("roles", jdata.roles);
    subkey := AppendCategory(subkey, toks, "subroles", jdata.subRoles);
    toks := toks + Category("subroles", jdata.subRoles);
    assert toks == HeadTokens(jdata, subXName);
    if subSvcName != "" {
      assert ["svc", subSvcName][1..] == [subSvcName];
      JoinAppend(toks, Join(["svc", subSvcName], '.'), '#');
      assert subkey + "#" + "svc" + "." + subSvcName == subkey + "#" + ("svc" + "." + subSvcName);
      subkey := subkey + "#" + "svc" + "." + subSvcName;
      assert subkey == Join(toks + [Join(["svc", subSvcName], '.')], '#');
    } else {
      assert toks + AgentToken(subSvcName) == toks;
    }
  }

  /** The v1 key: the owner comes from the `agent@xname` text of the body. */
  function KeyOfV1(sub: ScnSubscribe): string {
    var toks := Split(sub.subscriber, '@');
    if |toks| > 1 then KeyOf(sub, Lower(toks[1]), Lower(toks[0]))
    else KeyOf(sub, Lower(sub.subscriber), "")
  }

  method MakeSubscriptionKeyV1(jdata: ScnSubscribe) returns (subkey: string)
    ensures subkey == KeyOfV1(jdata)
  {
    var toks := Split(jdata.subscriber, '@');
    var xname := Lower(jdata.subscriber);
    var svcname := "";
    if |toks| > 1 {
      xname := Lower(toks[1]);
      svcname := Lower(toks[0]);
    }
    subkey := MakeSubscriptionKeyV2(jdata, xname, svcname);
  }

  // ---------- parsing ----------

  function AddValues(info: ScnSubscribe, tag: string, vals: seq<string>): ScnSubscribe {
    match tag
    case "hs" => info.(states := info.states + vals)
    case "ss" => info.(softwareStatus := info.softwareStatus + vals)
    case "roles" => info.(roles := info.roles + vals)
    case "subroles" => info.(subRoles := info.subRoles + vals)
    case _ => info
  }

  function SetAgent(info: ScnSubscribe, xname: string, agent: string): ScnSubscribe {
    info.(subscriber := agent + "@" + xname, subscriberComponent := xname, subscriberAgent := agent)
  }

  /** What one token, split at '.', adds to the record being filled.
      A bare "svc" token is an index out of range in the source; PopulateSubinfo forbids it. */
  function Absorb(info: ScnSubscribe, xname: string, tt: seq<string>): ScnSubscribe
    requires |tt| >= 1
  {
    if tt[0] == "enbl" then info.(enabled := Some(true))
    else if tt[0] != "svc" then AddValues(info, tt[0], tt[1..])
    else if |tt| >= 2 then SetAgent(info, xname, tt[1])
    else info
  }

  function AbsorbAll(info: ScnSubscribe, xname: string, toks: seq<string>): ScnSubscribe
    decreases |toks|
  {
    if toks == [] then info
    else AbsorbAll(Absorb(info, xname, Split(toks[0], '.')), xname, toks[1..])
  }

  /** The record a listing builds for a key. A key without an xname token is an index
      out of range in the source; ParseSubscription forbids it. */
  function ParseKey(key: string): ScnSubscribe {
    var toks := Split(key, '#');
    if |toks| < 2 then EMPTY_SUBSCRIBE
    else AbsorbAll(EMPTY_SUBSCRIBE.(subscriber := toks[1]), toks[1], toks[2..])
  }

  /** The record a listing fills in by reference. */
  class Subinfo {
    var v: ScnSubscribe

    constructor (subscriber: string)
      ensures v == EMPTY_SUBSCRIBE.(subscriber := subscriber)
    {
      v := EMPTY_SUBSCRIBE.(subscriber := subscriber);
    }
  }

  /** One of the loops over a token's values. */
  method AppendValues(vals: seq<string>, tt: seq<string>) returns (r: seq<string>)
    requires |tt| >= 1
    ensures r == vals + tt[1..]
  {
    r := vals;
    for iy := 1 to |tt|
      invariant r == vals + tt[1..iy]
    {
      r := r + [tt[iy]];
    }
  }

  method PopulateSubinfo(xname: string, tt: seq<string>, subinfo: Subinfo)
    requires |tt| >= 1
    requires tt[0] == "svc" ==> |tt| >= 2
    modifies subinfo
    ensures subinfo.v == Absorb(old(subinfo.v), xname, tt)
  {
    match tt[0]
    case "hs" =>
      var vals := AppendValues(subinfo.v.states, tt);
      subinfo.v := subinfo.v.(states := vals);
    case "ss" =>
      var vals := AppendValues(subinfo.v.softwareStatus, tt);
      subinfo.v := subinfo.v.(softwareStatus := vals);
    case "enbl" =>
      subinfo.v := subinfo.v.(enabled := Some(true));
    case "roles" =>
      var vals := AppendValues(subinfo.v.roles, tt);
      subinfo.v := subinfo.v.(roles := vals);
    case "subroles" =>
      var vals := AppendValues(subinfo.v.subRoles, tt);
      subinfo.v := subinfo.v.(subRoles := vals);
    case "svc" =>
      subinfo.v := subinfo.v.(subscriber := tt[1] + "@" + xname,
                              subscriberComponent := xname, subscriberAgent := tt[1]);
    case _ =>
  }

  /** No token after the xname is a bare "svc", which would index past its split. */
  predicate Parsable(key: string) {
    var toks := Split(key, '#');
    |toks| >= 2 && forall i :: 2 <= i < |toks| ==> Split(toks[i], '.')[0] == "svc" ==> |Split(toks[i], '.')| >= 2
  }

  /** The parse loop of the listing handlers. */
  method ParseSubscription(key: string) returns (info: ScnSubscribe)
    requires Parsable(key)
    ensures info == ParseKey(key)
  {
    var toks := Split(key, '#');
    var subinfo := new Subinfo(toks[1]);
    for ix := 2 to |toks|
      invariant AbsorbAll(subinfo.v, toks[1], toks[ix..]) == ParseKey(key)
    {
      assert toks[ix..][0] == toks[ix] && toks[ix..][1..] == toks[ix + 1..];
      PopulateSubinfo(toks[1], Split(toks[ix], '.'), subinfo);
    }
    info := subinfo.v;
  }

  // ---------- round trip ----------

  predicate PlainAll(vals: seq<string>) {
    forall v :: v in vals ==> '#' !in v && '.' !in v
  }

  /** Attribute values are free of both delimiters, as the API's enumerations are. */
  predicate PlainFields(sub: ScnSubscribe) {
    PlainAll(sub.states) && PlainAll(sub.softwareStatus) && PlainAll(sub.roles) && PlainAll(sub.subRoles)
  }

  /** The subscription a listing reports for a stored request. */
  function Normal(sub: ScnSubscribe, xname: string, agent: string): ScnSubscribe {
    ScnSubscribe([], if agent == "" then xname else agent + "@" + xname,
                 if agent == "" then "" else xname, agent,
                 if sub.enabled.Some? then Some(true) else None,
                 LowerAll(sub.roles), LowerAll(sub.subRoles), LowerAll(sub.softwareStatus),
                 LowerAll(sub.states), "")
  }

  lemma LowerAllPlain(vals: seq<string>)
    requires PlainAll(vals)
    ensures PlainAll(LowerAll(vals))
  {
    forall v | v in LowerAll(vals) ensures '#' !in v && '.' !in v {
      var i :| 0 <= i < |vals| && LowerAll(vals)[i] == v;
      LowerKeepsPunctuation(vals[i], '#');
      LowerKeepsPunctuation(vals[i], '.');
    }
  }

  lemma LowerAllIdempotent(vals: seq<string>)
    ensures LowerAll(LowerAll(vals)) == LowerAll(vals)
  {
    forall i | 0 <= i < |vals| ensures Lower(Lower(vals[i])) == Lower(vals[i]) {
      LowerIdempotent(vals[i]);
    }
  }

  lemma {:induction false} JoinFree(parts: seq<string>, c: char, d: char)
    requires |parts| >= 1 && c != d
    requires forall p :: p in parts ==> d !in p
    ensures d !in Join(parts, c)
  {
    assert parts[0] in parts;
    if |parts| > 1 {
      JoinFree(parts[1..], c, d);
    }
  }

  /** One category token splits back into its tag and values, and holds no '#'. */
  lemma CategorySplits(tag: string, vals: seq<string>)
    requires '#' !in tag && '.' !in tag && PlainAll(vals)
    ensures forall t :: t in Category(tag, vals) ==> '#' !in t && Split(t, '.') == [tag] + LowerAll(vals)
  {
    LowerAllPlain(vals);
    var parts := [tag] + LowerAll(vals);
    JoinFree(parts, '.', '#');
    SplitJoin(parts, '.');
  }

  lemma AgentSplits(agent: string)
    requires '#' !in agent && '.' !in agent
    ensures forall t :: t in AgentToken(agent) ==> '#' !in t && Split(t, '.') == ["svc", agent]
  {
    JoinFree(["svc", agent], '.', '#');
    SplitJoin(["svc", agent], '.');
  }

  lemma EnabledSplits(enabled: Option<bool>)
    ensures forall t :: t in EnabledToken(enabled) ==> '#' !in t && Split(t, '.') == ["enbl", "enbl"]
  {
    JoinFree(["enbl", "enbl"], '.', '#');
    SplitJoin(["enbl", "enbl"], '.');
  }

  /** A category of plain values is absorbed in one step, and only if it is there. */
  lemma AbsorbCategory(info: ScnSubscribe, xname: string, tag: string, vals: seq<string>, rest: seq<string>)
    requires (tag == "hs" || tag == "ss" || tag == "roles" || tag == "subroles") && PlainAll(vals)
    ensures AbsorbAll(info, xname, Category(tag, vals) + rest)
            == AbsorbAll(AddValues(info, tag, LowerAll(vals)), xname, rest)
  {
    CategorySplits(tag, vals);
    AbsorbFirst(info, xname, Category(tag, vals), [tag] + LowerAll(vals), rest);
    if vals == [] {
      assert AddValues(info, tag, []) == info;
    }
  }

  lemma AbsorbFirst(info: ScnSubscribe, xname: string, toks: seq<string>, tt: seq<string>, rest: seq<string>)
    requires |toks| <= 1 && |tt| >= 1
    requires forall t :: t in toks ==> Split(t, '.') == tt
    ensures AbsorbAll(info, xname, toks + rest)
            == AbsorbAll(if toks == [] then info else Absorb(info, xname, tt), xname, rest)
  {
    if toks == [] {
      assert toks + rest == rest;
    } else {
      assert toks[0] in toks;
      assert (toks + rest)[1..] == rest;
    }
  }

  /** Splitting a key at '#' gives exactly the tokens it was printed from. */
  lemma TokensOf(sub: ScnSubscribe, xname: string, agent: string)
    requires '#' !in xname && '#' !in agent && '.' !in agent && PlainFields(sub)
    ensures Split(KeyOf(sub, xname, agent), '#') == HeadTokens(sub, xname) + AgentToken(agent)
  {
    CategorySplits("hs", sub.states);
    CategorySplits("ss", sub.softwareStatus);
    EnabledSplits(sub.enabled);
    CategorySplits("roles", sub.roles);
    CategorySplits("subroles", sub.subRoles);
    AgentSplits(agent);
    SplitJoin(HeadTokens(sub, xname) + AgentToken(agent), '#');
  }

  lemma AbsorbAgent(info: ScnSubscribe, xname: string, agent: string)
    requires '#' !in agent && '.' !in agent
    ensures AbsorbAll(info, xname, AgentToken(agent)) == if agent == "" then info else SetAgent(info, xname, agent)
  {
    AgentSplits(agent);
    AbsorbFirst(info, xname, AgentToken(agent), ["svc", agent], []);
    assert AgentToken(agent) + [] == AgentToken(agent);
  }

  lemma AbsorbEnabled(info: ScnSubscribe, xname: string, enabled: Option<bool>, rest: seq<string>)
    ensures AbsorbAll(info, xname, EnabledToken(enabled) + rest)
            == AbsorbAll(if enabled.Some? then info.(enabled := Some(true)) else info, xname, rest)
  {
    EnabledSplits(enabled);
    AbsorbFirst(info, xname, EnabledToken(enabled), ["enbl", "enbl"], rest);
  }

  /** States, software status and Enabled, in that order, fill their own fields. */
  lemma AbsorbFrontFields(sub: ScnSubscribe, xname: string, rest: seq<string>)
    requires PlainFields(sub)
    ensures var i0 := EMPTY_SUBSCRIBE.(subscriber := xname);
            AbsorbAll(i0, xname, Category("hs", sub.states) + (Category("ss", sub.softwareStatus)
                                                               + (EnabledToken(sub.enabled) + rest)))
            == AbsorbAll(i0.(states := LowerAll(sub.states), softwareStatus := LowerAll(sub.softwareStatus),
                             enabled := if sub.enabled.Some? then Some(true) else None), xname, rest)
  {
    var i0 := EMPTY_SUBSCRIBE.(subscriber := xname);
    var en := EnabledToken(sub.enabled) + rest;
    AbsorbCategory(i0, xname, "hs", sub.states, Category("ss", sub.softwareStatus) + en);
    var i1 := i0.(states := LowerAll(sub.states));
    assert AddValues(i0, "hs", LowerAll(sub.states)) == i1;
    AbsorbCategory(i1, xname, "ss", sub.softwareStatus, en);
    var i2 := i1.(softwareStatus := LowerAll(sub.softwareStatus));
    assert AddValues(i1, "ss", LowerAll(sub.softwareStatus)) == i2;
    AbsorbEnabled(i2, xname, sub.enabled, rest);
  }

  /** Roles, subroles and the agent fill theirs. */
  lemma AbsorbBackFields(info: ScnSubscribe, sub: ScnSubscribe, xname: string, agent: string)
    requires '#' !in agent && '.' !in agent && PlainFields(sub) && info.roles == [] && info.subRoles == []
    ensures var filled := info.(roles := LowerAll(sub.roles), subRoles := LowerAll(sub.subRoles));
            AbsorbAll(info, xname, Category("roles",
                sub.roles) + (Category("subroles", sub.subRoles) + AgentToken(agent)))
            == if agent == "" then filled else SetAgent(filled, xname, agent)
  {
    AbsorbCategory(info, xname, "roles", sub.roles, Category("subroles", sub.subRoles) + AgentToken(agent));
    var i4 := info.(roles := LowerAll(sub.roles));
    assert AddValues(info, "roles", LowerAll(sub.roles)) == i4;
    AbsorbCategory(i4, xname, "subroles", sub.subRoles, AgentToken(agent));
    var i5 := i4.(subRoles := LowerAll(sub.subRoles));
    assert AddValues(i4, "subroles", LowerAll(sub.subRoles)) == i5;
    AbsorbAgent(i5, xname, agent);
  }

  /** The tokens after the xname, associated to the right. */
  function BodyTokens(sub: ScnSubscribe, agent: string): seq<string> {
    Category("hs", sub.states) + (Category("ss", sub.softwareStatus) + (EnabledToken(sub.enabled)
    + (Category("roles", sub.roles) + (Category("subroles", sub.subRoles) + AgentToken(agent)))))
  }

  lemma Reassociate<T>(p: seq<T>, a: seq<T>, b: seq<T>, c: seq<T>, d: seq<T>, e: seq<T>, f: seq<T>)
    ensures p + a + b + c + d + e + f == p + (a + (b + (c + (d + (e + f)))))
  {
    assert d + e + f == d + (e + f);
    assert b + c + (d + (e + f)) == b + (c + (d + (e + f)));
    assert p + a + (b + (c + (d + (e + f)))) == p + (a + (b + (c + (d + (e + f)))));
  }

  lemma BodyTokensFollow(sub: ScnSubscribe, xname: string, agent: string)
    ensures (HeadTokens(sub, xname) + AgentToken(agent))[2..] == BodyTokens(sub, agent)
  {
    Reassociate(["sub", xname], Category("hs", sub.states), Category("ss", sub.softwareStatus),
                EnabledToken(sub.enabled), Category("roles", sub.roles), Category("subroles", sub.subRoles),
                AgentToken(agent));
  }

  /** Every token after the xname has a tag and at least one value. */
  lemma BodyTokensHaveValues(sub: ScnSubscribe, agent: string)
    requires '#' !in agent && '.' !in agent && PlainFields(sub)
    ensures forall t :: t in BodyTokens(sub, agent) ==> |Split(t, '.')| >= 2
  {
    CategorySplits("hs", sub.states);
    CategorySplits("ss", sub.softwareStatus);
    EnabledSplits(sub.enabled);
    CategorySplits("roles", sub.roles);
    CategorySplits("subroles", sub.subRoles);
    AgentSplits(agent);
  }

  lemma PrintedKeyParsable(sub: ScnSubscribe, xname: string, agent: string)
    requires '#' !in xname && '#' !in agent && '.' !in agent && PlainFields(sub)
    ensures Parsable(KeyOf(sub, xname, agent)) && Split(KeyOf(sub, xname, agent), '#')[1] == xname
  {
    TokensOf(sub, xname, agent);
    BodyTokensHaveValues(sub, agent);
    BodyTokensFollow(sub, xname, agent);
    var toks := HeadTokens(sub, xname) + AgentToken(agent);
    forall i | 2 <= i < |toks| ensures |Split(toks[i], '.')| >= 2 {
      assert toks[i] == toks[2..][i - 2];
    }
  }

  lemma AbsorbFields(sub: ScnSubscribe, xname: string, agent: string)
    requires '#' !in agent && '.' !in agent && PlainFields(sub)
    ensures AbsorbAll(EMPTY_SUBSCRIBE.(subscriber := xname), xname, BodyTokens(sub, agent))
            == Normal(sub, xname, agent)
  {
    var back := Category("roles", sub.roles) + (Category("subroles", sub.subRoles) + AgentToken(agent));
    AbsorbFrontFields(sub, xname, back);
    var i0 := EMPTY_SUBSCRIBE.(subscriber := xname);
    var i3 := i0.(states := LowerAll(sub.states), softwareStatus := LowerAll(sub.softwareStatus),
                  enabled := if sub.enabled.Some? then Some(true) else None);
    AbsorbBackFields(i3, sub, xname, agent);
  }

  /** Parsing a printed key gives the subscription back, lower-cased, with its owner. */
  lemma RoundTrip(sub: ScnSubscribe, xname: string, agent: string)
    requires '#' !in xname && '#' !in agent && '.' !in agent && PlainFields(sub)
    ensures Parsable(KeyOf(sub, xname, agent)) && Split(KeyOf(sub, xname, agent), '#')[1] == xname
    ensures ParseKey(KeyOf(sub, xname, agent)) == Normal(sub, xname, agent)
  {
    TokensOf(sub, xname, agent);
    PrintedKeyParsable(sub, xname, agent);
    BodyTokensFollow(sub, xname, agent);
    AbsorbFields(sub, xname, agent);
  }

  /** Two requests share a key exactly when they are the same subscription up to letter case
      and the value inside Enabled. */
  lemma KeyInjective(s1: ScnSubscribe, x1: string, a1: string, s2: ScnSubscribe, x2: string, a2: string)
    requires '#' !in x1 && '#' !in a1 && '.' !in a1 && PlainFields(s1)
    requires '#' !in x2 && '#' !in a2 && '.' !in a2 && PlainFields(s2)
    ensures KeyOf(s1, x1, a1) == KeyOf(s2, x2, a2) <==>
            x1 == x2 && a1 == a2 && LowerAll(s1.states) == LowerAll(s2.states) &&
            LowerAll(s1.softwareStatus) == LowerAll(s2.softwareStatus) &&
            LowerAll(s1.roles) == LowerAll(s2.roles) && LowerAll(s1.subRoles) == LowerAll(s2.subRoles) &&
            s1.enabled.Some? == s2.enabled.Some?
  {
    RoundTrip(s1, x1, a1);
    RoundTrip(s2, x2, a2);
  }

  /** Printing a parsed key again, through either API's encoder, gives the key back. */
  lemma ReencodeParsed(sub: ScnSubscribe, xname: string, agent: string)
    requires '#' !in xname && '#' !in agent && '.' !in agent && PlainFields(sub)
    ensures var key := KeyOf(sub, xname, agent);
            KeyOf(ParseKey(key), xname, ParseKey(key).subscriberAgent) == key
    ensures var key := KeyOf(sub, xname, agent);
            '@' !in xname && '@' !in agent && Lower(xname) == xname && Lower(agent) == agent ==>
              KeyOfV1(ParseKey(key)) == key
  {
    RoundTrip(sub, xname, agent);
    LowerAllIdempotent(sub.states);
    LowerAllIdempotent(sub.softwareStatus);
    LowerAllIdempotent(sub.roles);
    LowerAllIdempotent(sub.subRoles);
    if '@' !in xname && '@' !in agent {
      SplitFree(xname, '@');
      SplitAtDelimiter(agent, '@', xname);
    }
  }
}
