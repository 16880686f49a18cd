/** What the handlers' effects add up to: exact pruning, local replacement, the algebra of the
    DELETEs, and the invariant every change of the store keeps. */
module SubscriptionLaws {
  import opened Text
  import opened Types
  import opened SubscriptionKey
  import opened Scanners
  import opened Store
  import opened Fanout
  import opened Subscriptions

  // ---------- sound subscriptions ----------

  /** An xname as the xname library accepts them, without a delimiter. */
  predicate XnameShape(x: string) {
    x != "" && x[0] in "adpsx" && '#' !in x && '@' !in x
  }

  /** The owner and the values are such that the substring scanners read the key correctly. */
  predicate Sound(s: Subscription) {
    XnameShape(s.xname) && SvcFree(s.body, s.xname) && '#' !in s.agent
  }

  ghost predicate SoundKey(key: string) {
    exists s :: Sound(s) && s.Key() == key
  }

  ghost predicate SoundKeys(data: Db) {
    forall k :: k in data ==> SoundKey(k)
  }

  predicate Usable(v: SubData) {
    v.scnNodes != [] && v.url != ""
  }

  /** The store invariant. */
  ghost predicate StoreInv(data: Db) {
    SoundKeys(data) && forall k :: k in data ==> Usable(data[k])
  }

  /** The mark under which prune looks an owner up besides the bare xname. */
  function PruneMark(xname: string, agent: string): string {
    if agent == "" then "bad_sub" else agent + "@" + xname
  }

  /** Everything the handlers read off a sound subscription's key is right. */
  lemma OwnerRead(s: Subscription)
    requires Sound(s)
    ensures var k := s.Key();
            Scanned(k) && XnameOf(k) == s.xname
            && ScanAgent(k) == (if s.agent == "" then NoAgent else Agent(s.agent))
            && ScanAgentPatch(k) == (if s.agent == "" then NoAgent else Agent(s.agent))
            && KeyLabel(k) == OwnerLabel(s.xname, s.agent) == PatchLabel(k)
            && PruneLabel(k) == PruneMark(s.xname, s.agent)
  {
    ScannedExactly(s.body, s.xname, s.agent);
    XnameOfKey(s.body, s.xname, s.agent);
    ScannersFindAgent(s.body, s.xname, s.agent);
  }

  /** Owners are never confused: two sound subscriptions with one key have one owner. */
  lemma OneOwner(s: Subscription, t: Subscription)
    requires Sound(s) && Sound(t) && s.Key() == t.Key()
    ensures s.xname == t.xname && s.agent == t.agent
  {
    OwnerRead(s);
    OwnerRead(t);
  }

  lemma SvcTokenHasSvc(token: string)
    requires Split(token, '.')[0] == "svc"
    ensures Contains(token, "svc")
  {
    assert OccursAt("svc", "svc", 0);
    JoinSplit(token, '.');
    ContainsJoin(Split(token, '.'), '.', "svc");
  }

  lemma TokensWithoutSvc(head: string)
    requires !Contains(head, "svc")
    ensures forall i :: 0 <= i < |Split(head, '#')| ==> Split(Split(head, '#')[i], '.')[0] != "svc"
  {
    JoinSplit(head, '#');
    ContainsJoin(Split(head, '#'), '#', "svc");
    AnyContainsMeans(Split(head, '#'), "svc");
    forall i | 0 <= i < |Split(head, '#')| ensures Split(Split(head, '#')[i], '.')[0] != "svc" {
      if Split(Split(head, '#')[i], '.')[0] == "svc" {
        SvcTokenHasSvc(Split(head, '#')[i]);
      }
    }
  }

  lemma AgentTokenSplits(agent: string)
    requires '#' !in agent
    ensures Split("svc." + agent, '#') == ["svc." + agent] && |Split("svc." + agent, '.')| >= 2
  {
    SplitFree("svc." + agent, '#');
    assert "svc." + agent == "svc" + ['.'] + agent;
    SplitAtDelimiter("svc", '.', agent);
  }

  lemma HeadThenAgentParsable(key: string, head: string, agent: string)
    requires !Contains(head, "svc") && '#' !in agent && |Split(key, '#')| >= 2
    requires key == head + (if agent == "" then "" else "#" + ("svc." + agent))
    ensures Parsable(key)
  {
    TokensWithoutSvc(head);
    if agent == "" {
      assert key == head;
    } else {
      AgentTokenSplits(agent);
      SplitConcat(head, '#', "svc." + agent);
      assert key == head + ['#'] + ("svc." + agent);
    }
  }

  /** A sound subscription's key can be parsed, even if its values contain delimiters. */
  lemma SoundIsParsable(s: Subscription)
    requires Sound(s)
    ensures Parsable(s.Key())
  {
    OwnerRead(s);
    ScannedHasXname(s.Key());
    HeadHasSvc(s.body, s.xname);
    KeyIsHeadThenAgent(s.body, s.xname, s.agent);
    HeadThenAgentParsable(s.Key(), HeadOf(s.body, s.xname), s.agent);
  }

  /** In a sound store no handler's index or slice expression is out of range. */
  lemma NothingPanics(data: Db, lo: string, hi: string, scn: Scn, suppressed: set<string>, w: Who)
    requires StoreInv(data)
    ensures ScanSafe(data) && PatchSafe(ListingOf(data, lo, hi), w)
            && NodesListed(ListingOf(data, RANGE_START, RANGE_END), scn, suppressed)
    ensures forall k :: k in data ==> Parsable(k)
  {
    forall k | k in data ensures !ScanAgent(k).OutOfRange? && !ScanAgentPatch(k).OutOfRange? && Parsable(k) {
      var s :| Sound(s) && s.Key() == k;
      OwnerRead(s);
      SoundIsParsable(s);
    }
  }

  // ---------- prune ----------

  /** A prune removes a sound subscription exactly if its xname or its agent@xname is marked and the
      store answers, and leaves every other record as it was. */
  lemma PruneExact(data: Db, marks: set<string>, io: KvIo, s: Subscription)
    requires Sound(s) && s.Key() in data
    ensures var after := data - Victims(data, OfMarks(marks), io);
            (s.Key() !in after <==> io.rangeOk && s.Key() !in io.deleteFails
                                    && (s.xname in marks || PruneMark(s.xname, s.agent) in marks))
            && (s.Key() in after ==> after[s.Key()] == data[s.Key()])
  {
    OwnerRead(s);
  }

  /** Each DELETE removes a sound subscription exactly if it names its owner (and, for v1, its Url) and
      the store answers. */
  lemma AgentDeleteExact(data: Db, io: KvIo, s: Subscription, x: string, a: string)
    requires Sound(s) && s.Key() in data
    ensures s.Key() in Victims(data, OfAgent(x, a), io) <==>
            s.xname == x && s.agent == a && io.rangeOk && s.Key() !in io.deleteFails
  {
    OwnerRead(s);
  }

  lemma XnameDeleteExact(data: Db, io: KvIo, s: Subscription, x: string)
    requires Sound(s) && s.Key() in data
    ensures s.Key() in Victims(data, OfXname(x), io) <==> s.xname == x && io.rangeOk && s.Key() !in io.deleteFails
  {
    OwnerRead(s);
  }

  lemma BodyDeleteExact(data: Db, io: KvIo, s: Subscription, subscriber: string, url: string)
    requires Sound(s) && s.Key() in data
    ensures s.Key() in Victims(data, OfBody(subscriber, url), io) <==>
            Lower(OwnerLabel(s.xname, s.agent)) == Lower(subscriber) && Lower(url) == Lower(data[s.Key()].url)
            && io.rangeOk && s.Key() !in io.deleteFails
  {
    OwnerRead(s);
  }

  // ---------- PATCH ----------

  lemma {:induction false} FirstMatchInList(list: seq<Record>, w: Who)
    requires Sorted(list)
    ensures match FirstMatch(list, w)
            case None => forall r :: r in list ==> !PatchMatch(w, r)
            case Some(key) =>
              (exists r :: r in list && r.key == key && PatchMatch(w, r))
              && (forall r :: r in list && PatchMatch(w, r) ==> r.key == key || Less(key, r.key))
  {
    if list != [] {
      assert list == [list[0]] + list[1..];
      if PatchMatch(w, list[0]) {
        forall r | r in list ensures r.key == list[0].key || Less(list[0].key, r.key) {
          var i :| 0 <= i < |list| && list[i] == r;
        }
        assert list[0] in list;
      } else {
        FirstMatchInList(list[1..], w);
        assert forall r :: r in list <==> r == list[0] || r in list[1..];
      }
    }
  }

  /** A key of the range that the PATCH is looking for. */
  ghost predicate Sought(data: Db, lo: string, hi: string, w: Who, key: string) {
    key in data && InRange(lo, hi, key) && PatchMatch(w, Record(key, data[key]))
  }

  /** The record a PATCH replaces is the least one it could, and there is one if it could be any. */
  lemma FirstMatchLeast(data: Db, lo: string, hi: string, w: Who)
    ensures match FirstMatch(ListingOf(data, lo, hi), w)
            case None => forall k :: !Sought(data, lo, hi, w, k)
            case Some(key) => Sought(data, lo, hi, w, key)
                              && forall k :: Sought(data, lo, hi, w, k) ==> k == key || Less(key, k)
  {
    var list := ListingOf(data, lo, hi);
    FirstMatchInList(list, w);
    ListingHas(data, lo, hi, list);
    forall k | Sought(data, lo, hi, w, k) ensures Record(k, data[k]) in list {
    }
  }

  /** When the store answers, a PATCH changes at most one record: the least sought one makes way
      for the new key, every other record stays, and the store keeps its size or, if the new key
      was there already, loses one. */
  lemma PatchIsLocal(data: Db, lo: string, hi: string, w: Who, exKey: string, value: SubData)
    ensures var after := Patched(data, lo, hi, w, exKey, value, KV_OK);
            match FirstMatch(ListingOf(data, lo, hi), w)
            case None => after == data
            case Some(key) =>
              exKey in after && after[exKey] == value && (key in after <==> key == exKey)
              && (forall k :: k != key && k != exKey ==>
                    (k in after <==> k in data) && (k in data ==> after[k] == data[k]))
              && |after| == |data| - (if exKey != key && exKey in data then 1 else 0)
  {
    FirstMatchLeast(data, lo, hi, w);
    match FirstMatch(ListingOf(data, lo, hi), w)
    case None =>
    case Some(key) =>
      var after := Patched(data, lo, hi, w, exKey, value, KV_OK);
      assert after.Keys == data.Keys - {key} + {exKey};
      if exKey != key && exKey in data {
        assert after.Keys == data.Keys - {key};
      } else if exKey != key {
        assert |data.Keys - {key}| == |data| - 1;
        assert exKey !in data.Keys - {key};
      } else {
        assert after.Keys == data.Keys;
      }
  }

  /** A PATCH that finds a record loses the subscription, leaving neither the old nor the new record,
      exactly if it is to be stored under another key that is not there yet, the old one is deleted
      and the store call fails. */
  lemma PatchLosesExactly(data: Db, lo: string, hi: string, w: Who, exKey: string, value: SubData, io: KvIo)
    requires io.rangeOk && FirstMatch(ListingOf(data, lo, hi), w).Some?
    ensures var key, after := FirstMatch(ListingOf(data, lo, hi), w).value, Patched(data, lo, hi, w, exKey, value, io);
            key !in after && exKey !in after <==>
            exKey != key && exKey !in data && key !in io.deleteFails && !io.storeOk
  {
    FirstMatchLeast(data, lo, hi, w);
  }

  /** The owner a v1 body names. */
  function OwnerV1(subscriber: string): (string, string) {
    var toks := Split(subscriber, '@');
    if |toks| > 1 then (Lower(toks[1]), Lower(toks[0])) else (Lower(subscriber), "")
  }

  lemma LabelSplits(x: string, a: string)
    requires '@' !in x && a != "" && |Split(a + ['@'] + x, '@')| <= 2
    ensures Split(a + ['@'] + x, '@') == [a, x] && Index(a + ['@'] + x, "@") == |a|
  {
    var s := a + ['@'] + x;
    if '@' in a {
      SplitConcat(a, '@', x);
      OneCharSplit(a, '@');
      assert false;
    }
    SplitFree(x, '@');
    SplitAtDelimiter(a, '@', x);
    assert OccursAt(s, "@", |a|) by {
      assert s[|a|..|a| + 1] == "@";
    }
    forall i | OccursAt(s, "@", i) ensures i >= |a| {
      assert s[i..i + 1][0] == s[i];
    }
  }

  lemma {:induction false} OneCharSplit(a: string, c: char)
    requires c in a
    ensures |Split(a, c)| >= 2
  {
    if a[0] != c {
      OneCharSplit(a[1..], c);
    }
  }

  lemma LowerPieces(a: string, m: string, x: string)
    requires Lower(a + m + x) == a + m + x
    ensures Lower(a) == a && Lower(x) == x
  {
    var l := a + m + x;
    forall i | 0 <= i < |a| ensures LowerChar(a[i]) == a[i] {
      assert l[i] == a[i] && Lower(l)[i] == LowerChar(l[i]);
    }
    forall i | 0 <= i < |x| ensures LowerChar(x[i]) == x[i] {
      assert l[|a| + |m| + i] == x[i] && Lower(l)[|a| + |m| + i] == LowerChar(x[i]);
    }
  }

  lemma LabelNamesOwner(x: string, a: string)
    requires '@' !in x && Lower(OwnerLabel(x, a)) == OwnerLabel(x, a) && |Split(OwnerLabel(x, a), '@')| <= 2
    ensures OwnerV1(OwnerLabel(x, a)) == (x, a) && PatchStart(OwnerLabel(x, a)) == "sub#" + x
  {
    if a == "" {
      SplitFree(x, '@');
      if Index(x, "@") >= 0 {
        var i := Index(x, "@");
        OccurrenceCovers(x, "@", i, i);
        assert false;
      }
    } else {
      assert OwnerLabel(x, a) == a + ['@'] + x;
      LabelSplits(x, a);
      LowerPieces(a, ['@'], x);
      assert (a + ['@'] + x)[|a| + 1..] == x;
    }
  }

  /** A v1 PATCH only ever finds records of the owner its body names, and looks in their range. */
  lemma V1FindsItsOwner(s: Subscription, subscriber: string, url: string, value: SubData)
    requires Sound(s) && Lower(subscriber) == subscriber && |Split(subscriber, '@')| <= 2
    requires PatchMatch(ByBody(subscriber, url), Record(s.Key(), value))
    ensures OwnerV1(subscriber) == (s.xname, s.agent) && PatchStart(subscriber) == "sub#" + s.xname
  {
    OwnerRead(s);
    LabelNamesOwner(s.xname, s.agent);
  }

  /** The PATCH is on behalf of this owner: v2 takes it from the path, v1 from the body. */
  predicate OnBehalfOf(w: Who, xname: string, agent: string) {
    match w
    case ByPath(x, a) => x == xname && a == agent
    case ByBody(s, _) => Lower(s) == s && |Split(s, '@')| <= 2 && OwnerV1(s) == (xname, agent)
  }

  lemma PatchFindsItsOwner(s: Subscription, w: Who, xname: string, agent: string, value: SubData)
    requires Sound(s) && OnBehalfOf(w, xname, agent) && PatchMatch(w, Record(s.Key(), value))
    ensures s.xname == xname && s.agent == agent
  {
    OwnerRead(s);
    if w.ByBody? {
      V1FindsItsOwner(s, w.subscriber, w.url, value);
    }
  }

  /** Whatever calls fail, a PATCH leaves the records of every other owner as they were: the key it
      removes and the key it writes both belong to the owner it is on behalf of. */
  lemma PatchTouchesOneOwner(data: Db, lo: string, hi: string, w: Who, j: ScnSubscribe, xname: string, agent: string,
                             io: KvIo, s: Subscription)
    requires SoundKeys(data) && OnBehalfOf(w, xname, agent) && SvcFree(j, xname)
    requires Sound(s) && (s.xname != xname || s.agent != agent)
    ensures SameAt(data, Patched(data, lo, hi, w, KeyOf(j, xname, agent), DataOf(j), io), s.Key())
  {
    FirstMatchLeast(data, lo, hi, w);
    var found := FirstMatch(ListingOf(data, lo, hi), w);
    if found.Some? {
      PatchedKeyIsOwners(found.value, data[found.value], w, j, xname, agent, s);
    }
    PatchedElsewhere(data, lo, hi, w, KeyOf(j, xname, agent), DataOf(j), io, s.Key());
  }

  predicate SameAt(before: Db, after: Db, k: string) {
    (k in after <==> k in before) && (k in before ==> k in after && after[k] == before[k])
  }

  lemma PatchedElsewhere(data: Db, lo: string, hi: string, w: Who, exKey: string, value: SubData, io: KvIo, k: string)
    requires var found := FirstMatch(ListingOf(data, lo, hi), w); found.Some? ==> k != found.value && k != exKey
    ensures SameAt(data, Patched(data, lo, hi, w, exKey, value, io), k)
  {
  }

  lemma PatchedKeyIsOwners(key: string, value: SubData, w: Who, j: ScnSubscribe, xname: string, agent: string,
                           s: Subscription)
    requires SoundKey(key) && PatchMatch(w, Record(key, value)) && OnBehalfOf(w, xname, agent) && SvcFree(j, xname)
    requires Sound(s) && (s.xname != xname || s.agent != agent)
    ensures s.Key() != key && s.Key() != KeyOf(j, xname, agent)
  {
    var t :| Sound(t) && t.Key() == key;
    PatchFindsItsOwner(t, w, xname, agent, value);
    if s.Key() == key {
      OneOwner(s, t);
    }
    var made := Owned(j, xname, agent);
    if s.Key() == made.Key() {
      OneOwner(s, made);
    }
  }

  /** A key is in PATCH's range exactly if it continues the start with nothing or with a
      character below 'z'. */
  lemma PatchRangeExactly(start: string, key: string)
    ensures InRange(start, start + "z", key) <==> start <= key && (|key| == |start| || key[|start|] < 'z')
  {
    assert start == start + "";
    if InRange(start, start + "z", key) {
      RangeSharesPrefix(start, "", "z", key);
    }
    if start <= key {
      var rest := key[|start|..];
      assert key == start + rest;
      LessAfterPrefix(start, rest, "");
      LessAfterPrefix(start, rest, "z");
      assert "z"[1..] == "";
    }
  }

  lemma SameSoughtSameMatch(data: Db, lo: string, hi: string, lo': string, hi': string, w: Who)
    requires forall k :: Sought(data, lo, hi, w, k) <==> Sought(data, lo', hi', w, k)
    ensures FirstMatch(ListingOf(data, lo, hi), w) == FirstMatch(ListingOf(data, lo', hi'), w)
  {
    FirstMatchLeast(data, lo, hi, w);
    FirstMatchLeast(data, lo', hi', w);
    var m, m' := FirstMatch(ListingOf(data, lo, hi), w), FirstMatch(ListingOf(data, lo', hi'), w);
    if m.Some? && m'.Some? && m != m' {
      LessTransitive(m.value, m'.value, m.value);
      LessIrreflexive(m.value);
      assert false;
    }
  }

  /** v1 PATCH's range-limited scan finds the record a scan of all subscriptions would find. */
  lemma V1RangeComplete(data: Db, subscriber: string, url: string)
    requires SoundKeys(data) && Lower(subscriber) == subscriber && |Split(subscriber, '@')| <= 2
    ensures var start, w := PatchStart(subscriber), ByBody(subscriber, url);
            FirstMatch(ListingOf(data, start, start + "z"), w) == FirstMatch(ListingOf(data, RANGE_START, RANGE_END), w)
  {
    var start, w := PatchStart(subscriber), ByBody(subscriber, url);
    forall k ensures Sought(data, start, start + "z", w, k) <==> Sought(data, RANGE_START, RANGE_END, w, k) {
      if k in data && PatchMatch(w, Record(k, data[k])) {
        var s :| Sound(s) && s.Key() == k;
        OwnerRead(s);
        V1FindsItsOwner(s, subscriber, url, data[k]);
        PatchRangeCovers(s.body, s.xname, s.agent);
      }
    }
    SameSoughtSameMatch(data, start, start + "z", RANGE_START, RANGE_END, w);
  }

  lemma KeyBegins(s: Subscription)
    ensures "sub#" + s.xname <= s.Key()
    ensures s.Key() == "sub#" + s.xname || "sub#" + s.xname + "#" <= s.Key()
  {
    KeyIsHeadThenAgent(s.body, s.xname, s.agent);
    HeadStart(s.body, s.xname);
  }

  lemma EmptyBodyRange(s: Subscription)
    requires Sound(s)
    ensures InRange("sub#", "sub#" + "z", s.Key())
  {
    KeyBegins(s);
    var key := s.Key();
    assert key[..|"sub#" + s.xname|][4] == s.xname[0] == key[4];
    PatchRangeExactly("sub#", key);
  }

  lemma JoinStart(parts: seq<string>, c: char)
    requires |parts| >= 1 && parts[0] != ""
    ensures Join(parts, c) != "" && Join(parts, c)[0] == parts[0][0]
  {
  }

  lemma CategoryStart(tag: string, vals: seq<string>)
    requires tag != ""
    ensures forall t :: t in Category(tag, vals) ==> t != "" && t[0] == tag[0]
  {
    JoinStart([tag] + LowerAll(vals), '.');
  }

  predicate LowTokens(toks: seq<string>) {
    forall t :: t in toks ==> t != "" && t[0] < 'z'
  }

  lemma BodyTokensStart(sub: ScnSubscribe, agent: string)
    ensures LowTokens(BodyTokens(sub, agent))
  {
    CategoryStart("hs", sub.states);
    CategoryStart("ss", sub.softwareStatus);
    JoinStart(["enbl", "enbl"], '.');
    CategoryStart("roles", sub.roles);
    CategoryStart("subroles", sub.subRoles);
    JoinStart(["svc", agent], '.');
    assert LowTokens(Category("hs", sub.states)) && LowTokens(Category("ss", sub.softwareStatus));
    assert LowTokens(EnabledToken(sub.enabled)) && LowTokens(Category("roles", sub.roles));
    assert LowTokens(Category("subroles", sub.subRoles) + AgentToken(agent));
  }

  lemma BodyTokensNotEmpty(sub: ScnSubscribe, agent: string)
    requires agent != ""
    ensures BodyTokens(sub, agent) != []
  {
    assert |AgentToken(agent)| == 1;
  }

  lemma JoinGoesOn(key: string, xname: string, rest: seq<string>)
    requires key == Join(["sub", xname] + rest, '#') && rest != [] && LowTokens(rest)
    ensures var p := "sub#" + xname + "#"; p <= key && |key| > |p| && key[|p|] < 'z'
  {
    assert rest[0] in rest;
    JoinStart(rest, '#');
    JoinAfterXname(xname, rest);
    assert key == "sub#" + xname + "#" + Join(rest, '#');
  }

  lemma KeyIsBodyAfterXname(s: Subscription)
    ensures s.Key() == Join(["sub", s.xname] + BodyTokens(s.body, s.agent), '#')
  {
    var toks := HeadTokens(s.body, s.xname) + AgentToken(s.agent);
    BodyTokensFollow(s.body, s.xname, s.agent);
    assert toks[0] == "sub" && toks[1] == s.xname;
    assert toks == ["sub", s.xname] + toks[2..];
  }

  /** The keys of an owner with an agent go on after the xname with '#' and a tag. */
  lemma KeyGoesOn(s: Subscription)
    requires s.agent != ""
    ensures var p := "sub#" + s.xname + "#"; p <= s.Key() && |s.Key()| > |p| && s.Key()[|p|] < 'z'
  {
    KeyIsBodyAfterXname(s);
    BodyTokensStart(s.body, s.agent);
    BodyTokensNotEmpty(s.body, s.agent);
    JoinGoesOn(s.Key(), s.xname, BodyTokens(s.body, s.agent));
  }

  lemma JoinAfterXname(xname: string, rest: seq<string>)
    ensures Join(["sub", xname] + rest, '#') == "sub#" + xname + (if rest == [] then "" else "#" + Join(rest, '#'))
  {
    var toks := ["sub", xname] + rest;
    assert toks[1..] == [xname] + rest;
    assert toks[1..][1..] == rest;
    assert Join(toks, '#') == "sub" + "#" + Join(toks[1..], '#');
  }

  /** PATCH v2's range, which starts with the component the body names, holds every key of the owner
      the path names: the body's component is the path's or begins it and goes on below 'z', or it is
      the path's with a '#' after it and the owner has an agent. */
  predicate RangeServes(other: string, xname: string, agent: string) {
    (other <= xname && (|other| == |xname| || xname[|other|] < 'z')) || (agent != "" && other == xname + "#")
  }

  lemma RangeServesKey(other: string, s: Subscription)
    requires Sound(s) && RangeServes(other, s.xname, s.agent)
    ensures InRange("sub#" + other, "sub#" + other + "z", s.Key())
  {
    var key, start, p := s.Key(), "sub#" + other, "sub#" + s.xname;
    KeyBegins(s);
    if other <= s.xname {
      assert start <= p <= key;
      if |other| < |s.xname| {
        assert key[|start|] == p[|start|] == s.xname[|other|];
      }
    } else {
      KeyGoesOn(s);
      assert start == p + "#";
    }
    PatchRangeExactly(start, key);
  }

  /** A start that does not serve an owner leaves out one of two of its keys. */
  lemma UnservedKey(other: string, xname: string, agent: string) returns (s: Subscription)
    requires Sound(Owned(EMPTY_SUBSCRIBE, xname, agent)) && !RangeServes(other, xname, agent)
    ensures Sound(s) && s.xname == xname && s.agent == agent
    ensures !InRange("sub#" + other, "sub#" + other + "z", s.Key())
  {
    var start, bare, enbl := "sub#" + other, Owned(EMPTY_SUBSCRIBE, xname, agent),
                             Owned(EMPTY_SUBSCRIBE.(enabled := Some(true)), xname, agent);
    TwoKeys(xname, agent);
    PatchRangeExactly(start, bare.Key());
    PatchRangeExactly(start, enbl.Key());
    if InRange(start, start + "z", bare.Key()) {
      s := enbl;
      if InRange(start, start + "z", enbl.Key()) {
        StartOfBoth(other, xname, agent, bare.Key(), enbl.Key());
        assert false;
      }
    } else {
      s := bare;
    }
  }

  lemma TwoKeys(xname: string, agent: string)
    ensures KeyOf(EMPTY_SUBSCRIBE, xname, agent)
            == "sub#" + xname + (if agent == "" then "" else "#" + ("svc." + agent))
    ensures "sub#" + xname + "#" + "e" <= KeyOf(EMPTY_SUBSCRIBE.(enabled := Some(true)), xname, agent)
  {
    KeyIsHeadThenAgent(EMPTY_SUBSCRIBE, xname, agent);
    assert HeadTokens(EMPTY_SUBSCRIBE, xname) == ["sub", xname] + [];
    JoinAfterXname(xname, []);
    var sub := EMPTY_SUBSCRIBE.(enabled := Some(true));
    KeyIsHeadThenAgent(sub, xname, agent);
    var token := Join(["enbl", "enbl"], '.');
    assert HeadTokens(sub, xname) == ["sub", xname] + [token];
    JoinAfterXname(xname, [token]);
    JoinStart(["enbl", "enbl"], '.');
  }

  lemma StartOfBoth(other: string, xname: string, agent: string, bare: string, enbl: string)
    requires bare == "sub#" + xname + (if agent == "" then "" else "#" + ("svc." + agent))
    requires "sub#" + xname + "#" + "e" <= enbl
    requires var start := "sub#" + other;
             start <= bare && start <= enbl && (|bare| == |start| || bare[|start|] < 'z')
    ensures RangeServes(other, xname, agent)
  {
    var start, p := "sub#" + other, "sub#" + xname + "#";
    assert "sub#" + xname <= bare;
    if |other| <= |xname| {
      assert other == bare[4..][..|other|] == xname[..|other|];
      if |other| < |xname| {
        assert bare[|start|] == xname[|other|];
      }
    } else {
      assert agent != "" && bare == p + ("svc." + agent);
      assert enbl[|p|] == (p + "e")[|p|] == 'e' && bare[|p|] == 's';
      assert |start| <= |p|;
      assert other == bare[4..][..|other|] == xname + "#";
    }
  }

  lemma SingleListing(key: string, value: SubData, lo: string, hi: string)
    ensures ListingOf(map[key := value], lo, hi) == if InRange(lo, hi, key) then [Record(key, value)] else []
  {
    var data := map[key := value];
    var list := ListingOf(data, lo, hi);
    ListingHas(data, lo, hi, list);
    ListingDistinct(data, lo, hi, list);
    assert forall i :: 0 <= i < |list| ==> list[i] in list;
    if InRange(lo, hi, key) {
      assert Record(key, value) in list && |list| <= 1;
    }
  }

  /** The PATCH's range scan finds what a scan of all subscriptions would find. */
  ghost predicate RangeComplete(data: Db, other: string, xname: string, agent: string) {
    var start := "sub#" + other;
    FirstMatch(ListingOf(data, start, start + "z"), ByPath(xname, agent))
    == FirstMatch(ListingOf(data, RANGE_START, RANGE_END), ByPath(xname, agent))
  }

  lemma ServedIsComplete(data: Db, other: string, xname: string, agent: string)
    requires SoundKeys(data) && RangeServes(other, xname, agent)
    ensures RangeComplete(data, other, xname, agent)
  {
    var start, w := "sub#" + other, ByPath(xname, agent);
    forall k ensures Sought(data, start, start + "z", w, k) <==> Sought(data, RANGE_START, RANGE_END, w, k) {
      if k in data && PatchMatch(w, Record(k, data[k])) {
        var s :| Sound(s) && s.Key() == k;
        OwnerRead(s);
        RangeServesKey(other, s);
      }
    }
    SameSoughtSameMatch(data, start, start + "z", RANGE_START, RANGE_END, w);
  }

  lemma UnservedIsMissed(s: Subscription, other: string)
    requires Sound(s) && !InRange("sub#" + other, "sub#" + other + "z", s.Key())
    ensures !RangeComplete(map[s.Key() := SubData("u", ["all"])], other, s.xname, s.agent)
  {
    var value := SubData("u", ["all"]);
    OwnerRead(s);
    SingleListing(s.Key(), value, "sub#" + other, "sub#" + other + "z");
    SingleListing(s.Key(), value, RANGE_START, RANGE_END);
    assert PatchMatch(ByPath(s.xname, s.agent), Record(s.Key(), value));
  }

  lemma UnservedStore(other: string, xname: string, agent: string) returns (data: Db)
    requires Sound(Owned(EMPTY_SUBSCRIBE, xname, agent)) && !RangeServes(other, xname, agent)
    ensures SoundKeys(data) && !RangeComplete(data, other, xname, agent)
  {
    var s := UnservedKey(other, xname, agent);
    UnservedIsMissed(s, other);
    data := map[s.Key() := SubData("u", ["all"])];
  }

  /** PATCH v2 takes its range from the body and its owner from the path. In every sound store it
      finds the record that a scan of all subscriptions would find, exactly if the range serves. */
  lemma V2RangeExactly(other: string, xname: string, agent: string)
    requires Sound(Owned(EMPTY_SUBSCRIBE, xname, agent))
    ensures (forall data :: SoundKeys(data) ==> RangeComplete(data, other, xname, agent))
            <==> RangeServes(other, xname, agent)
  {
    if RangeServes(other, xname, agent) {
      forall data | SoundKeys(data) ensures RangeComplete(data, other, xname, agent) {
        ServedIsComplete(data, other, xname, agent);
      }
    } else {
      var data := UnservedStore(other, xname, agent);
    }
  }

  /** A delimiter-free start that does not serve finds nothing at all: the PATCH succeeds without effect. */
  lemma V2RangeMisses(data: Db, other: string, xname: string, agent: string)
    requires SoundKeys(data) && '#' !in other && !RangeServes(other, xname, agent)
    ensures var start := "sub#" + other;
            FirstMatch(ListingOf(data, start, start + "z"), ByPath(xname, agent)) == None
  {
    var start, w := "sub#" + other, ByPath(xname, agent);
    FirstMatchLeast(data, start, start + "z", w);
    forall k ensures !Sought(data, start, start + "z", w, k) {
      if Sought(data, start, start + "z", w, k) {
        var s :| Sound(s) && s.Key() == k;
        OwnerRead(s);
        KeyBegins(s);
        PatchRangeExactly(start, k);
        PrefixOfKey(k, other, xname);
        assert false;
      }
    }
  }

  lemma PrefixOfKey(key: string, other: string, xname: string)
    requires "sub#" + other <= key && '#' !in other && "sub#" + xname <= key
    requires key == "sub#" + xname || "sub#" + xname + "#" <= key
    ensures other <= xname
  {
    var rest := key[4..];
    assert key == "sub#" + rest;
    assert other <= rest && xname <= rest && (rest == xname || rest[|xname|] == '#');
    assert forall j :: 0 <= j < |other| ==> other[j] == rest[j] != '#' by {
      assert forall j :: 0 <= j < |other| ==> other[j] in other;
    }
    assert |other| <= |xname|;
  }

  // ---------- the algebra of DELETEs ----------

  /** Store and prune map after a DELETE, when the store answers. */
  function Deleted(data: Db, marks: set<string>, t: Target): (Db, set<string>) {
    var gone := Victims(data, t, KV_OK);
    (data - gone, marks + LabelsOf(gone))
  }

  /** Agent DELETEs of one component, one after another. */
  function DeletedAgents(data: Db, marks: set<string>, xname: string, agents: seq<string>): (Db, set<string>) {
    if agents == [] then (data, marks)
    else
      var (d, m) := Deleted(data, marks, OfAgent(xname, agents[0]));
      DeletedAgents(d, m, xname, agents[1..])
  }

  function KeysOfAgents(data: Db, xname: string, agents: seq<string>): set<string> {
    set k | k in data && Scanned(k) && XnameOf(k) == xname && AgentName(ScanAgent(k)) in agents
  }

  lemma KeysOfOneMore(data: Db, xname: string, agents: seq<string>)
    requires agents != []
    ensures var first := Victims(data, OfAgent(xname, agents[0]), KV_OK);
            first + KeysOfAgents(data - first, xname, agents[1..]) == KeysOfAgents(data, xname, agents)
  {
    assert agents == [agents[0]] + agents[1..];
  }

  lemma RemovedTwice(data: Db, marks: set<string>, first: set<string>, rest: set<string>)
    ensures data - first - rest == data - (first + rest)
    ensures marks + LabelsOf(first) + LabelsOf(rest) == marks + LabelsOf(first + rest)
  {
  }

  lemma {:induction false} AgentDeletesAddUp(data: Db, marks: set<string>, xname: string, agents: seq<string>)
    ensures var gone := KeysOfAgents(data, xname, agents);
            DeletedAgents(data, marks, xname, agents) == (data - gone, marks + LabelsOf(gone))
  {
    if agents == [] {
      assert KeysOfAgents(data, xname, agents) == {};
      assert data - {} == data && marks + LabelsOf({}) == marks;
    } else {
      var first := Victims(data, OfAgent(xname, agents[0]), KV_OK);
      AgentDeletesAddUp(data - first, marks + LabelsOf(first), xname, agents[1..]);
      KeysOfOneMore(data, xname, agents);
      RemovedTwice(data, marks, first, KeysOfAgents(data - first, xname, agents[1..]));
    }
  }

  /** The xname DELETE leaves the store and the prune map that agent DELETEs for all its agents
      leave, in any order, and neither touches a record of another component. */
  lemma XnameDeleteIsAllAgentDeletes(data: Db, marks: set<string>, xname: string, agents: seq<string>)
    requires forall k :: k in data && Scanned(k) && XnameOf(k) == xname ==> AgentName(ScanAgent(k)) in agents
    ensures Deleted(data, marks, OfXname(xname)) == DeletedAgents(data, marks, xname, agents)
    ensures forall k :: k in data && XnameOf(k) != xname ==>
              k in Deleted(data, marks, OfXname(xname)).0 && Deleted(data, marks, OfXname(xname)).0[k] == data[k]
  {
    AgentDeletesAddUp(data, marks, xname, agents);
    assert Victims(data, OfXname(xname), KV_OK) == KeysOfAgents(data, xname, agents);
  }

  // ---------- the store invariant ----------

  /** The checks of both APIs let a body pass only if it asks for something to be notified of. */
  lemma ChecksAskForSomething(b: ScnSubscribe)
    ensures HasTrigger(b) <==> exists attr :: AsksFor(b, attr)
    ensures CheckSubscriptionV1(b) ==> CheckSubscriptionV2(b) && b.subscriber != ""
    ensures CheckSubscriptionV2(b) ==> Usable(DataOf(b)) && exists attr :: AsksFor(b, attr)
  {
    if HasTrigger(b) {
      var attr := if b.states != [] then Lower(b.states[0])
                  else if b.softwareStatus != [] then Lower(b.softwareStatus[0])
                  else if b.roles != [] then Lower(b.roles[0])
                  else if b.subRoles != [] then Lower(b.subRoles[0])
                  else "enbl";
      assert AsksFor(b, attr);
    }
  }

  lemma PostKeepsInv(data: Db, s: Subscription, valid: bool, io: KvIo)
    requires StoreInv(data) && (valid ==> Sound(s) && Usable(DataOf(s.body)))
    ensures StoreInv(Posted(data, s.Key(), s.body, valid, io))
  {
  }

  lemma RemovalKeepsInv(data: Db, gone: set<string>)
    requires StoreInv(data)
    ensures StoreInv(data - gone)
  {
  }

  lemma StoredKeepsInv(data: Db, s: Subscription, value: SubData)
    requires StoreInv(data) && Sound(s)
    ensures StoreInv(data[s.Key() := value]) <==> Usable(value)
  {
    var after := data[s.Key() := value];
    assert s.Key() in after && after[s.Key()] == value;
  }

  /** Replacing a record keeps the invariant exactly if the new record is sound and usable. */
  lemma ReplacedKeepsInv(data: Db, key: string, s: Subscription, value: SubData, io: KvIo)
    requires StoreInv(data) && key in data && Sound(s)
    ensures StoreInv(Replaced(data, key, s.Key(), value, io)) <==>
            (!io.storeOk || (s.Key() != key && key in io.deleteFails) || Usable(value))
  {
    RemovalKeepsInv(data, {key});
    StoredKeepsInv(data, s, value);
    StoredKeepsInv(data - {key}, s, value);
  }

  /** v1 PATCH keeps the invariant. */
  lemma PatchV1KeepsInv(data: Db, j: ScnSubscribe, io: KvIo)
    requires StoreInv(data) && CheckSubscriptionV1(j) && SvcFree(j, OwnerV1(j.subscriber).0)
    requires Lower(j.subscriber) == j.subscriber
    ensures var start := PatchStart(j.subscriber);
            StoreInv(Patched(data, start, start + "z", ByBody(j.subscriber, j.url), KeyOfV1(j), DataOf(j), io))
  {
    var start, w := PatchStart(j.subscriber), ByBody(j.subscriber, j.url);
    FirstMatchLeast(data, start, start + "z", w);
    match FirstMatch(ListingOf(data, start, start + "z"), w)
    case None =>
    case Some(key) => V1Replaces(data, key, j, io);
  }

  lemma V1Replaces(data: Db, key: string, j: ScnSubscribe, io: KvIo)
    requires StoreInv(data) && CheckSubscriptionV1(j) && SvcFree(j, OwnerV1(j.subscriber).0)
    requires Lower(j.subscriber) == j.subscriber
    requires key in data && PatchMatch(ByBody(j.subscriber, j.url), Record(key, data[key]))
    ensures StoreInv(Replaced(data, key, KeyOfV1(j), DataOf(j), io))
  {
    var s :| Sound(s) && s.Key() == key;
    V1FindsItsOwner(s, j.subscriber, j.url, data[key]);
    KeyOfV1Owner(j);
    ReplacedKeepsInv(data, key, Owned(j, s.xname, s.agent), DataOf(j), io);
  }

  lemma KeyOfV1Owner(j: ScnSubscribe)
    ensures KeyOfV1(j) == KeyOf(j, OwnerV1(j.subscriber).0, OwnerV1(j.subscriber).1)
  {
  }

  /** v2 PATCH does not check its body. With a store that answers it keeps the invariant exactly
      if it finds nothing to replace or its body has components and a Url. */
  lemma PatchV2KeepsInvExactly(data: Db, body: ScnSubscribe, xname: string, agent: string, io: KvIo)
    requires StoreInv(data) && SvcFree(LowerBody(body), xname)
    requires io.rangeOk && io.storeOk && io.deleteFails == {}
    ensures var j := LowerBody(body);
            var start, w := PatchStart(j.subscriber), ByPath(xname, agent);
            StoreInv(Patched(data, start, start + "z", w, KeyOf(j, xname, agent), DataOf(j), io)) <==>
            (FirstMatch(ListingOf(data, start, start + "z"), w) == None || (j.components != [] && j.url != ""))
  {
    var j := LowerBody(body);
    var start, w := PatchStart(j.subscriber), ByPath(xname, agent);
    FirstMatchLeast(data, start, start + "z", w);
    match FirstMatch(ListingOf(data, start, start + "z"), w)
    case None =>
    case Some(key) => V2Replaces(data, key, j, xname, agent, io);
  }

  lemma V2Replaces(data: Db, key: string, j: ScnSubscribe, xname: string, agent: string, io: KvIo)
    requires StoreInv(data) && key in data && PatchMatch(ByPath(xname, agent), Record(key, data[key]))
             && SvcFree(j, xname)
    ensures XnameShape(xname) && '#' !in agent
    ensures StoreInv(Replaced(data, key, KeyOf(j, xname, agent), DataOf(j), io)) <==>
            (!io.storeOk || (KeyOf(j, xname, agent) != key && key in io.deleteFails) || Usable(DataOf(j)))
  {
    var s :| Sound(s) && s.Key() == key;
    OwnerRead(s);
    ReplacedKeepsInv(data, key, Owned(j, xname, agent), DataOf(j), io);
  }

  // ---------- POST, then GET ----------

  lemma {:induction false} ListedForHas(list: seq<Record>, xname: string)
    ensures forall info :: info in ListedFor(list, xname) <==>
              exists r :: r in list && XnameOf(r.key) == xname && info == ListedInfo(r)
  {
    if list != [] {
      var init, last := list[..|list| - 1], list[|list| - 1];
      ListedForHas(init, xname);
      assert list == init + [last];
      assert forall r :: r in list <==> r in init || r == last;
    }
  }

  /** A stored subscription with plain values is listed for its component as it was requested,
      lower-cased, with its components and Url; and nothing else is listed than stored records. */
  lemma StoredIsListed(data: Db, s: Subscription)
    requires Sound(s) && '.' !in s.agent && PlainFields(s.body) && s.Key() in data
    ensures var listed := ListedFor(ListingOf(data, RANGE_START, RANGE_END), s.xname);
            Normal(s.body, s.xname, s.agent).(components := data[s.Key()].scnNodes, url := data[s.Key()].url) in listed
            && (forall info :: info in listed ==>
                  exists k :: k in data && XnameOf(k) == s.xname && info == ListedInfo(Record(k, data[k])))
  {
    var list := ListingOf(data, RANGE_START, RANGE_END);
    ListedForHas(list, s.xname);
    ListingHas(data, RANGE_START, RANGE_END, list);
    OwnerRead(s);
    RoundTrip(s.body, s.xname, s.agent);
    var rec := Record(s.Key(), data[s.Key()]);
    assert rec in list && ListedInfo(rec) in ListedFor(list, s.xname);
  }
}
