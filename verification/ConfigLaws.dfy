/** Laws of the active config: what profile switches keep, and what a merge restores. */
module ConfigLaws {
  import opened Prelude
  import opened Documents
  import opened ActiveConfig
  import opened Routing

  // ----- Profile switches -----

  /** One profile switch: the profile with the custom rules and ports of that moment. */
  datatype Switch = Switch(profile: Document, customRules: seq<string>, ports: PortOverrides)

  /** The config after a sequence of profile switches. */
  function AfterSwitches(config: Option<Document>, switches: seq<Switch>): Option<Document> {
    if switches == [] then config
    else
      var last := switches[|switches| - 1];
      Some(Replaced(AfterSwitches(config, switches[..|switches| - 1]), last.profile, last.customRules, last.ports))
  }

  /** One more switch to a mapping keeps a sticky value, or takes the profile's when there was none. */
  lemma StickyStep(config: Option<Document>, s: Switch, k: Key)
    requires IsSticky(k) && s.profile.Mapping?
    ensures Replaced(config, s.profile, s.customRules, s.ports).Get(k) == OldEntry(config, k).Or(s.profile.Get(k))
  {
    ReplacedGet(config, s.profile, s.customRules, s.ports, k);
  }

  /** The number of switches up to and including the last one to a document that is no mapping. */
  function LastBare(switches: seq<Switch>): (n: nat)
    ensures n <= |switches|
  {
    if switches == [] then 0
    else if !switches[|switches| - 1].profile.Mapping? then |switches|
    else LastBare(switches[..|switches| - 1])
  }

  /** The value under `k` in the first profile of the run that defines it. */
  function FirstDefined(switches: seq<Switch>, k: Key): Option<Value> {
    if switches == [] then None
    else FirstDefined(switches[..|switches| - 1], k).Or(switches[|switches| - 1].profile.Get(k))
  }

  /**
    * What a sticky key holds after any run of switches: the old value, else that of the first profile that
    * defines it; a document that is no mapping wipes the slate clean.
    */
  lemma {:induction false} StickyValue(config: Option<Document>, switches: seq<Switch>, k: Key)
    requires IsSticky(k)
    ensures var n := LastBare(switches);
            OldEntry(AfterSwitches(config, switches), k)
              == (if n == 0 then OldEntry(config, k) else None).Or(FirstDefined(switches[n..], k))
    decreases |switches|
  {
    if switches != [] {
      var m := |switches| - 1;
      if switches[m].profile.Mapping? {
        StickyValue(config, switches[..m], k);
        StickyStep(AfterSwitches(config, switches[..m]), switches[m], k);
        DefinedLater(switches, LastBare(switches[..m]), k);
      } else {
        assert switches[|switches|..] == [];
      }
    }
  }

  lemma DefinedLater(switches: seq<Switch>, n: nat, k: Key)
    requires n < |switches|
    ensures var m := |switches| - 1;
            FirstDefined(switches[n..], k) == FirstDefined(switches[..m][n..], k).Or(switches[m].profile.Get(k))
  {
    var tail := switches[n..];
    assert tail[..|tail| - 1] == switches[..|switches| - 1][n..];
  }

  /**
    * A sticky key holds the value of the first profile of the run that defines it, however many
    * later profiles define it too.
    */
  lemma {:induction false} StickyKeepsFirst(config: Option<Document>, switches: seq<Switch>, k: Key, j: nat)
    requires IsSticky(k) && j < |switches|
    requires OldEntry(config, k).None?
    requires forall i :: 0 <= i < j ==> switches[i].profile.Get(k).None?
    requires switches[j].profile.Get(k).Some?
    requires forall i :: j < i < |switches| ==> switches[i].profile.Mapping?
    ensures OldEntry(AfterSwitches(config, switches), k) == switches[j].profile.Get(k)
    decreases |switches|
  {
    var n := |switches| - 1;
    var before := AfterSwitches(config, switches[..n]);
    assert OldEntry(before, k) == if j == n then None else switches[j].profile.Get(k) by {
      if j == n {
        StickyUnset(config, switches[..n], k);
      } else {
        StickyKeepsFirst(config, switches[..n], k, j);
      }
    }
    StickyStep(before, switches[n], k);
  }

  /** A sticky key that neither the old config nor any profile of the run defines stays undefined. */
  lemma {:induction false} StickyUnset(config: Option<Document>, switches: seq<Switch>, k: Key)
    requires IsSticky(k)
    requires OldEntry(config, k).None?
    requires forall i :: 0 <= i < |switches| ==> switches[i].profile.Get(k).None?
    ensures OldEntry(AfterSwitches(config, switches), k).None?
    decreases |switches|
  {
    if switches != [] {
      StickyUnset(config, switches[..|switches| - 1], k);
    }
  }

  /** A sticky key that the old config defines survives every run of switches to mappings. */
  lemma {:induction false} StickyKeepsOld(config: Option<Document>, switches: seq<Switch>, k: Key)
    requires IsSticky(k) && OldEntry(config, k).Some?
    requires forall i :: 0 <= i < |switches| ==> switches[i].profile.Mapping?
    ensures OldEntry(AfterSwitches(config, switches), k) == OldEntry(config, k)
    decreases |switches|
  {
    if switches != [] {
      var n := |switches| - 1;
      StickyKeepsOld(config, switches[..n], k);
      StickyStep(AfterSwitches(config, switches[..n]), switches[n], k);
    }
  }

  /** Every key outside ports, rules and the sticky keys, `allow-lan` included, is the last profile's. */
  lemma OtherKeysFollowLast(config: Option<Document>, switches: seq<Switch>, k: Key)
    requires switches != []
    requires !IsSticky(k) && !IsPort(k) && k != Rules
    ensures AfterSwitches(config, switches).value.Get(k) == switches[|switches| - 1].profile.Get(k)
  {
    var n := |switches| - 1;
    var last := switches[n];
    if last.profile.Mapping? {
      ReplacedGet(AfterSwitches(config, switches[..n]), last.profile, last.customRules, last.ports, k);
    }
  }

  /** A port key comes from the settings, else from the last profile, and never from an older config. */
  lemma PortsFollowSettings(config: Option<Document>, switches: seq<Switch>, k: Key)
    requires switches != [] && IsPort(k)
    requires switches[|switches| - 1].profile.Mapping?
    ensures var last := switches[|switches| - 1];
            AfterSwitches(config, switches).value.Get(k) == PortValue(last.ports, k).Or(last.profile.Get(k))
  {
    var n := |switches| - 1;
    var last := switches[n];
    ReplacedGet(AfterSwitches(config, switches[..n]), last.profile, last.customRules, last.ports, k);
  }

  /**
    * By name: mode, redirection ports, log level, DNS and TUN stay as they were; `allow-lan`, `bind-address`,
    * the proxies, the providers and every other key are the profile's.
    */
  lemma SwitchByName(config: Option<Document>, s: Switch, k: Key)
    requires s.profile.Mapping?
    ensures var after := Replaced(config, s.profile, s.customRules, s.ports);
            && (k in {Mode, RedirPort, TproxyPort, LogLevel, Dns, Tun} ==>
                  after.Get(k) == OldEntry(config, k).Or(s.profile.Get(k)))
            && (k in {AllowLan, BindAddress, Proxies, ProxyGroups, ProxyProviders, RuleProviders} || k.Other? ==>
                  after.Get(k) == s.profile.Get(k))
  {
    ReplacedGet(config, s.profile, s.customRules, s.ports, k);
  }

  /** The listening ports and the controller address come from the settings, else from the profile. */
  lemma SwitchPortsByName(config: Option<Document>, s: Switch)
    requires s.profile.Mapping?
    ensures var after, ports := Replaced(config, s.profile, s.customRules, s.ports), s.ports;
            && after.Get(MixedPort) == (if ports.mixedPort.Some? then Some(Num(ports.mixedPort.value))
                                        else s.profile.Get(MixedPort))
            && after.Get(SocksPort) == (if ports.socksPort.Some? then Some(Num(ports.socksPort.value))
                                        else s.profile.Get(SocksPort))
            && after.Get(HttpPort) == (if ports.httpPort.Some? then Some(Num(ports.httpPort.value))
                                       else s.profile.Get(HttpPort))
            && (ports.externalController.None? ==> after.Get(ExternalController) == s.profile.Get(ExternalController))
  {
    ReplacedGet(config, s.profile, s.customRules, s.ports, MixedPort);
    ReplacedGet(config, s.profile, s.customRules, s.ports, SocksPort);
    ReplacedGet(config, s.profile, s.customRules, s.ports, HttpPort);
    ReplacedGet(config, s.profile, s.customRules, s.ports, ExternalController);
  }

  /** The number that a string of decimal digits denotes. */
  function ValueOf(digits: string): nat {
    if digits == [] then 0 else 10 * ValueOf(digits[..|digits| - 1]) + DigitValue(digits[|digits| - 1])
  }

  function DigitValue(d: char): nat {
    if '0' <= d <= '9' then (d - '0') as nat else 0
  }

  lemma DigitReadsBack(n: nat)
    requires n < 10
    ensures var d := "0123456789"[n];
            '0' <= d <= '9' && DigitValue(d) == n
  {}

  /** A printed port is made of digits and reads back as the same number. */
  lemma {:induction false} DecimalRoundTrip(n: nat)
    ensures Decimal(n) != [] && ValueOf(Decimal(n)) == n
    ensures ':' !in Decimal(n)
  {
    DigitReadsBack(n % 10);
    var d := "0123456789"[n % 10];
    if n < 10 {
      assert Decimal(n) == [d] && [d][..0] == [];
    } else {
      DecimalRoundTrip(n / 10);
      assert Decimal(n) == Decimal(n / 10) + [d];
      assert (Decimal(n / 10) + [d])[..|Decimal(n / 10)|] == Decimal(n / 10);
    }
  }

  /** The controller address is the host, a colon, and the port; host and port can be read back from it. */
  lemma EndpointReadsBack(host: string, port: nat)
    ensures var e := Endpoint(host, port);
            && |e| > |host| + 1 && e[..|host|] == host && e[|host|] == ':' && ValueOf(e[|host| + 1..]) == port
            && ':' !in e[|host| + 1..]
  {
    DecimalRoundTrip(port);
    assert Endpoint(host, port)[|host| + 1..] == Decimal(port);
  }

  /** Two old configs that agree on the sticky keys are replaced by the same document. */
  lemma OnlyStickyKeysMatter(a: Option<Document>, b: Option<Document>, s: Switch)
    requires forall k :: IsSticky(k) ==> OldEntry(a, k) == OldEntry(b, k)
    ensures Replaced(a, s.profile, s.customRules, s.ports) == Replaced(b, s.profile, s.customRules, s.ports)
  {
    if s.profile.Mapping? {
      forall k ensures ReplacedEntry(a, s.profile, s.customRules, s.ports, k)
                    == ReplacedEntry(b, s.profile, s.customRules, s.ports, k) {}
      SameEntries(Replaced(a, s.profile, s.customRules, s.ports), Replaced(b, s.profile, s.customRules, s.ports));
    }
  }

  /** Doing the same switch twice is doing it once. */
  lemma SwitchIdempotent(config: Option<Document>, s: Switch)
    ensures var once := Replaced(config, s.profile, s.customRules, s.ports);
            Replaced(Some(once), s.profile, s.customRules, s.ports) == once
  {
    var once := Replaced(config, s.profile, s.customRules, s.ports);
    if s.profile.Mapping? {
      forall k ensures ReplacedEntry(Some(once), s.profile, s.customRules, s.ports, k) == once.Get(k) {
        ReplacedGet(config, s.profile, s.customRules, s.ports, k);
      }
      ReplacedByEntries(Some(once), s.profile, s.customRules, s.ports, once);
    }
  }

  /** After a switch the rules are the custom rules, in order, followed by the profile's rules. */
  lemma SwitchRules(config: Option<Document>, s: Switch, profileRules: seq<string>)
    requires HasRules(s.profile, profileRules)
             || (s.profile.Mapping? && s.profile.Get(Rules).None? && profileRules == [])
    ensures HasRules(Replaced(config, s.profile, s.customRules, s.ports), s.customRules + profileRules)
  {
    ReplacedGet(config, s.profile, s.customRules, s.ports, Rules);
    FromStringsConcat(s.customRules, profileRules);
    assert FromStrings(s.customRules) + [] == FromStrings(s.customRules);
    assert s.customRules + [] == s.customRules;
  }

  // ----- Merges -----

  /** A merge with the right count puts the custom rules in front of the profile rules, whatever came before. */
  lemma MergeRestores(front: seq<string>, profileRules: seq<string>, customRules: seq<string>)
    ensures MergedRules(front + profileRules, |profileRules|, customRules) == customRules + profileRules
  {
    assert Suffix(front + profileRules, |profileRules|) == profileRules;
  }

  /** Two merges with one count act like the second alone exactly when the first one kept its full count. */
  lemma MergeTwiceIff(existing: seq<string>, n: nat, c1: seq<string>, c2: seq<string>)
    ensures MergedRules(MergedRules(existing, n, c1), n, c2) == MergedRules(existing, n, c2)
       <==> n <= |existing| || c1 == []
  {
    var once := MergedRules(existing, n, c1);
    if n <= |existing| {
      assert Suffix(once, n) == Suffix(existing, n);
    } else if c1 == [] {
      assert once == existing;
    } else {
      assert |Suffix(once, n)| > |existing|;
      assert |MergedRules(once, n, c2)| > |MergedRules(existing, n, c2)|;
    }
  }

  /** Repeating one merge changes nothing exactly when the list held its count or there is nothing to add. */
  lemma MergeIdempotentIff(existing: seq<string>, n: nat, c: seq<string>)
    ensures MergedRules(MergedRules(existing, n, c), n, c) == MergedRules(existing, n, c)
       <==> n <= |existing| || c == []
  {
    MergeTwiceIff(existing, n, c, c);
  }

  /** A merge of a config that is a mapping changes the `rules` entry only, and that to the merged list. */
  lemma MergeDocument(doc: Document, n: nat, customRules: seq<string>)
    requires doc.Mapping?
    ensures HasRules(Merged(Some(doc), n, customRules), MergedRules(RulesOf(doc), n, customRules))
    ensures forall k :: k != Rules ==> Merged(Some(doc), n, customRules).Get(k) == doc.Get(k)
  {}

  /** On files: the second of two merges alone decides exactly when the first one kept its full count. */
  lemma MergeTwiceDocumentIff(doc: Document, n: nat, c1: seq<string>, c2: seq<string>)
    ensures Merged(Some(Merged(Some(doc), n, c1)), n, c2) == Merged(Some(doc), n, c2)
       <==> !doc.Mapping? || n <= |RulesOf(doc)| || c1 == []
  {
    if doc.Mapping? {
      var once := Merged(Some(doc), n, c1);
      var twice, direct := Merged(Some(once), n, c2), Merged(Some(doc), n, c2);
      HasRulesReads(once, MergedRules(RulesOf(doc), n, c1));
      MergeTwiceIff(RulesOf(doc), n, c1, c2);
      HasRulesReads(twice, MergedRules(RulesOf(once), n, c2));
      HasRulesReads(direct, MergedRules(RulesOf(doc), n, c2));
      if RulesOf(twice) == RulesOf(direct) {
        SameEntries(twice, direct);
      }
    }
  }

  /**
    * A switch stores the number of all rule entries while a merge keeps text entries only: the next
    * merge therefore keeps exactly the profile's text rules if and only if every entry is text or no
    * custom rule stood in front.
    */
  lemma CountFitsMergeIff(config: Option<Document>, s: Switch, items: seq<Value>, customRules: seq<string>)
    requires s.profile.Get(Rules) == Some(Seq(items))
    ensures MergedRules(RulesOf(Replaced(config, s.profile, s.customRules, s.ports)), |items|, customRules)
              == customRules + Strings(items)
       <==> (forall v :: v in items ==> v.Str?) || s.customRules == []
  {
    ReplacedGet(config, s.profile, s.customRules, s.ports, Rules);
    StringsConcat(FromStrings(s.customRules), items);
    StringsRoundTrip(s.customRules);
    assert RulesOf(Replaced(config, s.profile, s.customRules, s.ports)) == s.customRules + Strings(items);
    StringsLength(items);
    OvercountKeepsFront(s.customRules, Strings(items), |items|, customRules);
  }

  /** With a count that is at least the number of texts, a merge keeps exactly the texts or some of the front too. */
  lemma OvercountKeepsFront(front: seq<string>, texts: seq<string>, n: nat, customRules: seq<string>)
    requires |texts| <= n
    ensures MergedRules(front + texts, n, customRules) == customRules + texts <==> |texts| == n || front == []
  {
    if |texts| == n {
      MergeRestores(front, texts, customRules);
    } else if front == [] {
      assert Suffix(front + texts, n) == texts;
    } else {
      assert |Suffix(front + texts, n)| > |texts|;
    }
  }

  /** After a merge a packet gets the first matching custom rule's policy, else the kept rules'. */
  lemma MergeRouting<P, Q>(
    hit: (string, P) -> bool, policy: string -> Q, front: seq<string>, profileRules: seq<string>,
    customRules: seq<string>, p: P)
    ensures Route(hit, policy, MergedRules(front + profileRules, |profileRules|, customRules), p)
         == Route(hit, policy, customRules, p).Or(Route(hit, policy, profileRules, p))
  {
    MergeRestores(front, profileRules, customRules);
    RouteConcat(hit, policy, customRules, profileRules, p);
  }
}
