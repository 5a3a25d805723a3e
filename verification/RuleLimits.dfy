/** Where the rule boundary goes wrong: for each unsafe path, exactly when it loses or misplaces rules. */
module RuleLimits {
  import opened Prelude
  import opened Documents
  import opened Settings
  import opened ActiveConfig
  import opened ConfigLaws
  import opened Profiles
  import opened RuleState
  import opened RuleInvariant

  // ----- A count that does not fit -----

  /**
    * With `n` as the count, a merge over `front ++ profileRules` yields the custom rules and the
    * profile rules if and only if `n` is their number, or is larger with nothing in front.
    */
  lemma StaleCountIff(front: seq<string>, profileRules: seq<string>, n: nat, custom: seq<string>)
    ensures MergedRules(front + profileRules, n, custom) == custom + profileRules
       <==> n == |profileRules| || (n > |profileRules| && front == [])
  {
    var existing := front + profileRules;
    if n == |profileRules| {
      MergeRestores(front, profileRules, custom);
    } else if n > |profileRules| && front == [] {
      assert Suffix(existing, n) == profileRules;
    } else {
      assert |Suffix(existing, n)| != |profileRules|;
      assert |MergedRules(existing, n, custom)| != |custom + profileRules|;
    }
  }

  /** A count below the number of profile rules cuts off exactly the first rules of the profile. */
  lemma SmallCountCutsProfile(front: seq<string>, profileRules: seq<string>, n: nat, custom: seq<string>)
    requires n <= |profileRules|
    ensures MergedRules(front + profileRules, n, custom) == custom + profileRules[|profileRules| - n..]
  {}

  /** The document has a `rules` entry that is no list; a switch and a reader treat it as no rules at all. */
  predicate NoRuleList(doc: Document) {
    doc.Get(Rules).Some? && !doc.Get(Rules).value.Seq?
  }

  /**
    * A refresh rewrites the config and leaves the stored count alone: the next added rule gives the
    * intended list if and only if the download is a mapping and has as many rules as the old profile, or
    * fewer with no custom rule yet, or an entry in their place that is no list.
    */
  lemma RefreshThenAddIff(s: State, front: seq<string>, uid: string, download: Document, rule: string)
    requires Aligned(s, front) && s.profiles.Some? && s.profiles.value.current == Some(uid)
    requires AfterRefreshProfile(s, uid, Some(download)).1 == Done
    ensures var refreshed := AfterRefreshProfile(s, uid, Some(download)).0;
            var n := |ActiveRules(s.profiles, s.files)|;
            (ConfigRules(AfterAddRule(refreshed, rule, "", []).0.config)
               == CustomRules(s.settings) + [rule] + RulesOf(download)
             <==> && download.Mapping?
                  && (|| n == |RulesOf(download)| || NoRuleList(download)
                      || (n > |RulesOf(download)| && CustomRules(s.settings) == [])))
  {
    var refreshed := AfterRefreshProfile(s, uid, Some(download)).0;
    var custom := CustomRules(s.settings);
    var n := |ActiveRules(s.profiles, s.files)|;
    RefreshedRules(s, uid, download);
    match download
    case Mapping(_) =>
      AddedRules(refreshed, rule);
      StaleCountIff(custom, RulesOf(download), n, custom + [rule]);
    case Bare(_) =>
      assert |custom + [rule] + RulesOf(download)| > 0;
    case Unparsable =>
      AddedRules(refreshed, rule);
      AlignedReads(s, front);
      MergeRestores(front, ActiveRules(s.profiles, s.files), custom + [rule]);
      assert |custom + [rule] + ActiveRules(s.profiles, s.files)| > |custom + [rule] + RulesOf(download)|;
  }

  /** The config that a refresh of the current profile leaves behind. */
  lemma RefreshedRules(s: State, uid: string, download: Document)
    requires s.profiles.Some? && s.profiles.value.current == Some(uid)
    requires AfterRefreshProfile(s, uid, Some(download)).1 == Done
    ensures var refreshed := AfterRefreshProfile(s, uid, Some(download)).0;
            && refreshed.settings == s.settings
            && (download.Mapping? ==>
                  && refreshed.config.Some? && refreshed.config.value.Mapping?
                  && ConfigRules(refreshed.config)
                     == if NoRuleList(download) then [] else CustomRules(s.settings) + RulesOf(download))
            && (download.Bare? ==> refreshed.config.Some? && refreshed.config.value.Bare?)
            && (download.Unparsable? && s.config.Some? && s.config.value.Mapping? ==>
                  && refreshed.config.Some? && refreshed.config.value.Mapping?
                  && ConfigRules(refreshed.config) == ConfigRules(s.config))
  {
    if download.Mapping? {
      SwitchedTexts(s, download);
    }
  }

  /** The text rules of a config after a switch to a mapping. */
  lemma SwitchedTexts(s: State, doc: Document)
    requires doc.Mapping?
    ensures SwitchConfig(s, doc).Mapping?
    ensures RulesOf(SwitchConfig(s, doc)) == if NoRuleList(doc) then [] else CustomRules(s.settings) + RulesOf(doc)
  {
    var custom := CustomRules(s.settings);
    ReplacedGet(s.config, doc, custom, PortsFrom(s.settings), Rules);
    StringsRoundTrip(custom);
    if !NoRuleList(doc) {
      StringsConcat(FromStrings(custom), RuleEntries(doc));
      assert FromStrings(custom) + [] == FromStrings(custom) && custom + [] == custom;
    }
  }

  /** The config rules after a rule was added, whatever the stored count is. */
  lemma AddedRules(s: State, rule: string)
    requires s.config.Some? && s.config.value.Mapping?
    ensures var custom := CustomRules(s.settings) + [rule];
            ConfigRules(AfterAddRule(s, rule, "", []).0.config)
              == MergedRules(ConfigRules(s.config), s.settings.profileRulesCount.GetOr(0), custom)
  {
    var custom := CustomRules(s.settings) + [rule];
    var n := s.settings.profileRulesCount.GetOr(0);
    MergeDocument(s.config.value, n, custom);
    HasRulesReads(Merged(s.config, n, custom), MergedRules(RulesOf(s.config.value), n, custom));
  }

  // ----- Rules added behind the profile -----

  /**
    * Rules appended from the command line count as the end of the profile part: the next merge drops
    * as many rules from the front of the profile as were appended, up to all of them.
    */
  lemma AppendThenMerge(front: seq<string>, profileRules: seq<string>, extra: seq<string>, custom: seq<string>)
    ensures var lost := if |extra| <= |profileRules| then |extra| else |profileRules|;
            MergedRules(front + profileRules + extra, |profileRules|, custom)
              == custom + profileRules[lost..] + Suffix(extra, |profileRules|)
  {
    var lost := if |extra| <= |profileRules| then |extra| else |profileRules|;
    var existing := front + profileRules + extra;
    assert Suffix(existing, |profileRules|) == profileRules[lost..] + Suffix(extra, |profileRules|);
  }

  /** Appending to an aligned config and then adding a rule keeps every profile rule only if nothing was appended. */
  lemma AppendThenAddIff(s: State, front: seq<string>, extra: seq<string>, rule: string)
    requires Aligned(s, front)
    ensures Appended(s.config.value, extra).Ok?
    ensures var appended := s.(config := Some(Appended(s.config.value, extra).value));
            var profileRules := ActiveRules(s.profiles, s.files);
            (ConfigRules(AfterAddRule(appended, rule, "", []).0.config)
               == CustomRules(s.settings) + [rule] + profileRules + extra
             <==> extra == [])
  {
    var appended := s.(config := Some(Appended(s.config.value, extra).value));
    var profileRules := ActiveRules(s.profiles, s.files);
    var custom := CustomRules(s.settings) + [rule];
    AppendedRules(s, front, extra);
    AddedRules(appended, rule);
    AppendThenMerge(front, profileRules, extra, custom);
    var merged := MergedRules(front + profileRules + extra, |profileRules|, custom);
    assert |merged| == |custom| + |profileRules|;
    if extra == [] {
      assert front + profileRules + extra == front + profileRules;
      MergeRestores(front, profileRules, custom);
      assert custom + profileRules + extra == custom + profileRules;
    }
  }

  lemma AppendedRules(s: State, front: seq<string>, extra: seq<string>)
    requires Aligned(s, front)
    ensures Appended(s.config.value, extra).Ok? && Appended(s.config.value, extra).value.Mapping?
    ensures RulesOf(Appended(s.config.value, extra).value) == front + ActiveRules(s.profiles, s.files) + extra
  {
    var all := front + ActiveRules(s.profiles, s.files);
    FromStringsConcat(all, extra);
    HasRulesReads(Appended(s.config.value, extra).value, all + extra);
  }

  // ----- Equal texts on both sides of the boundary -----

  /**
    * Deleting a provider removes its rule by text. The config still ends with the whole profile if and
    * only if no profile rule has that text.
    */
  lemma DeleteProviderKeepsProfileIff(s: State, front: seq<string>, name: string)
    requires Aligned(s, front) && AfterDeleteProvider(s, name).1 == Done
    ensures var profileRules := ActiveRules(s.profiles, s.files);
            (ConfigRules(AfterDeleteProvider(s, name).0.config) == Without(front, ProviderRule(name)) + profileRules
             <==> ProviderRule(name) !in profileRules)
  {
    var rule, profileRules := ProviderRule(name), ActiveRules(s.profiles, s.files);
    RemovedEverywhere(s, front, name);
    WithoutAbsent(profileRules, rule);
    var kept, rest := Without(front, rule), Without(profileRules, rule);
    if |rest| != |profileRules| {
      assert |kept + rest| != |kept + profileRules|;
    }
  }

  lemma RemovedEverywhere(s: State, front: seq<string>, name: string)
    requires Aligned(s, front) && AfterDeleteProvider(s, name).1 == Done
    ensures ConfigRules(AfterDeleteProvider(s, name).0.config)
         == Without(front, ProviderRule(name)) + Without(ActiveRules(s.profiles, s.files), ProviderRule(name))
  {
    var rule := ProviderRule(name);
    var all := front + ActiveRules(s.profiles, s.files);
    RetainedStrings(all, rule);
    WithoutAbsent(all, rule);
    WithoutConcat(front, ActiveRules(s.profiles, s.files), rule);
    var t := AfterDeleteProvider(s, name).0;
    HasRulesReads(t.config.value, Without(all, rule));
  }

  /**
    * A new rule is recognised as custom, and the invariant kept, if and only if no profile rule has its
    * text. Otherwise the boundary is found too early from then on.
    */
  lemma AddRuleKeepsIff(s: State, front: seq<string>, rule: string)
    requires Aligned(s, front)
    ensures var t := AfterAddRule(s, rule, "", []).0;
            && (Inv(t) <==> rule !in ActiveRules(s.profiles, s.files))
            && (Boundary(ConfigRules(t.config), ActiveRules(t.profiles, t.files)) == |CustomRules(t.settings)|
                <==> rule !in ActiveRules(s.profiles, s.files))
  {
    var t, custom := AfterAddRule(s, rule, "", []).0, CustomRules(s.settings) + [rule];
    var profileRules := ActiveRules(s.profiles, s.files);
    AlignedReads(s, front);
    AddedRules(s, rule);
    MergeRestores(front, profileRules, custom);
    BoundaryIff(custom, profileRules);
    assert custom[|custom| - 1] == rule;
    assert Disjoint(custom, profileRules) <==> rule !in profileRules;
    if rule !in profileRules {
      AddRuleKeeps(s, front, rule, "", []);
    }
    assert CustomRules(t.settings) == custom && rule in custom;
    if Inv(t) {
      InvDisjoint(t);
    }
  }

  lemma InvDisjoint(s: State)
    requires Inv(s)
    ensures Disjoint(CustomRules(s.settings), ActiveRules(s.profiles, s.files))
  {
    var front :| Aligned(s, front);
  }

  /** The same for the rule of a new provider. */
  lemma AddProviderKeepsIff(s: State, front: seq<string>, p: RuleProvider)
    requires Aligned(s, front) && ValidProvider(p)
    ensures Inv(AfterAddProvider(s, p).0) <==> ProviderRule(p.name) !in ActiveRules(s.profiles, s.files)
  {
    var t, rule := AfterAddProvider(s, p).0, ProviderRule(p.name);
    if rule !in ActiveRules(s.profiles, s.files) {
      AddProviderKeeps(s, front, p);
    }
    assert ([rule] + CustomRules(s.settings))[0] == rule;
    assert rule in CustomRules(t.settings);
    if Inv(t) {
      InvDisjoint(t);
    }
  }

  /**
    * Clearing the custom rules leaves exactly the profile rules if and only if there were none, or the
    * profile is not empty and shares no text with them.
    */
  lemma ClearLeavesProfileIff(s: State, custom: seq<string>)
    requires s.config.Some? && s.config.value.Mapping?
    requires HasRules(s.config.value, custom + ActiveRules(s.profiles, s.files))
    ensures var profileRules := ActiveRules(s.profiles, s.files);
            (ConfigRules(AfterClearRules(s, "custom").0.config) == profileRules
             <==> custom == [] || (profileRules != [] && Disjoint(custom, profileRules)))
  {
    var profileRules := ActiveRules(s.profiles, s.files);
    ClearedRules(s, custom);
    BoundaryIff(custom, profileRules);
    var all := custom + profileRules;
    var count := Boundary(all, profileRules);
    if count == |custom| {
      assert all[count..] == profileRules;
    } else {
      assert |all[count..]| != |profileRules|;
    }
  }

  /** Clearing drops exactly the detected number of leading rules. */
  lemma ClearedRules(s: State, custom: seq<string>)
    requires s.config.Some? && s.config.value.Mapping?
    requires HasRules(s.config.value, custom + ActiveRules(s.profiles, s.files))
    ensures var all := custom + ActiveRules(s.profiles, s.files);
            ConfigRules(AfterClearRules(s, "custom").0.config) == all[Boundary(all, ActiveRules(s.profiles, s.files))..]
  {
    var all := custom + ActiveRules(s.profiles, s.files);
    HasRulesReads(s.config.value, all);
    var count := Boundary(all, ActiveRules(s.profiles, s.files));
    MergedFrom(s.config.value, count, []);
    assert [] + all[count..] == all[count..];
  }

  // ----- A profile file that the lookup does not find, or finds changed -----

  /**
    * Activation resolves a profile's file with fallbacks, the boundary lookup does not: the activated
    * rules are found again if and only if the item names the very file that was used. Otherwise no
    * custom rule can be deleted.
    */
  lemma ActivationFoundIff(s: State, uid: string, script: Option<Document>)
    requires s.profiles.Some? && AfterActivate(s, uid, script).1 == Done
    requires var doc := AfterActivate(s, uid, script).0.files[
                          Resolve(s.files, uid, FindItem(s.profiles.value.items, uid).value.file)];
             RulesOf(doc) != []
    ensures var item := FindItem(s.profiles.value.items, uid).value;
            var path := Resolve(s.files, uid, item.file);
            var t := AfterActivate(s, uid, script).0;
            && (ActiveRules(t.profiles, t.files) == RulesOf(t.files[path]) <==> item.file == Some(path))
            && (item.file != Some(path) ==> forall i :: AfterDeleteRule(t, "custom", i) == (t, Rejected(400)))
  {
    var item := FindItem(s.profiles.value.items, uid).value;
    var path := Resolve(s.files, uid, item.file);
    var t := AfterActivate(s, uid, script).0;
    assert ActiveFile(t.profiles) == item.file;
    if item.file != Some(path) {
      assert ActiveRules(t.profiles, t.files) == [];
      NoProfileRules(ConfigRules(t.config));
    }
  }

  /**
    * The scheduler rewrites the file of the active profile and not the config. A deletion after that
    * keeps the whole profile part if and only if its first rule is still in the new file and no stored
    * custom rule has the text of a rule in it.
    */
  lemma StaleFileDeleteIff(s: State, custom: seq<string>, profileRules: seq<string>, i: nat)
    requires s.config.Some? && s.config.value.Mapping? && HasRules(s.config.value, custom + profileRules)
    requires s.settings.customRules == Some(custom)
    requires i < Boundary(ConfigRules(s.config), ActiveRules(s.profiles, s.files)) && i < |custom|
    ensures AfterDeleteRule(s, "custom", i).1 == Done
    ensures ConfigRules(AfterDeleteRule(s, "custom", i).0.config) == RemoveAt(custom, i) + profileRules
       <==> && Disjoint(custom, ActiveRules(s.profiles, s.files))
            && profileRules != [] && profileRules[0] in ActiveRules(s.profiles, s.files)
  {
    var all := custom + profileRules;
    var count := Boundary(all, ActiveRules(s.profiles, s.files));
    HasRulesReads(s.config.value, all);
    DeletedWithCount(s, all, custom, i, count);
    StaleBoundary(custom, profileRules, ActiveRules(s.profiles, s.files));
    KeptFromIff(RemoveAt(custom, i), custom, profileRules, count);
  }

  /** The detected boundary against a changed profile file. */
  lemma StaleBoundary(custom: seq<string>, profileRules: seq<string>, changed: seq<string>)
    requires Boundary(custom + profileRules, changed) > 0
    ensures Boundary(custom + profileRules, changed) == |custom|
       <==> Disjoint(custom, changed) && profileRules != [] && profileRules[0] in changed
  {
    var all := custom + profileRules;
    var i := FirstProfileRule(all, changed);
    assert profileRules != [] ==> all[|custom|] == profileRules[0];
    assert forall j :: 0 <= j < |custom| ==> all[j] == custom[j];
    if Disjoint(custom, changed) {
      assert forall j :: 0 <= j < |custom| ==> custom[j] !in changed;
    } else {
      var x :| x in custom && x in changed;
      var j :| 0 <= j < |custom| && custom[j] == x;
    }
  }

  /** Keeping everything from `count` on keeps exactly the profile part when `count` is the number of custom rules. */
  lemma KeptFromIff(kept: seq<string>, custom: seq<string>, profileRules: seq<string>, count: nat)
    requires count <= |custom + profileRules|
    ensures kept + (custom + profileRules)[count..] == kept + profileRules <==> count == |custom|
  {
    var all := custom + profileRules;
    if count == |custom| {
      assert all[count..] == profileRules;
    } else {
      assert |kept + all[count..]| != |kept + profileRules|;
    }
  }

  /** A deletion keeps everything from the detected boundary on. */
  lemma DeletedWithCount(s: State, all: seq<string>, custom: seq<string>, i: nat, count: nat)
    requires s.config.Some? && s.config.value.Mapping? && ConfigRules(s.config) == all
    requires count == Boundary(all, ActiveRules(s.profiles, s.files))
    requires custom == s.settings.customRules.GetOr(all[..count])
    ensures AfterDeleteRule(s, "custom", i).1 == Done ==>
              && 0 < count && i < count && i < |custom|
              && ConfigRules(AfterDeleteRule(s, "custom", i).0.config) == RemoveAt(custom, i) + all[count..]
  {
    DeletionMerges(s, i, count, custom);
    if AfterDeleteRule(s, "custom", i).1 == Done {
      MergedRead(s.config, AfterDeleteRule(s, "custom", i).0.config, all, count, RemoveAt(custom, i));
    }
  }

  /** Reading a config after a merge that keeps the rules from position `count` on. */
  lemma MergedRead(config: Option<Document>, after: Option<Document>, all: seq<string>, count: nat, rules: seq<string>)
    requires config.Some? && config.value.Mapping? && ConfigRules(config) == all && count <= |all|
    requires after == Some(Merged(config, |all| - count, rules))
    ensures ConfigRules(after) == rules + all[count..]
  {
    MergedFrom(config.value, count, rules);
  }

  /** A deletion that takes effect is a merge with the detected count. */
  lemma DeletionMerges(s: State, i: nat, count: nat, custom: seq<string>)
    requires s.config.Some?
    requires count == Boundary(ConfigRules(s.config), ActiveRules(s.profiles, s.files))
    requires custom == s.settings.customRules.GetOr(ConfigRules(s.config)[..count])
    ensures AfterDeleteRule(s, "custom", i).1 == Done ==>
              && 0 < count && i < count && i < |custom|
              && AfterDeleteRule(s, "custom", i).0.config
                 == Some(Merged(s.config, |ConfigRules(s.config)| - count, RemoveAt(custom, i)))
  {}

  /** A merge that keeps the rules from position `count` on. */
  lemma MergedFrom(doc: Document, count: nat, rules: seq<string>)
    requires doc.Mapping? && count <= |RulesOf(doc)|
    ensures RulesOf(Merged(Some(doc), |RulesOf(doc)| - count, rules)) == rules + RulesOf(doc)[count..]
  {
    var all := RulesOf(doc);
    MergeDocument(doc, |all| - count, rules);
    assert MergedRules(all, |all| - count, rules) == rules + all[count..];
    HasRulesReads(Merged(Some(doc), |all| - count, rules), rules + all[count..]);
  }

  /**
    * With no custom rules stored at all, a deletion after such a rewrite removes a rule of the profile
    * itself, and it is served for every index before the first rule that is still in the file.
    */
  lemma StaleFileDeletesProfileRule(s: State, profileRules: seq<string>, i: nat)
    requires s.config.Some? && s.config.value.Mapping? && HasRules(s.config.value, profileRules)
    requires s.settings.customRules.None?
    ensures AfterDeleteRule(s, "custom", i).1 == Done
       <==> i < Boundary(profileRules, ActiveRules(s.profiles, s.files))
    ensures AfterDeleteRule(s, "custom", i).1 == Done ==>
              i < |profileRules| && ConfigRules(AfterDeleteRule(s, "custom", i).0.config) == RemoveAt(profileRules, i)
  {
    HasRulesReads(s.config.value, profileRules);
    if AfterDeleteRule(s, "custom", i).1 == Done {
      var count := Boundary(profileRules, ActiveRules(s.profiles, s.files));
      DeletedWithCount(s, profileRules, profileRules[..count], i, count);
      RemoveInPrefix(profileRules, count, i);
    }
  }

  lemma RemoveInPrefix(rules: seq<string>, n: nat, i: nat)
    requires i < n <= |rules|
    ensures RemoveAt(rules[..n], i) + rules[n..] == RemoveAt(rules, i)
  {}

  // ----- Provider definitions -----

  /** The providers that a config defines. */
  function DefinedProviders(config: Document): set<string> {
    match config.Get(RuleProviders)
    case Some(Dict(fields)) => fields.Keys
    case _ => {}
  }

  lemma {:induction false} WithoutNamedMeans(providers: seq<RuleProvider>, name: string)
    ensures forall p :: p in WithoutNamed(providers, name) <==> p in providers && p.name != name
  {
    if providers != [] {
      WithoutNamedMeans(providers[1..], name);
      assert forall p :: p in providers <==> p == providers[0] || p in providers[1..];
    }
  }

  /** An accepted provider is the only one of its name afterwards, and all others are kept. */
  lemma AddedProviderListed(s: State, p: RuleProvider, q: RuleProvider)
    requires ValidProvider(p)
    ensures var providers := AfterAddProvider(s, p).0.settings.ruleProviders.value;
            q in providers <==> q == p || (q in s.settings.ruleProviders.GetOr([]) && q.name != p.name)
  {
    WithoutNamedMeans(s.settings.ruleProviders.GetOr([]), p.name);
  }

  /** A deletion takes out every provider of the name and no other; it is refused when there is none. */
  lemma DeletedProviderUnlisted(s: State, name: string, q: RuleProvider)
    ensures var (t, o) := AfterDeleteProvider(s, name);
            var before := s.settings.ruleProviders.GetOr([]);
            && (o != Rejected(404) ==>
                  (q in t.settings.ruleProviders.GetOr([]) <==> q in before && q.name != name))
            && (o == Rejected(404) <==> forall p :: p in before ==> p.name != name)
  {
    var before := s.settings.ruleProviders.GetOr([]);
    WithoutNamedMeans(before, name);
    WithoutNamedLength(before, name);
  }

  lemma {:induction false} WithoutNamedLength(providers: seq<RuleProvider>, name: string)
    ensures |WithoutNamed(providers, name)| <= |providers|
    ensures |WithoutNamed(providers, name)| == |providers| <==> forall p :: p in providers ==> p.name != name
  {
    if providers != [] {
      WithoutNamedLength(providers[1..], name);
      assert forall p :: p in providers <==> p == providers[0] || p in providers[1..];
    }
  }

  lemma {:induction false} SectionNames(providers: seq<RuleProvider>)
    ensures forall name :: name in ProviderSection(providers) <==>
              exists i :: 0 <= i < |providers| && providers[i].name == name
    decreases |providers|
  {
    if providers != [] {
      var n := |providers| - 1;
      SectionNames(providers[..n]);
      forall name
        ensures name in ProviderSection(providers) <==> exists i :: 0 <= i < |providers| && providers[i].name == name
      {
        if name in ProviderSection(providers[..n]) {
          var i :| 0 <= i < n && providers[..n][i].name == name;
          assert providers[i].name == name;
        }
        if exists i :: 0 <= i < |providers| && providers[i].name == name {
          var i :| 0 <= i < |providers| && providers[i].name == name;
          assert i < n ==> providers[..n][i].name == name;
        }
      }
    }
  }

  /** An activation defines exactly the stored providers, once there are any. */
  lemma ActivateDefinesProviders(s: State, uid: string, script: Option<Document>, name: string)
    requires AfterActivate(s, uid, script).1 == Done && AfterActivate(s, uid, script).0.config.value.Mapping?
    requires s.settings.ruleProviders.Some? && s.settings.ruleProviders.value != []
    ensures name in DefinedProviders(AfterActivate(s, uid, script).0.config.value)
       <==> exists i :: 0 <= i < |s.settings.ruleProviders.value| && s.settings.ruleProviders.value[i].name == name
  {
    var item := FindItem(s.profiles.value.items, uid).value;
    var path := Resolve(s.files, uid, item.file);
    var doc := ActivationContent(item, path, s.files, s.profiles.value, script).value;
    InjectedProviders(SwitchConfig(s, doc), s.settings.ruleProviders.value, name);
  }

  /**
    * So does a refresh of the current profile that brings a mapping, whatever providers the download
    * defines. A text that is no YAML leaves the old config, with the section rewritten.
    */
  lemma RefreshDefinesProviders(s: State, uid: string, download: Document, name: string)
    requires s.profiles.Some? && s.profiles.value.current == Some(uid)
    requires AfterRefreshProfile(s, uid, Some(download)).1 == Done
    requires s.settings.ruleProviders.Some? && s.settings.ruleProviders.value != []
    ensures var t := AfterRefreshProfile(s, uid, Some(download)).0;
            download.Mapping? || (download.Unparsable? && s.config.Some? && s.config.value.Mapping?) ==>
              var stored := s.settings.ruleProviders.value;
              && t.config.Some?
              && (name in DefinedProviders(t.config.value) <==> exists i :: 0 <= i < |stored| && stored[i].name == name)
    ensures var t := AfterRefreshProfile(s, uid, Some(download)).0;
            download.Unparsable? && s.config.Some? ==>
              t.config.Some? && forall k :: k != RuleProviders ==> t.config.value.Get(k) == s.config.value.Get(k)
  {
    var providers := s.settings.ruleProviders.value;
    if download.Mapping? {
      InjectedProviders(SwitchConfig(s, download), providers, name);
    } else if download.Unparsable? && s.config.Some? && s.config.value.Mapping? {
      InjectedProviders(s.config.value, providers, name);
    }
  }

  lemma InjectedProviders(doc: Document, providers: seq<RuleProvider>, name: string)
    requires doc.Mapping? && providers != []
    ensures Injected(Some(doc), Some(providers)).Some?
    ensures name in DefinedProviders(Injected(Some(doc), Some(providers)).value)
       <==> exists i :: 0 <= i < |providers| && providers[i].name == name
  {
    SectionNames(providers);
  }

  /**
    * Editing the URL of the active profile does not: afterwards exactly the providers of the downloaded
    * profile are defined, so a stored provider keeps its definition if and only if the profile brings one.
    */
  lemma UpdateDropsProviders(s: State, uid: string, url: string, download: Document, name: string)
    requires EditSwitches(s, uid, Edit(Given(url), true)) && !download.Unparsable?
    ensures var (t, o) := AfterUpdateProfile(s, uid, Edit(Given(url), true), Some(download));
            && o == Done && t.config.Some?
            && (name in DefinedProviders(t.config.value) <==> name in DefinedProviders(download))
  {
    if download.Mapping? {
      ReplacedGet(s.config, download, CustomRules(s.settings), PortsFrom(s.settings), RuleProviders);
    }
  }

  /** Adding a provider before any config exists stores it, fails, and leaves an empty document that takes no rules. */
  lemma AddProviderWithoutConfig(s: State, p: RuleProvider)
    requires s.config.None? && ValidProvider(p)
    ensures var (t, o) := AfterAddProvider(s, p);
            && o == Rejected(500) && t.config == Some(Bare(Null))
            && p in t.settings.ruleProviders.value && ProviderRule(p.name) in CustomRules(t.settings)
            && ConfigRules(AfterAddRule(t, "MATCH,DIRECT", "", []).0.config) == []
  {
    var t := AfterAddProvider(s, p).0;
    var providers := WithoutNamed(s.settings.ruleProviders.GetOr([]), p.name) + [p];
    assert providers[|providers| - 1] == p;
    var custom := CustomRules(s.settings);
    assert ([ProviderRule(p.name)] + custom)[0] == ProviderRule(p.name);
  }

  // ----- Lookups that change under an unchanged config -----

  /**
    * A change that leaves config and settings alone keeps the boundary if and only if the lookup of the
    * current profile still finds the same rules.
    */
  lemma LookupKeptIff(s: State, front: seq<string>, t: State)
    requires Aligned(s, front) && t.config == s.config && t.settings == s.settings
    ensures EndsWithProfile(t) <==> ActiveRules(t.profiles, t.files) == ActiveRules(s.profiles, s.files)
    ensures Inv(t) <==> ActiveRules(t.profiles, t.files) == ActiveRules(s.profiles, s.files)
  {
    var before, after := ActiveRules(s.profiles, s.files), ActiveRules(t.profiles, t.files);
    AlignedReads(s, front);
    if EndsWithProfile(t) {
      assert Suffix(front + before, |after|) == before;
    }
    if Inv(t) {
      InvEndsWithProfile(t);
    }
    if after == before {
      assert Aligned(t, front);
      assert EndsWithProfile(t);
    }
  }

  /** Editing the current profile without a new URL: the stored short name has to find the same rules. */
  lemma EditKeepsIff(s: State, front: seq<string>, uid: string)
    requires Aligned(s, front) && s.profiles.Some? && s.profiles.value.current == Some(uid)
    ensures FindItem(s.profiles.value.items, uid).Some?
    ensures var item := FindItem(s.profiles.value.items, uid).value;
            (Inv(AfterUpdateProfile(s, uid, Edit(Absent, true), None).0)
             <==> RulesAt(s.files, Canonical(item).file) == RulesAt(s.files, item.file))
  {
    EditedLookup(s, uid);
    LookupKeptIff(s, front, AfterUpdateProfile(s, uid, Edit(Absent, true), None).0);
  }

  /**
    * A new URL for the current profile: the download goes to the file that the short name resolves to,
    * the lookup keeps the stored name. The switched config has the boundary if and only if the download is
    * a good profile and the two are one file or hold the same rules.
    */
  lemma UrlEditKeepsIff(s: State, uid: string, url: string, download: Document)
    requires EditSwitches(s, uid, Edit(Given(url), true)) && !download.Unparsable?
    ensures var item := FindItem(s.profiles.value.items, uid).value;
            var path := Resolve(s.files, uid, Canonical(item).file);
            (Inv(AfterUpdateProfile(s, uid, Edit(Given(url), true), Some(download)).0)
             <==> && GoodProfile(download, CustomRules(s.settings))
                  && (item.file == Some(path) || RulesAt(s.files, item.file) == RulesOf(download)))
  {
    var t := AfterUpdateProfile(s, uid, Edit(Given(url), true), Some(download)).0;
    UrlEditLookup(s, uid, url, download);
    SwitchKeepsIff(s, download, t);
  }

  /** A new URL whose download is no YAML leaves the config and overwrites the file. */
  lemma UnparsableEditKeepsIff(s: State, front: seq<string>, uid: string, url: string)
    requires Aligned(s, front) && EditSwitches(s, uid, Edit(Given(url), true))
    ensures var item := FindItem(s.profiles.value.items, uid).value;
            var (t, o) := AfterUpdateProfile(s, uid, Edit(Given(url), true), Some(Unparsable));
            && o == Rejected(500)
            && (Inv(t) <==> item.file != Some(Resolve(s.files, uid, Canonical(item).file)))
  {
    UrlEditLookup(s, uid, url, Unparsable);
    LookupKeptIff(s, front, AfterUpdateProfile(s, uid, Edit(Given(url), true), Some(Unparsable)).0);
  }

  /** The rules that the lookup finds after a new URL of the current profile. */
  lemma UrlEditLookup(s: State, uid: string, url: string, download: Document)
    requires EditSwitches(s, uid, Edit(Given(url), true))
    ensures var item := FindItem(s.profiles.value.items, uid).value;
            var t := AfterUpdateProfile(s, uid, Edit(Given(url), true), Some(download)).0;
            ActiveRules(t.profiles, t.files)
              == if item.file == Some(Resolve(s.files, uid, Canonical(item).file)) then RulesOf(download)
                 else RulesAt(s.files, item.file)
  {
    var items := s.profiles.value.items;
    var item := FindItem(items, uid).value;
    FindItemUid(items, uid);
    FindReplaced(items, uid, item.(url := Some(url)), uid);
  }

  // ----- Switches -----

  /**
    * A switch of the config reaches the invariant if and only if the profile is good, the lookup finds its
    * rules, and their number is what is stored.
    */
  lemma SwitchKeepsIff(s: State, doc: Document, t: State)
    requires t.config == Some(SwitchConfig(s, doc))
             || t.config == Injected(Some(SwitchConfig(s, doc)), s.settings.ruleProviders)
    requires t.settings.customRules == s.settings.customRules
    requires ActiveRules(t.profiles, t.files) == RulesOf(doc)
             || t.settings.profileRulesCount == Some(|RuleEntries(doc)|)
    ensures Inv(t)
       <==> && GoodProfile(doc, CustomRules(s.settings)) && ActiveRules(t.profiles, t.files) == RulesOf(doc)
            && t.settings.profileRulesCount == Some(|RulesOf(doc)|)
  {
    var profileRules := ActiveRules(t.profiles, t.files);
    if Inv(t) {
      InvDisjoint(t);
      InvEndsWithProfile(t);
      AlignedSwitch(s, doc, t);
      assert Suffix(CustomRules(s.settings) + RulesOf(doc), |RulesOf(doc)|) == RulesOf(doc);
    } else if GoodProfile(doc, CustomRules(s.settings)) && profileRules == RulesOf(doc) {
      HasRulesReads(doc, RulesOf(doc));
      if t.settings.profileRulesCount == Some(|RulesOf(doc)|) {
        SwitchAligns(s, doc, t);
      }
    }
  }

  /** A switch that ends in an aligned config was one to a mapping with a list of texts. */
  lemma AlignedSwitch(s: State, doc: Document, t: State)
    requires Inv(t)
    requires t.config == Some(SwitchConfig(s, doc))
             || t.config == Injected(Some(SwitchConfig(s, doc)), s.settings.ruleProviders)
    ensures doc.Mapping? && (doc.Get(Rules).Some? ==> HasRules(doc, RulesOf(doc)))
    ensures |RuleEntries(doc)| == |RulesOf(doc)|
    ensures ConfigRules(t.config) == CustomRules(s.settings) + RulesOf(doc)
    ensures ActiveRules(t.profiles, t.files) != []
  {
    var front :| Aligned(t, front);
    var all := front + ActiveRules(t.profiles, t.files);
    var custom := CustomRules(s.settings);
    ReplacedGet(s.config, doc, custom, PortsFrom(s.settings), Rules);
    var items := RuleEntries(doc);
    assert FromStrings(all) == FromStrings(custom) + items;
    forall i | 0 <= i < |items| ensures items[i].Str? {
      assert items[i] == FromStrings(all)[|custom| + i];
    }
    StringsLength(items);
    SwitchedTexts(s, doc);
  }

  /**
    * An activation that is served reaches the invariant if and only if the item names the file that was
    * used and its content is a good profile: a non-empty list of texts, none of them a custom rule.
    */
  lemma ActivationKeepsIff(s: State, uid: string, script: Option<Document>)
    requires s.profiles.Some? && AfterActivate(s, uid, script).1 == Done
    ensures var item := FindItem(s.profiles.value.items, uid).value;
            var path := Resolve(s.files, uid, item.file);
            var t := AfterActivate(s, uid, script).0;
            && path in t.files
            && (Inv(t) <==> item.file == Some(path) && GoodProfile(t.files[path], CustomRules(s.settings)))
  {
    var item := FindItem(s.profiles.value.items, uid).value;
    var path := Resolve(s.files, uid, item.file);
    var t := AfterActivate(s, uid, script).0;
    var doc := ActivationContent(item, path, s.files, s.profiles.value, script).value;
    assert t.files[path] == doc && ActiveFile(t.profiles) == item.file;
    if item.file != Some(path) {
      assert ActiveRules(t.profiles, t.files) == [];
    }
    SwitchKeepsIff(s, doc, t);
  }

  /**
    * A refresh of the current profile that is served keeps the invariant if and only if the download is a
    * good profile with as many rules as before.
    */
  lemma RefreshKeepsIff(s: State, front: seq<string>, uid: string, download: Document)
    requires Aligned(s, front) && s.profiles.Some? && s.profiles.value.current == Some(uid)
    requires AfterRefreshProfile(s, uid, Some(download)).1 == Done
    ensures Inv(AfterRefreshProfile(s, uid, Some(download)).0)
       <==> && GoodProfile(download, CustomRules(s.settings))
            && |RulesOf(download)| == |ActiveRules(s.profiles, s.files)|
  {
    var t := AfterRefreshProfile(s, uid, Some(download)).0;
    assert ActiveRules(t.profiles, t.files) == RulesOf(download);
    if !download.Unparsable? {
      SwitchKeepsIff(s, download, t);
    }
  }

  // ----- Other profiles and their files -----

  /** Rewriting profile files without touching the config: the active one has to keep its rules. */
  lemma FetchKeepsIff(s: State, front: seq<string>, fetched: Files)
    requires Aligned(s, front)
    ensures Inv(Step(s, FetchProfiles(fetched)).0)
       <==> forall path :: path in fetched && Some(path) == ActiveFile(s.profiles) ==>
              RulesOf(fetched[path]) == ActiveRules(s.profiles, s.files)
  {
    LookupKeptIff(s, front, Step(s, FetchProfiles(fetched)).0);
    var file := ActiveFile(s.profiles).value;
    assert file in fetched ==> Some(file) == ActiveFile(s.profiles);
  }

  /** Refreshing another profile: if it shares the active file, it has to bring the same rules. */
  lemma OtherRefreshKeepsIff(s: State, front: seq<string>, uid: string, download: Document)
    requires Aligned(s, front) && s.profiles.Some? && s.profiles.value.current != Some(uid)
    requires AfterRefreshProfile(s, uid, Some(download)).1 == Done
    ensures Inv(AfterRefreshProfile(s, uid, Some(download)).0)
       <==> FileKept(s, Resolve(s.files, uid, FindItem(s.profiles.value.items, uid).value.file), download)
  {
    LookupKeptIff(s, front, AfterRefreshProfile(s, uid, Some(download)).0);
  }

  /**
    * A script or merge profile that is refused because its content is no proxy config has written its
    * file already: the boundary survives if and only if that file is not the active one or has its rules.
    */
  lemma RefusedActivationKeepsIff(s: State, front: seq<string>, uid: string, script: Option<Document>)
    requires Aligned(s, front) && s.profiles.Some? && FindItem(s.profiles.value.items, uid).Some?
    requires var item := FindItem(s.profiles.value.items, uid).value;
             var path := Resolve(s.files, uid, item.file);
             var content := ActivationContent(item, path, s.files, s.profiles.value, script);
             item.kind != Plain && content.Some? && !Activatable(content.value)
    ensures var item := FindItem(s.profiles.value.items, uid).value;
            var path := Resolve(s.files, uid, item.file);
            var (t, o) := AfterActivate(s, uid, script);
            && o == Rejected(400) && path in t.files
            && (Inv(t) <==> FileKept(s, path, t.files[path]))
  {
    LookupKeptIff(s, front, AfterActivate(s, uid, script).0);
  }

  /** Deleting a profile: it must be neither the current one nor share its file. */
  lemma DeleteProfileKeepsIff(s: State, front: seq<string>, uid: string)
    requires Aligned(s, front) && s.profiles.Some? && AfterDeleteProfile(s, uid).1 == Done
    ensures Inv(AfterDeleteProfile(s, uid).0)
       <==> && s.profiles.value.current != Some(uid)
            && Some(Resolve(s.files, uid, FindItem(s.profiles.value.items, uid).value.file)) != ActiveFile(s.profiles)
  {
    FindRemaining(s.profiles.value.items, uid, s.profiles.value.current.value);
    LookupKeptIff(s, front, AfterDeleteProfile(s, uid).0);
  }

  /** Creating a profile: its short file name must not be the active one, or its content has the same rules. */
  lemma AddProfileKeepsIff(s: State, front: seq<string>, item: ProfileItem, content: Document)
    requires Aligned(s, front) && AfterAddProfile(s, item, Some(content)).1 == Done
    ensures Inv(AfterAddProfile(s, item, Some(content)).0) <==> FileKept(s, ShortName(item.uid), content)
  {
    FindAppended(s.profiles.value.items, item.(file := Some(ShortName(item.uid))), s.profiles.value.current.value);
    LookupKeptIff(s, front, AfterAddProfile(s, item, Some(content)).0);
  }
}
