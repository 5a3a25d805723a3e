/** Concrete states and requests for the properties of `RuleLimits` that fail: which rule is lost, and when. */
module RuleSamples {
  import opened Prelude
  import opened Documents
  import opened Settings
  import opened ActiveConfig
  import opened ConfigLaws
  import opened Profiles
  import opened RuleState
  import opened RuleInvariant
  import opened RuleLimits

  function Doc(rules: seq<string>): Document {
    Mapping(map[Proxies := Seq([]), Rules := Seq(FromStrings(rules))])
  }

  /** One remote profile "u", current, with the file it names. */
  function Sample(
    custom: seq<string>, count: nat, config: seq<string>, file: string, profileRules: seq<string>): State {
    State(UNSET.(customRules := Some(custom), profileRulesCount := Some(count)), Some(Doc(config)),
          Some(ProfilesYaml(Some("u"), [ProfileItem("u", Some(file), Some("http://h/u"), Plain, true, [])])),
          map["u.yaml" := Doc(profileRules)])
  }

  lemma DocRules(rules: seq<string>)
    ensures RulesOf(Doc(rules)) == rules && HasRules(Doc(rules), rules) && Activatable(Doc(rules))
  {
    HasRulesReads(Doc(rules), rules);
  }

  /** The sample state is aligned when its lists fit and its profile names the file that exists. */
  lemma SampleAligned(custom: seq<string>, profileRules: seq<string>)
    requires profileRules != [] && Disjoint(custom, profileRules)
    ensures Aligned(Sample(custom, |profileRules|, custom + profileRules, "u.yaml", profileRules), custom)
  {
    SampleLookup(custom, |profileRules|, custom + profileRules, profileRules);
    DocRules(custom + profileRules);
    StutterRefl(custom);
  }

  lemma SampleLookup(custom: seq<string>, count: nat, config: seq<string>, profileRules: seq<string>)
    ensures var s := Sample(custom, count, config, "u.yaml", profileRules);
            && FindItem(s.profiles.value.items, "u") == Some(s.profiles.value.items[0])
            && Resolve(s.files, "u", Some("u.yaml")) == "u.yaml"
            && ActiveFile(s.profiles) == Some("u.yaml") && ActiveRules(s.profiles, s.files) == profileRules
            && ConfigRules(s.config) == config
  {
    DocRules(config);
    DocRules(profileRules);
  }

  // ----- Requests without a restart -----

  lemma RefreshStep(s: State, uid: string, download: Option<Document>)
    ensures Step(s, RefreshProfile(uid, download, Unneeded)) == AfterRefreshProfile(s, uid, download)
  {}

  lemma AddStep(s: State, rule: string)
    ensures Step(s, AddRule(rule, "", [])) == AfterAddRule(s, rule, "", [])
  {}

  lemma DeleteProviderStep(s: State, name: string)
    ensures Step(s, DeleteProvider(name)) == AfterDeleteProvider(s, name)
  {}

  lemma ActivateStep(s: State, uid: string)
    ensures Step(s, Activate(uid, None, Unneeded)) == AfterActivate(s, uid, None)
  {}

  lemma DeleteStep(s: State, i: nat)
    ensures Step(s, DeleteRule("custom", i)) == AfterDeleteRule(s, "custom", i)
  {}

  lemma FetchStep(s: State, fetched: Files)
    ensures Step(s, FetchProfiles(fetched)).0 == s.(files := s.files + fetched)
  {}

  // ----- A refresh that changes the number of rules -----

  /** A refresh of the current profile followed by an added rule. */
  lemma RefreshThenAdd(s: State, uid: string, download: Document, d: string)
    requires s.profiles.Some? && s.profiles.value.current == Some(uid) && GoodProfile(download, CustomRules(s.settings))
    requires AfterRefreshProfile(s, uid, Some(download)).1 == Done
    ensures var refreshed := AfterRefreshProfile(s, uid, Some(download)).0;
            var all := CustomRules(s.settings) + RulesOf(download);
            && ConfigRules(refreshed.config) == all
            && ConfigRules(AfterAddRule(refreshed, d, "", []).0.config)
               == CustomRules(s.settings) + [d] + Suffix(all, s.settings.profileRulesCount.GetOr(0))
  {
    RefreshedRules(s, uid, download);
    AddedRules(AfterRefreshProfile(s, uid, Some(download)).0, d);
  }

  lemma SampleRefresh(custom: seq<string>, profileRules: seq<string>, download: seq<string>, d: string)
    requires profileRules != [] && Disjoint(custom, profileRules) && download != [] && Disjoint(custom, download)
    ensures var s := Sample(custom, |profileRules|, custom + profileRules, "u.yaml", profileRules);
            var refreshed := Step(s, RefreshProfile("u", Some(Doc(download)), Unneeded)).0;
            && Synced(s) && ConfigRules(refreshed.config) == custom + download
            && ConfigRules(Step(refreshed, AddRule(d, "", [])).0.config)
               == custom + [d] + Suffix(custom + download, |profileRules|)
  {
    var s := Sample(custom, |profileRules|, custom + profileRules, "u.yaml", profileRules);
    SampleAligned(custom, profileRules);
    SampleRefreshServed(custom, |profileRules|, custom + profileRules, profileRules, Doc(download));
    DocRules(download);
    RefreshThenAdd(s, "u", Doc(download), d);
    RefreshStep(s, "u", Some(Doc(download)));
    AddStep(AfterRefreshProfile(s, "u", Some(Doc(download))).0, d);
  }

  lemma SampleRefreshServed(
    custom: seq<string>, count: nat, config: seq<string>, profileRules: seq<string>, download: Document)
    ensures AfterRefreshProfile(Sample(custom, count, config, "u.yaml", profileRules), "u", Some(download)).1 == Done
  {
    SampleLookup(custom, count, config, profileRules);
  }

  /** A refresh that brings one rule more: the next added rule pushes the profile's first rule out. */
  lemma SampleRefreshLosesRule()
    ensures var s := Sample(["c"], 2, ["c", "p0", "p1"], "u.yaml", ["p0", "p1"]);
            var refreshed := Step(s, RefreshProfile("u", Some(Doc(["p0", "p1", "p2"])), Unneeded)).0;
            && Synced(s) && ConfigRules(refreshed.config) == ["c", "p0", "p1", "p2"]
            && ConfigRules(Step(refreshed, AddRule("d", "", [])).0.config) == ["c", "d", "p1", "p2"]
  {
    assert ["c"] + ["p0", "p1"] == ["c", "p0", "p1"];
    assert ["c"] + ["p0", "p1", "p2"] == ["c", "p0", "p1", "p2"];
    assert ["c"] + ["d"] + ["p1", "p2"] == ["c", "d", "p1", "p2"];
    assert Suffix(["c", "p0", "p1", "p2"], 2) == ["p1", "p2"];
    SampleRefresh(["c"], ["p0", "p1"], ["p0", "p1", "p2"], "d");
  }

  // ----- A rule appended behind the profile -----

  /** The state after rules were added at the end of the config from the command line. */
  function AppendedTo(s: State, extra: seq<string>): State {
    match Appended(s.config.GetOr(DEFAULT_CONFIG), extra)
    case Ok(doc) => s.(config := Some(doc))
    case Err(_) => s
  }

  lemma SampleAppend(custom: seq<string>, profileRules: seq<string>, extra: seq<string>, d: string)
    requires profileRules != [] && Disjoint(custom, profileRules)
    ensures var s := Sample(custom, |profileRules|, custom + profileRules, "u.yaml", profileRules);
            var appended := AppendedTo(s, extra);
            && Synced(s) && ConfigRules(appended.config) == custom + profileRules + extra
            && ConfigRules(Step(appended, AddRule(d, "", [])).0.config)
               == custom + [d] + Suffix(custom + profileRules + extra, |profileRules|)
  {
    var s := Sample(custom, |profileRules|, custom + profileRules, "u.yaml", profileRules);
    SampleAligned(custom, profileRules);
    SampleLookup(custom, |profileRules|, custom + profileRules, profileRules);
    AppendedRules(s, custom, extra);
    var appended := AppendedTo(s, extra);
    AddedRules(appended, d);
    AddStep(appended, d);
  }

  /** A rule appended from the command line: the next added rule pushes the profile's first rule out. */
  lemma SampleAppendLosesRule()
    ensures var s := Sample(["c"], 2, ["c", "p0", "p1"], "u.yaml", ["p0", "p1"]);
            var appended := AppendedTo(s, ["x"]);
            && Synced(s) && ConfigRules(appended.config) == ["c", "p0", "p1", "x"]
            && ConfigRules(Step(appended, AddRule("d", "", [])).0.config) == ["c", "d", "p1", "x"]
  {
    assert ["c"] + ["p0", "p1"] == ["c", "p0", "p1"];
    assert ["c"] + ["p0", "p1"] + ["x"] == ["c", "p0", "p1", "x"];
    assert ["c"] + ["d"] + ["p1", "x"] == ["c", "d", "p1", "x"];
    assert Suffix(["c", "p0", "p1", "x"], 2) == ["p1", "x"];
    SampleAppend(["c"], ["p0", "p1"], ["x"], "d");
  }

  // ----- A profile that has a provider's rule -----

  /** The sample state with one stored provider. */
  function SampleWithProvider(custom: seq<string>, profileRules: seq<string>, provider: RuleProvider): State {
    var s := Sample(custom, |profileRules|, custom + profileRules, "u.yaml", profileRules);
    s.(settings := s.settings.(ruleProviders := Some([provider])))
  }

  lemma SampleProviderDeletion(custom: seq<string>, profileRules: seq<string>, provider: RuleProvider)
    requires profileRules != [] && Disjoint(custom, profileRules)
    ensures var s := SampleWithProvider(custom, profileRules, provider);
            var (t, o) := AfterDeleteProvider(s, provider.name);
            && Synced(s) && o == Done
            && ConfigRules(t.config) == Without(custom, ProviderRule(provider.name))
                                        + Without(profileRules, ProviderRule(provider.name))
  {
    var s := SampleWithProvider(custom, profileRules, provider);
    SampleAligned(custom, profileRules);
    SampleLookup(custom, |profileRules|, custom + profileRules, profileRules);
    assert Aligned(s, custom);
    assert provider in [provider];
    WithoutNamedLength([provider], provider.name);
    RemovedEverywhere(s, custom, provider.name);
  }

  /** A profile that has a provider's rule of its own loses it when that provider is deleted. */
  lemma ProviderDeletionLosesRule(c: string, p1: string, provider: RuleProvider)
    requires var rule := ProviderRule(provider.name); c != rule && p1 != rule && c != p1
    ensures var rule := ProviderRule(provider.name);
            var s := SampleWithProvider([c], [rule, p1], provider);
            && Synced(s) && ConfigRules(s.config) == [c, rule, p1]
            && ConfigRules(Step(s, DeleteProvider(provider.name)).0.config) == [c, p1]
  {
    var rule := ProviderRule(provider.name);
    SampleProviderDeletion([c], [rule, p1], provider);
    SampleLookup([c], 2, [c] + [rule, p1], [rule, p1]);
    assert [c] + [rule, p1] == [c, rule, p1];
    WithoutSingle(rule, c, p1);
    DeleteProviderStep(SampleWithProvider([c], [rule, p1], provider), provider.name);
  }

  lemma WithoutSingle(rule: string, before: string, after: string)
    requires rule != before && rule != after
    ensures Without([before], rule) + Without([rule, after], rule) == [before, after]
  {
    assert [before][1..] == [] && [rule, after][1..] == [after] && [after][1..] == [];
    assert Without([before], rule) == [before] && Without([after], rule) == [after];
  }

  lemma SampleProviderDeletionLosesRule()
    ensures var provider := RuleProvider("a", "http", "domain", Some("http://h/a"), None, 60, true, false, None);
            var rule := ProviderRule("a");
            var s := SampleWithProvider(["c"], [rule, "p1"], provider);
            && Synced(s) && ConfigRules(s.config) == ["c", rule, "p1"]
            && ConfigRules(Step(s, DeleteProvider("a")).0.config) == ["c", "p1"]
  {
    var provider := RuleProvider("a", "http", "domain", Some("http://h/a"), None, 60, true, false, None);
    assert |ProviderRule("a")| > 2;
    assert "c" != "p1" by { assert |"c"| != |"p1"|; }
    ProviderDeletionLosesRule("c", "p1", provider);
  }

  // ----- An empty profile -----

  /** With an empty profile clearing forgets the stored custom rules and leaves them in the config. */
  lemma EmptyProfileKeepsRules(custom: seq<string>)
    ensures var s := Sample(custom, 0, custom, "u.yaml", []);
            var (t, o) := Step(s, ClearRules("custom"));
            && o == Done && CustomRules(t.settings) == [] && ConfigRules(t.config) == custom
  {
    SampleLookup(custom, 0, custom, []);
    NoProfileRules(custom);
  }

  lemma SampleClearLeavesRules()
    ensures var s := Sample(["c"], 0, ["c"], "u.yaml", []);
            var (t, o) := Step(s, ClearRules("custom"));
            && o == Done && CustomRules(t.settings) == [] && ConfigRules(t.config) == ["c"]
  {
    EmptyProfileKeepsRules(["c"]);
  }

  // ----- A profile found under its uid only -----

  /**
    * The item names a file that is gone while one named after the uid exists: no custom rule of the
    * activated config can be deleted.
    */
  lemma FallbackActivation(custom: seq<string>, gone: string, profileRules: seq<string>, i: nat)
    requires gone != "u.yaml" && profileRules != []
    ensures var s := Sample(custom, 0, [], gone, profileRules);
            var (t, o) := AfterActivate(s, "u", None);
            && o == Done && ConfigRules(t.config) == custom + profileRules
            && AfterDeleteRule(t, "custom", i) == (t, Rejected(400))
  {
    var s := Sample(custom, 0, [], gone, profileRules);
    SampleFallback(custom, gone, profileRules);
    DocRules(profileRules);
    SwitchedTexts(s, Doc(profileRules));
    ActivationFoundIff(s, "u", None);
  }

  lemma SampleFallback(custom: seq<string>, gone: string, profileRules: seq<string>)
    requires gone != "u.yaml"
    ensures var s := Sample(custom, 0, [], gone, profileRules);
            var (t, o) := AfterActivate(s, "u", None);
            && FindItem(s.profiles.value.items, "u") == Some(s.profiles.value.items[0])
            && Resolve(s.files, "u", Some(gone)) == "u.yaml" && t.files == s.files && CustomRules(s.settings) == custom
            && o == Done && t.config == Some(SwitchConfig(s, Doc(profileRules)))
  {
    var s := Sample(custom, 0, [], gone, profileRules);
    assert "u" + ".yaml" == "u.yaml";
    assert Resolve(s.files, "u", Some(gone)) == "u.yaml";
    DocRules(profileRules);
    PlainActivation(s, "u", s.profiles.value.items[0], Doc(profileRules));
  }

  lemma FallbackRun(custom: seq<string>, gone: string, profileRules: seq<string>, i: nat)
    requires gone != "u.yaml" && profileRules != []
    ensures var t := Step(Sample(custom, 0, [], gone, profileRules), Activate("u", None, Unneeded)).0;
            && ConfigRules(t.config) == custom + profileRules
            && Step(t, DeleteRule("custom", i)) == (t, Rejected(400))
  {
    FallbackActivation(custom, gone, profileRules, i);
    ActivateStep(Sample(custom, 0, [], gone, profileRules), "u");
    DeleteStep(AfterActivate(Sample(custom, 0, [], gone, profileRules), "u", None).0, i);
  }

  lemma SampleActivationNotFound()
    ensures var t := Step(Sample(["c"], 0, [], "old.yaml", ["p0"]), Activate("u", None, Unneeded)).0;
            && ConfigRules(t.config) == ["c", "p0"]
            && Step(t, DeleteRule("custom", 0)) == (t, Rejected(400))
  {
    assert "old.yaml" != "u.yaml" by { assert |"old.yaml"| != |"u.yaml"|; }
    assert ["c"] + ["p0"] == ["c", "p0"];
    FallbackRun(["c"], "old.yaml", ["p0"], 0);
  }

  // ----- A profile file rewritten by the scheduler -----

  /**
    * The scheduler drops the first rule from the active profile's file: the next deletion drops it from
    * the config too.
    */
  lemma StaleFileLosesRule(c: string, profileRules: seq<string>, changed: seq<string>)
    requires |profileRules| > 1 && c !in profileRules && c !in changed
    requires profileRules[0] !in changed && profileRules[1] in changed
    ensures var s := Sample([c], |profileRules|, [c] + profileRules, "u.yaml", profileRules);
            var fetched := Step(s, FetchProfiles(map["u.yaml" := Doc(changed)])).0;
            && Synced(s) && ConfigRules(Step(fetched, DeleteRule("custom", 0)).0.config) == profileRules[1..]
  {
    var s, all := Sample([c], |profileRules|, [c] + profileRules, "u.yaml", profileRules), [c] + profileRules;
    SampleAligned([c], profileRules);
    SampleLookup([c], |profileRules|, all, profileRules);
    FetchStep(s, map["u.yaml" := Doc(changed)]);
    SampleFetched([c], |profileRules|, all, profileRules, changed);
    var fetched := s.(files := s.files + map["u.yaml" := Doc(changed)]);
    StaleDelete(fetched, c, all, changed);
    DeleteStep(fetched, 0);
    assert all[2..] == profileRules[1..];
  }

  lemma SampleFetched(
    custom: seq<string>, count: nat, config: seq<string>, profileRules: seq<string>, changed: seq<string>)
    ensures var s := Sample(custom, count, config, "u.yaml", profileRules);
            ActiveRules(s.profiles, s.files + map["u.yaml" := Doc(changed)]) == changed
  {
    SampleLookup(custom, count, config, profileRules);
    DocRules(changed);
  }

  /** Deleting the only custom rule when detection takes one rule too many for custom. */
  lemma StaleDelete(s: State, c: string, all: seq<string>, changed: seq<string>)
    requires s.config.Some? && s.config.value.Mapping? && ConfigRules(s.config) == all && |all| > 2
    requires s.settings.customRules == Some([c]) && ActiveRules(s.profiles, s.files) == changed
    requires all[0] !in changed && all[1] !in changed && all[2] in changed
    ensures ConfigRules(AfterDeleteRule(s, "custom", 0).0.config) == all[2..]
  {
    assert FirstProfileRule(all, changed) == 2;
    DeletedWithCount(s, all, [c], 0, 2);
    assert RemoveAt([c], 0) + all[2..] == all[2..];
  }

  lemma SampleStaleFileLosesRule()
    ensures var s := Sample(["c"], 2, ["c", "p0", "p1"], "u.yaml", ["p0", "p1"]);
            var fetched := Step(s, FetchProfiles(map["u.yaml" := Doc(["p1", "p2"])])).0;
            && Synced(s) && ConfigRules(Step(fetched, DeleteRule("custom", 0)).0.config) == ["p1"]
  {
    assert ["c"] + ["p0", "p1"] == ["c", "p0", "p1"];
    assert "p0" != "p1" && "p0" != "p2" by { assert "p0"[1] != "p1"[1] && "p0"[1] != "p2"[1]; }
    StaleFileLosesRule("c", ["p0", "p1"], ["p1", "p2"]);
    assert ["p0", "p1"][1..] == ["p1"];
  }

  // ----- Custom rules that are not stored -----

  /** With no stored custom rules the same rewrite makes a deletion remove the profile's first rule. */
  lemma StaleFileUnsetCustom(profileRules: seq<string>, changed: seq<string>)
    requires |profileRules| > 1 && profileRules[0] !in changed && profileRules[1] in changed
    ensures var sample := Sample([], |profileRules|, profileRules, "u.yaml", profileRules);
            var s := sample.(settings := sample.settings.(customRules := None));
            var fetched := Step(s, FetchProfiles(map["u.yaml" := Doc(changed)])).0;
            && Inv(s)
            && ConfigRules(Step(fetched, DeleteRule("custom", 0)).0.config) == RemoveAt(profileRules, 0)
  {
    var sample := Sample([], |profileRules|, profileRules, "u.yaml", profileRules);
    var s := sample.(settings := sample.settings.(customRules := None));
    assert [] + profileRules == profileRules;
    SampleAligned([], profileRules);
    assert Aligned(s, []);
    DocRules(profileRules);
    FetchStep(s, map["u.yaml" := Doc(changed)]);
    SampleFetched([], |profileRules|, profileRules, profileRules, changed);
    var fetched := s.(files := s.files + map["u.yaml" := Doc(changed)]);
    assert FirstProfileRule(profileRules, changed) == 1;
    StaleFileDeletesProfileRule(fetched, profileRules, 0);
    DeleteStep(fetched, 0);
  }

  lemma SampleStaleFileUnsetCustom()
    ensures var sample := Sample([], 2, ["p0", "p1"], "u.yaml", ["p0", "p1"]);
            var s := sample.(settings := sample.settings.(customRules := None));
            var fetched := Step(s, FetchProfiles(map["u.yaml" := Doc(["p1", "p2"])])).0;
            && Inv(s)
            && ConfigRules(Step(fetched, DeleteRule("custom", 0)).0.config) == ["p1"]
  {
    assert "p0" != "p1" && "p0" != "p2" by { assert "p0"[1] != "p1"[1] && "p0"[1] != "p2"[1]; }
    StaleFileUnsetCustom(["p0", "p1"], ["p1", "p2"]);
    assert RemoveAt(["p0", "p1"], 0) == ["p1"];
  }
}
