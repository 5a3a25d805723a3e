/** Concrete requests that leave the boundary invariant, one for each condition of `Admissible`. */
module InvariantSamples {
  import opened Prelude
  import opened Documents
  import opened Settings
  import opened ActiveConfig
  import opened Profiles
  import opened RuleState
  import opened RuleInvariant
  import opened RuleLimits
  import opened RuleSamples
  import opened OverrideRuns

  /** The aligned state that the following requests start from. */
  lemma SampleInv()
    ensures Aligned(Sample(["c"], 2, ["c"] + ["p0", "p1"], "u.yaml", ["p0", "p1"]), ["c"])
    ensures Inv(Sample(["c"], 2, ["c"] + ["p0", "p1"], "u.yaml", ["p0", "p1"]))
  {
    SampleAligned(["c"], ["p0", "p1"]);
  }

  /** A new rule with the text of a profile rule. */
  lemma SampleAddedRuleRepeats()
    ensures var s := Sample(["c"], 2, ["c"] + ["p0", "p1"], "u.yaml", ["p0", "p1"]);
            Inv(s) && !Inv(Step(s, AddRule("p1", "", [])).0)
  {
    var s := Sample(["c"], 2, ["c"] + ["p0", "p1"], "u.yaml", ["p0", "p1"]);
    SampleInv();
    SampleLookup(["c"], 2, ["c"] + ["p0", "p1"], ["p0", "p1"]);
    AddRuleKeepsIff(s, ["c"], "p1");
    AddStep(s, "p1");
  }

  /** A new provider whose rule the profile has already. */
  lemma AddedProviderRepeats(c: string, p1: string, provider: RuleProvider)
    requires ValidProvider(provider) && c != ProviderRule(provider.name) && c != p1
    ensures var rule := ProviderRule(provider.name);
            var s := Sample([c], 2, [c] + [rule, p1], "u.yaml", [rule, p1]);
            Inv(s) && !Inv(Step(s, AddProvider(provider)).0)
  {
    var rule := ProviderRule(provider.name);
    var s := Sample([c], 2, [c] + [rule, p1], "u.yaml", [rule, p1]);
    SampleAligned([c], [rule, p1]);
    SampleLookup([c], 2, [c] + [rule, p1], [rule, p1]);
    AddProviderKeepsIff(s, [c], provider);
    AddProviderStep(s, provider);
  }

  lemma AddProviderStep(s: State, p: RuleProvider)
    ensures Step(s, AddProvider(p)) == AfterAddProvider(s, p)
  {}

  lemma SampleAddedProviderRepeats()
    ensures var provider := RuleProvider("a", "http", "domain", Some("http://h/a"), None, 60, true, false, None);
            var s := Sample(["c"], 2, ["c"] + [ProviderRule("a"), "p1"], "u.yaml", [ProviderRule("a"), "p1"]);
            Inv(s) && !Inv(Step(s, AddProvider(provider)).0)
  {
    var provider := RuleProvider("a", "http", "domain", Some("http://h/a"), None, 60, true, false, None);
    assert |ProviderRule("a")| > 2;
    assert "c" != "p1" by { assert |"c"| != |"p1"|; }
    AddedProviderRepeats("c", "p1", provider);
  }

  /** Deleting the current profile. */
  lemma SampleDeleteCurrent()
    ensures var s := Sample(["c"], 2, ["c"] + ["p0", "p1"], "u.yaml", ["p0", "p1"]);
            Inv(s) && !Inv(Step(s, DeleteProfile("u")).0)
  {
    var s := Sample(["c"], 2, ["c"] + ["p0", "p1"], "u.yaml", ["p0", "p1"]);
    SampleInv();
    SampleLookup(["c"], 2, ["c"] + ["p0", "p1"], ["p0", "p1"]);
    DeleteProfileKeepsIff(s, ["c"], "u");
    DeleteProfileStep(s, "u");
  }

  lemma DeleteProfileStep(s: State, uid: string)
    ensures Step(s, DeleteProfile(uid)) == AfterDeleteProfile(s, uid)
  {}

  /** Creating a profile whose uid starts with the eight characters that name the active file. */
  lemma ShortNameClash(custom: seq<string>, profileRules: seq<string>, uid: string, other: string, content: seq<string>)
    requires profileRules != [] && Disjoint(custom, profileRules) && content != profileRules
    requires ShortName(other) == ShortName(uid)
    ensures var s := Named(custom, profileRules, uid, ShortName(uid), map[ShortName(uid) := Doc(profileRules)]);
            var item := ProfileItem(other, None, None, Plain, false, []);
            Inv(s) && !Inv(Step(s, AddProfile(item, Some(Doc(content)))).0)
  {
    var s := Named(custom, profileRules, uid, ShortName(uid), map[ShortName(uid) := Doc(profileRules)]);
    var item := ProfileItem(other, None, None, Plain, false, []);
    NamedAligned(custom, profileRules, uid, ShortName(uid), map[ShortName(uid) := Doc(profileRules)]);
    DocRules(content);
    ClashBreaks(s, custom, item, Doc(content));
  }

  lemma ClashBreaks(s: State, front: seq<string>, item: ProfileItem, content: Document)
    requires Aligned(s, front) && !item.remote && !FileKept(s, ShortName(item.uid), content)
    ensures !Inv(Step(s, AddProfile(item, Some(content))).0)
  {
    AddProfileKeepsIff(s, front, item, content);
  }

  /** The sample state with a profile of any uid and file name, in any directory. */
  function Named(custom: seq<string>, profileRules: seq<string>, uid: string, file: string, files: Files): State {
    State(UNSET.(customRules := Some(custom), profileRulesCount := Some(|profileRules|)),
          Some(Doc(custom + profileRules)),
          Some(ProfilesYaml(Some(uid), [ProfileItem(uid, Some(file), Some("http://h/u"), Plain, true, [])])), files)
  }

  lemma NamedAligned(custom: seq<string>, profileRules: seq<string>, uid: string, file: string, files: Files)
    requires profileRules != [] && Disjoint(custom, profileRules) && file in files && files[file] == Doc(profileRules)
    ensures var s := Named(custom, profileRules, uid, file, files);
            && Aligned(s, custom) && FindItem(s.profiles.value.items, uid) == Some(s.profiles.value.items[0])
            && ActiveFile(s.profiles) == Some(file) && ActiveRules(s.profiles, s.files) == profileRules
  {
    DocRules(custom + profileRules);
    DocRules(profileRules);
    StutterRefl(custom);
  }

  lemma SampleShortNameClash()
    ensures var s := Named(["c"], ["p0", "p1"], "01234567-1", "01234567.yaml",
                           map["01234567.yaml" := Doc(["p0", "p1"])]);
            var item := ProfileItem("01234567-2", None, None, Plain, false, []);
            Inv(s) && !Inv(Step(s, AddProfile(item, Some(Doc(["q"])))).0)
  {
    assert "01234567-1"[..8] == "01234567" && "01234567-2"[..8] == "01234567";
    assert "01234567" + ".yaml" == "01234567.yaml";
    assert ["q"] != ["p0", "p1"] by { assert |["q"]| != |["p0", "p1"]|; }
    ShortNameClash(["c"], ["p0", "p1"], "01234567-1", "01234567-2", ["q"]);
  }

  /**
    * The item names the file of its full uid while one of the short name exists too: an edit of anything
    * but the URL moves the lookup to the other file, a new URL downloads into it.
    */
  lemma TwoNames(custom: seq<string>, profileRules: seq<string>, uid: string, other: seq<string>, download: seq<string>)
    requires profileRules != [] && Disjoint(custom, profileRules) && |uid| > 8
    requires other != profileRules && download != profileRules
    ensures var s := Named(custom, profileRules, uid, uid + ".yaml",
                           map[uid + ".yaml" := Doc(profileRules), ShortName(uid) := Doc(other)]);
            && Inv(s)
            && !Inv(Step(s, UpdateProfile(uid, Edit(Absent, true), None, Unneeded)).0)
            && !Inv(Step(s, UpdateProfile(uid, Edit(Given("http://h/v"), true), Some(Doc(download)), Unneeded)).0)
  {
    var s := TwoNamed(custom, profileRules, uid, other);
    TwoNamedLookup(custom, profileRules, uid, other);
    DocRules(download);
    UpdateStep(s, uid, Edit(Absent, true), None);
    EditKeepsIff(s, custom, uid);
    UpdateStep(s, uid, Edit(Given("http://h/v"), true), Some(Doc(download)));
    UrlEditKeepsIff(s, uid, "http://h/v", Doc(download));
  }

  function TwoNamed(custom: seq<string>, profileRules: seq<string>, uid: string, other: seq<string>): State {
    Named(custom, profileRules, uid, uid + ".yaml",
          map[uid + ".yaml" := Doc(profileRules), ShortName(uid) := Doc(other)])
  }

  lemma TwoNamedLookup(custom: seq<string>, profileRules: seq<string>, uid: string, other: seq<string>)
    requires profileRules != [] && Disjoint(custom, profileRules) && |uid| > 8 && other != profileRules
    ensures var s := TwoNamed(custom, profileRules, uid, other);
            var item := s.profiles.value.items[0];
            && Aligned(s, custom) && FindItem(s.profiles.value.items, uid) == Some(item)
            && RulesAt(s.files, item.file) == profileRules && RulesAt(s.files, Canonical(item).file) == other
            && Resolve(s.files, uid, Canonical(item).file) == ShortName(uid) && item.file != Some(ShortName(uid))
            && EditSwitches(s, uid, Edit(Given("http://h/v"), true))
  {
    var s := TwoNamed(custom, profileRules, uid, other);
    TwoFiles(uid, profileRules, other);
    NamedAligned(custom, profileRules, uid, uid + ".yaml", s.files);
    assert "http://h/u" != "http://h/v" by { assert "http://h/u"[9] != "http://h/v"[9]; }
  }

  lemma TwoFiles(uid: string, profileRules: seq<string>, other: seq<string>)
    requires |uid| > 8
    ensures var files := map[uid + ".yaml" := Doc(profileRules), ShortName(uid) := Doc(other)];
            && uid + ".yaml" != ShortName(uid) && Resolve(files, uid, Some(ShortName(uid))) == ShortName(uid)
            && files[uid + ".yaml"] == Doc(profileRules)
            && RulesAt(files, Some(uid + ".yaml")) == profileRules && RulesAt(files, Some(ShortName(uid))) == other
  {
    assert |uid + ".yaml"| > |ShortName(uid)|;
    DocRules(other);
    DocRules(profileRules);
  }

  lemma UpdateStep(s: State, uid: string, edit: Edit, download: Option<Document>)
    ensures Step(s, UpdateProfile(uid, edit, download, Unneeded)).0 == AfterUpdateProfile(s, uid, edit, download).0
  {}

  lemma SampleTwoNames()
    ensures var uid := "01234567-1";
            var s := Named(["c"], ["p0", "p1"], uid, "01234567-1.yaml",
                           map["01234567-1.yaml" := Doc(["p0", "p1"]), "01234567.yaml" := Doc(["q"])]);
            && Inv(s)
            && !Inv(Step(s, UpdateProfile(uid, Edit(Absent, true), None, Unneeded)).0)
            && !Inv(Step(s, UpdateProfile(uid, Edit(Given("http://h/v"), true), Some(Doc(["r"])), Unneeded)).0)
  {
    var uid := "01234567-1";
    assert uid + ".yaml" == "01234567-1.yaml" && uid[..8] + ".yaml" == "01234567.yaml";
    assert ["q"] != ["p0", "p1"] && ["r"] != ["p0", "p1"] by {
      assert |["q"]| != |["p0", "p1"]| && |["r"]| != |["p0", "p1"]|;
    }
    TwoNames(["c"], ["p0", "p1"], uid, ["q"], ["r"]);
  }

  // ----- A second profile that shares the active file -----

  /** The sample state with a second profile whose item names the active file. */
  function Shared(custom: seq<string>, profileRules: seq<string>, kind: Kind): State {
    var s := Sample(custom, |profileRules|, custom + profileRules, "u.yaml", profileRules);
    var second := ProfileItem("v", Some("u.yaml"), Some("http://h/v"), kind, kind == Plain, []);
    s.(profiles := Some(ProfilesYaml(Some("u"), s.profiles.value.items + [second])))
  }

  lemma SharedLookup(custom: seq<string>, profileRules: seq<string>, kind: Kind)
    requires profileRules != [] && Disjoint(custom, profileRules)
    ensures var s := Shared(custom, profileRules, kind);
            && Aligned(s, custom) && FindItem(s.profiles.value.items, "v") == Some(s.profiles.value.items[1])
            && ActiveFile(s.profiles) == Some("u.yaml") && Resolve(s.files, "v", Some("u.yaml")) == "u.yaml"
            && ActiveRules(s.profiles, s.files) == profileRules
  {
    var before := Sample(custom, |profileRules|, custom + profileRules, "u.yaml", profileRules);
    var s := Shared(custom, profileRules, kind);
    SampleAligned(custom, profileRules);
    SampleLookup(custom, |profileRules|, custom + profileRules, profileRules);
    assert "u" != "v" by { assert "u"[0] != "v"[0]; }
    assert s.profiles.value.items[1..] == [s.profiles.value.items[1]];
    SameRulesAligned(before, custom, s);
  }

  /** Refreshing the second profile overwrites the rules of the current one. */
  lemma SharedRefresh(custom: seq<string>, profileRules: seq<string>, download: seq<string>)
    requires profileRules != [] && Disjoint(custom, profileRules) && download != profileRules
    ensures var s := Shared(custom, profileRules, Plain);
            Inv(s) && !Inv(Step(s, RefreshProfile("v", Some(Doc(download)), Unneeded)).0)
  {
    var s := Shared(custom, profileRules, Plain);
    SharedLookup(custom, profileRules, Plain);
    DocRules(download);
    RefreshStep(s, "v", Some(Doc(download)));
    OtherRefreshKeepsIff(s, custom, "v", Doc(download));
  }

  lemma SampleSharedRefresh()
    ensures var s := Shared(["c"], ["p0", "p1"], Plain);
            Inv(s) && !Inv(Step(s, RefreshProfile("v", Some(Doc(["q"])), Unneeded)).0)
  {
    assert ["q"] != ["p0", "p1"] by { assert |["q"]| != |["p0", "p1"]|; }
    SharedRefresh(["c"], ["p0", "p1"], ["q"]);
  }

  /** Activating the second profile, a script that yields no proxy config, is refused after the file was overwritten. */
  lemma SharedScript(custom: seq<string>, profileRules: seq<string>, output: Document)
    requires profileRules != [] && Disjoint(custom, profileRules) && !Activatable(output)
             && RulesOf(output) != profileRules
    ensures var s := Shared(custom, profileRules, Script);
            var (t, o) := Step(s, Activate("v", Some(output), Unneeded));
            Inv(s) && o == Rejected(400) && !Inv(t)
  {
    var s := Shared(custom, profileRules, Script);
    SharedLookup(custom, profileRules, Script);
    RefusalBreaks(s, custom, "v", s.profiles.value.items[1], output);
  }

  lemma RefusalBreaks(s: State, front: seq<string>, uid: string, item: ProfileItem, output: Document)
    requires Aligned(s, front) && s.profiles.Some? && FindItem(s.profiles.value.items, uid) == Some(item)
    requires item.kind == Script && !Activatable(output) && !FileKept(s, Resolve(s.files, uid, item.file), output)
    ensures var (t, o) := Step(s, Activate(uid, Some(output), Unneeded));
            o == Rejected(400) && !Inv(t)
  {
    RefusedActivationKeepsIff(s, front, uid, Some(output));
  }

  lemma SampleSharedScript()
    ensures var s := Shared(["c"], ["p0", "p1"], Script);
            var (t, o) := Step(s, Activate("v", Some(Bare(Str("no output"))), Unneeded));
            Inv(s) && o == Rejected(400) && !Inv(t)
  {
    SharedScript(["c"], ["p0", "p1"], Bare(Str("no output")));
  }

  // ----- Switches to content that is no good profile -----

  /** A served activation of a profile without rules. */
  lemma SampleActivateEmpty()
    ensures var s := Sample(["c"], 2, [], "u.yaml", []);
            var (t, o) := Step(s, Activate("u", None, Unneeded));
            o == Done && !Inv(t)
  {
    var s := Sample(["c"], 2, [], "u.yaml", []);
    SampleLookup(["c"], 2, [], []);
    DocRules([]);
    PlainActivation(s, "u", s.profiles.value.items[0], Doc([]));
    ActivateStep(s, "u");
    ActivationKeepsIff(s, "u", None);
  }

  /** A refresh that brings one rule more. */
  lemma SampleRefreshGrows()
    ensures var s := Sample(["c"], 2, ["c"] + ["p0", "p1"], "u.yaml", ["p0", "p1"]);
            Inv(s) && !Inv(Step(s, RefreshProfile("u", Some(Doc(["p0", "p1", "p2"])), Unneeded)).0)
  {
    RefreshGrows(["c"], ["p0", "p1"], ["p0", "p1", "p2"]);
  }

  lemma RefreshGrows(custom: seq<string>, profileRules: seq<string>, download: seq<string>)
    requires profileRules != [] && Disjoint(custom, profileRules) && |download| != |profileRules|
    ensures var s := Sample(custom, |profileRules|, custom + profileRules, "u.yaml", profileRules);
            Inv(s) && !Inv(Step(s, RefreshProfile("u", Some(Doc(download)), Unneeded)).0)
  {
    var s := Sample(custom, |profileRules|, custom + profileRules, "u.yaml", profileRules);
    SampleAligned(custom, profileRules);
    SampleLookup(custom, |profileRules|, custom + profileRules, profileRules);
    SampleRefreshServed(custom, |profileRules|, custom + profileRules, profileRules, Doc(download));
    DocRules(download);
    RefreshStep(s, "u", Some(Doc(download)));
    RefreshKeepsIff(s, custom, "u", Doc(download));
  }

  /** A refresh that returns plain text wipes out the mode that was just set, and every rule. */
  lemma SamplePlainTextWipesMode()
    ensures var s := Sample(["c"], 2, ["c"] + ["p0", "p1"], "u.yaml", ["p0", "p1"]);
            var refresh := RefreshProfile("u", Some(Bare(Str("rate limited"))), Started);
            var t := Run(s, [SetMode("global", true), refresh]);
            && Inv(s) && OldEntry(t.config, Mode).None? && ConfigRules(t.config) == []
            && t.settings.mode == Some("global")
  {
    var s := Sample(["c"], 2, ["c"] + ["p0", "p1"], "u.yaml", ["p0", "p1"]);
    SampleInv();
    SampleLookup(["c"], 2, ["c"] + ["p0", "p1"], ["p0", "p1"]);
    PlainTextWipesMode(s, "u", "global", "rate limited", Started);
  }
}
