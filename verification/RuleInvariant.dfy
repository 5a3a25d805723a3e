/** What every run of requests keeps about the boundary between custom and profile rules. */
module RuleInvariant {
  import opened Prelude
  import opened Documents
  import opened Settings
  import opened ActiveConfig
  import opened ConfigLaws
  import opened Profiles
  import opened RuleState

  // ----- Finding the boundary in the list -----

  /**
    * The detected count is the number of leading custom rules exactly when the texts are disjoint and the
    * profile is not empty.
    */
  lemma {:induction false} BoundaryIff(front: seq<string>, profileRules: seq<string>)
    ensures Boundary(front + profileRules, profileRules) == |front|
       <==> front == [] || (profileRules != [] && Disjoint(front, profileRules))
  {
    var all := front + profileRules;
    var i := FirstProfileRule(all, profileRules);
    if Disjoint(front, profileRules) && profileRules != [] {
      assert all[|front|] == profileRules[0];
    } else if front != [] && profileRules != [] {
      var x :| x in front && x in profileRules;
      var j :| 0 <= j < |front| && front[j] == x;
      assert all[j] == x;
    }
  }

  /** Without profile rules nothing is detected. */
  lemma NoProfileRules(all: seq<string>)
    ensures FirstProfileRule(all, []) == |all| && Boundary(all, []) == 0
  {}

  // ----- Custom rules in the config against custom rules in the settings -----

  /** The rule is the rule of some provider. */
  ghost predicate OfProvider(rule: string) {
    exists name :: rule == ProviderRule(name)
  }

  /**
    * `front` is `custom` with extra copies of provider rules put before rules that occur later on. Such
    * copies arise when a provider that already exists is added again.
    */
  ghost predicate Stutter(front: seq<string>, custom: seq<string>) {
    if front == [] then custom == []
    else
      || (custom != [] && front[0] == custom[0] && Stutter(front[1..], custom[1..]))
      || (OfProvider(front[0]) && front[0] in custom && Stutter(front[1..], custom))
  }

  lemma {:induction false} StutterRefl(custom: seq<string>)
    ensures Stutter(custom, custom)
  {
    if custom != [] {
      StutterRefl(custom[1..]);
    }
  }

  lemma StutterPrepend(front: seq<string>, custom: seq<string>, rule: string)
    requires Stutter(front, custom)
    ensures Stutter([rule] + front, [rule] + custom)
    ensures OfProvider(rule) && rule in custom ==> Stutter([rule] + front, custom)
  {
    assert ([rule] + front)[1..] == front && ([rule] + custom)[1..] == custom;
  }

  /** Both lists hold the same rules, the first at least as often. */
  lemma {:induction false} StutterElements(front: seq<string>, custom: seq<string>)
    requires Stutter(front, custom)
    ensures forall x :: x in front <==> x in custom
    ensures |front| >= |custom|
    ensures |front| == |custom| ==> front == custom
  {
    if front != [] {
      if custom != [] && front[0] == custom[0] && Stutter(front[1..], custom[1..]) {
        StutterElements(front[1..], custom[1..]);
        assert front == [front[0]] + front[1..] && custom == [custom[0]] + custom[1..];
      } else {
        StutterElements(front[1..], custom);
        assert front == [front[0]] + front[1..];
      }
    }
  }

  lemma {:induction false} StutterWithout(front: seq<string>, custom: seq<string>, rule: string)
    requires Stutter(front, custom)
    ensures Stutter(Without(front, rule), Without(custom, rule))
  {
    if front != [] {
      if custom != [] && front[0] == custom[0] && Stutter(front[1..], custom[1..]) {
        StutterWithout(front[1..], custom[1..], rule);
        if front[0] != rule {
          assert ([front[0]] + Without(front[1..], rule))[1..] == Without(front[1..], rule);
          assert ([front[0]] + Without(custom[1..], rule))[1..] == Without(custom[1..], rule);
        }
      } else {
        StutterWithout(front[1..], custom, rule);
        WithoutElements(custom, rule);
        if front[0] != rule {
          assert ([front[0]] + Without(front[1..], rule))[1..] == Without(front[1..], rule);
        }
      }
    }
  }

  // ----- The invariant -----

  /**
    * The config is a mapping whose rules are `front` followed by the active profile's rules; the stored
    * count is the number of profile rules; `front` stands for the stored custom rules; and no custom
    * rule has the text of a profile rule.
    */
  ghost predicate Aligned(s: State, front: seq<string>) {
    var profileRules := ActiveRules(s.profiles, s.files);
    && profileRules != []
    && s.config.Some? && s.config.value.Mapping?
    && HasRules(s.config.value, front + profileRules)
    && s.settings.profileRulesCount == Some(|profileRules|)
    && Disjoint(CustomRules(s.settings), profileRules)
    && Stutter(front, CustomRules(s.settings))
  }

  ghost predicate Inv(s: State) {
    exists front :: Aligned(s, front)
  }

  /** As `Inv`, with the config holding exactly the stored custom rules in front. */
  ghost predicate Synced(s: State) {
    Aligned(s, CustomRules(s.settings))
  }

  /** A profile document whose rules are a non-empty list of texts, none of them a custom rule. */
  ghost predicate GoodProfile(doc: Document, custom: seq<string>) {
    && doc.Mapping? && RulesOf(doc) != [] && HasRules(doc, RulesOf(doc))
    && Disjoint(custom, RulesOf(doc))
  }

  /** Writing `doc` to that file leaves the rules that the lookup of the current profile finds as they are. */
  ghost predicate FileKept(s: State, path: string, doc: Document) {
    Some(path) != ActiveFile(s.profiles) || RulesOf(doc) == ActiveRules(s.profiles, s.files)
  }

  /**
    * What a caller has to respect. New custom and provider rules must not repeat a profile rule; a
    * profile that is switched to must be good and found again by the lookup of the current profile; a
    * refresh must not change the number of rules; whatever else writes or removes profile files must
    * leave the rules of the current one as they are.
    */
  ghost predicate Admissible(s: State, r: Request) {
    var profileRules := ActiveRules(s.profiles, s.files);
    match r
    case AddRule(rule, _, _) => rule !in profileRules
    case AddProvider(p) => ProviderRule(p.name) !in profileRules
    case DeleteProvider(name) => ProviderRule(name) !in profileRules
    case AddProfile(item, content) => content.Some? ==> FileKept(s, ShortName(item.uid), content.value)
    case Activate(uid, script, _) => s.profiles.Some? ==> AdmissibleActivation(s, uid, script)
    case UpdateProfile(uid, edit, download, _) => s.profiles.Some? ==> AdmissibleUpdate(s, uid, edit, download)
    case RefreshProfile(uid, download, _) => s.profiles.Some? ==> AdmissibleRefresh(s, uid, download)
    case DeleteProfile(uid) => s.profiles.Some? ==> AdmissibleRemoval(s, uid)
    case FetchProfiles(fetched) => forall path :: path in fetched ==> FileKept(s, path, fetched[path])
    case _ => true
  }

  /** A refused activation of a script or merge profile has written the profile file already. */
  ghost predicate AdmissibleActivation(s: State, uid: string, script: Option<Document>)
    requires s.profiles.Some?
  {
    var item := FindItem(s.profiles.value.items, uid);
    item.Some? ==>
      var path := Resolve(s.files, uid, item.value.file);
      var content := ActivationContent(item.value, path, s.files, s.profiles.value, script);
      content.Some? ==>
        if Activatable(content.value) then
          item.value.file == Some(path) && GoodProfile(content.value, CustomRules(s.settings))
        else item.value.kind == Plain || FileKept(s, path, content.value)
  }

  /**
    * An edit without a new URL stores the canonical file name, which has to find the same rules. A new URL
    * of the current profile switches to the download; one of another profile only writes its file, and so
    * does a text that is no YAML.
    */
  ghost predicate AdmissibleUpdate(s: State, uid: string, edit: Edit, download: Option<Document>)
    requires s.profiles.Some?
  {
    var item := FindItem(s.profiles.value.items, uid);
    item.Some? && edit.cronValid ==>
      var file := Canonical(item.value).file;
      var path := Resolve(s.files, uid, file);
      var current := s.profiles.value.current == Some(uid);
      match edit.url
      case Absent => current ==> RulesAt(s.files, file) == RulesAt(s.files, item.value.file)
      case Given(url) =>
        if item.value.url == Some(url) then
          current ==> RulesAt(s.files, file) == RulesAt(s.files, item.value.file)
        else if download.Some? && current && !download.value.Unparsable? then
          && (item.value.file == Some(path) || RulesAt(s.files, item.value.file) == RulesOf(download.value))
          && GoodProfile(download.value, CustomRules(s.settings))
        else download.Some? ==> FileKept(s, path, download.value)
      case _ => true
  }

  ghost predicate AdmissibleRefresh(s: State, uid: string, download: Option<Document>)
    requires s.profiles.Some?
  {
    var item := FindItem(s.profiles.value.items, uid);
    item.Some? && item.value.url.Some? && download.Some? ==>
      if s.profiles.value.current == Some(uid) then
        && GoodProfile(download.value, CustomRules(s.settings))
        && Some(|RulesOf(download.value)|) == s.settings.profileRulesCount
      else FileKept(s, Resolve(s.files, uid, item.value.file), download.value)
  }

  /** The deleted profile is not the current one and does not share its file. */
  ghost predicate AdmissibleRemoval(s: State, uid: string)
    requires s.profiles.Some?
  {
    var item := FindItem(s.profiles.value.items, uid);
    item.Some? ==>
      && s.profiles.value.current != Some(uid)
      && Some(Resolve(s.files, uid, item.value.file)) != ActiveFile(s.profiles)
  }

  ghost predicate AdmissibleRun(s: State, requests: seq<Request>)
    decreases |requests|
  {
    requests == [] || (Admissible(s, requests[0]) && AdmissibleRun(Step(s, requests[0]).0, requests[1..]))
  }

  /** The request adds a provider whose rule is among the custom rules already. */
  ghost predicate ReAdds(s: State, r: Request) {
    r.AddProvider? && ValidProvider(r.provider) && ProviderRule(r.provider.name) in CustomRules(s.settings)
  }

  // ----- Reading an aligned state -----

  /** In an aligned state the handlers read the right list and find the right boundary. */
  lemma AlignedReads(s: State, front: seq<string>)
    requires Aligned(s, front)
    ensures ConfigRules(s.config) == front + ActiveRules(s.profiles, s.files)
    ensures Disjoint(front, ActiveRules(s.profiles, s.files))
    ensures Boundary(ConfigRules(s.config), ActiveRules(s.profiles, s.files)) == |front|
  {
    var profileRules := ActiveRules(s.profiles, s.files);
    HasRulesReads(s.config.value, front + profileRules);
    StutterElements(front, CustomRules(s.settings));
    BoundaryIff(front, profileRules);
  }

  /** A merge with the number of profile rules aligns the config with the given custom rules. */
  lemma MergeAligns(s: State, front: seq<string>, t: State, custom: seq<string>)
    requires Aligned(s, front)
    requires t.profiles == s.profiles && t.files == s.files
    requires t.config == Some(Merged(s.config, |ActiveRules(s.profiles, s.files)|, custom))
    requires t.settings.profileRulesCount == s.settings.profileRulesCount && CustomRules(t.settings) == custom
    requires Disjoint(custom, ActiveRules(s.profiles, s.files))
    ensures Aligned(t, custom)
  {
    var profileRules := ActiveRules(s.profiles, s.files);
    assert HasRules(t.config.value, custom + profileRules) by {
      AlignedReads(s, front);
      MergeRestores(front, profileRules, custom);
      MergeDocument(s.config.value, |profileRules|, custom);
    }
    StutterRefl(custom);
  }

  // ----- One lemma per request -----

  lemma AddRuleKeeps(s: State, front: seq<string>, rule: string, proxy: string, names: seq<string>)
    requires Aligned(s, front) && rule !in ActiveRules(s.profiles, s.files)
    ensures var (t, o) := AfterAddRule(s, rule, proxy, names);
            if o == Done then Synced(t) && CustomRules(t.settings) == CustomRules(s.settings) + [rule] else t == s
  {
    var (t, o) := AfterAddRule(s, rule, proxy, names);
    if o == Done {
      MergeAligns(s, front, t, CustomRules(s.settings) + [rule]);
    }
  }

  lemma DeleteRuleKeeps(s: State, front: seq<string>, source: string, index: nat)
    requires Aligned(s, front)
    ensures var (t, o) := AfterDeleteRule(s, source, index);
            var custom := CustomRules(s.settings);
            && (o == Done <==> source != "profile" && index < |custom|)
            && (if o == Done then Synced(t) && CustomRules(t.settings) == RemoveAt(custom, index) else t == s)
  {
    DeleteRuleEffect(s, front, source, index);
    var custom := CustomRules(s.settings);
    StutterElements(front, custom);
    if source != "profile" && index < |custom| {
      var rest := RemoveAt(custom, index);
      assert forall x :: x in rest ==> x in custom;
      MergeAligns(s, front, AfterDeleteRule(s, source, index).0, rest);
    }
  }

  /** In an aligned state a deletion takes effect exactly for the indices of the stored custom rules. */
  lemma DeleteRuleEffect(s: State, front: seq<string>, source: string, index: nat)
    requires Aligned(s, front)
    ensures var custom := CustomRules(s.settings);
            AfterDeleteRule(s, source, index) ==
              if source == "profile" || index >= |front| then (s, Rejected(400))
              else if index >= |custom| then (s, Panicked)
              else (s.(settings := s.settings.(customRules := StoredRules(RemoveAt(custom, index))),
                       config := Some(Merged(s.config, |ActiveRules(s.profiles, s.files)|, RemoveAt(custom, index)))),
                    Done)
  {
    AlignedReads(s, front);
    StutterElements(front, CustomRules(s.settings));
  }

  lemma ClearRulesKeeps(s: State, front: seq<string>, source: string)
    requires Aligned(s, front)
    ensures var (t, o) := AfterClearRules(s, source);
            if o == Done then Synced(t) && CustomRules(t.settings) == [] else t == s
  {
    var (t, o) := AfterClearRules(s, source);
    AlignedReads(s, front);
    if source != "profile" {
      if front == [] {
        ClearedAlready(s);
      } else {
        MergeAligns(s, front, t, []);
      }
    }
  }

  /** With nothing in front, forgetting the stored custom rules is all there is to do. */
  lemma ClearedAlready(s: State)
    requires Aligned(s, [])
    ensures Synced(s.(settings := s.settings.(customRules := None)))
  {
    var profileRules := ActiveRules(s.profiles, s.files);
    assert [] + profileRules == profileRules;
  }

  lemma AddProviderKeeps(s: State, front: seq<string>, p: RuleProvider)
    requires Aligned(s, front) && ProviderRule(p.name) !in ActiveRules(s.profiles, s.files)
    ensures var (t, o) := AfterAddProvider(s, p);
            var rule := ProviderRule(p.name);
            var custom := CustomRules(s.settings);
            if o == Done then Aligned(t, [rule] + front)
                              && CustomRules(t.settings) == if rule in custom then custom else [rule] + custom
            else t == s
  {
    var (t, o) := AfterAddProvider(s, p);
    if o != Rejected(400) {
      var rule := ProviderRule(p.name);
      var profileRules := ActiveRules(s.profiles, s.files);
      assert FromStrings([rule]) == [Str(rule)];
      FromStringsConcat([rule], front + profileRules);
      assert [rule] + (front + profileRules) == ([rule] + front) + profileRules;
      StutterPrepend(front, CustomRules(s.settings), rule);
    }
  }

  lemma DeleteProviderKeeps(s: State, front: seq<string>, name: string)
    requires Aligned(s, front) && ProviderRule(name) !in ActiveRules(s.profiles, s.files)
    ensures var (t, o) := AfterDeleteProvider(s, name);
            if o == Done then Aligned(t, Without(front, ProviderRule(name)))
                              && CustomRules(t.settings) == Without(CustomRules(s.settings), ProviderRule(name))
            else t == s
  {
    var (t, o) := AfterDeleteProvider(s, name);
    if o == Done {
      var rule := ProviderRule(name);
      var custom := CustomRules(s.settings);
      DeletedRules(s, front, rule, WithoutProvider(s.config.value, name));
      WithoutElements(custom, rule);
      StutterWithout(front, custom, rule);
    }
  }

  /** Removing a rule by its text takes it out of the custom part and leaves the profile part alone. */
  lemma DeletedRules(s: State, front: seq<string>, rule: string, doc: Document)
    requires Aligned(s, front) && rule !in ActiveRules(s.profiles, s.files)
    requires doc.Mapping? && doc.Get(Rules) == s.config.value.Get(Rules)
    ensures var kept := match RemovedByContent(Some(doc), rule) case Ok(d) => d case Err(_) => doc;
            kept.Mapping? && HasRules(kept, Without(front, rule) + ActiveRules(s.profiles, s.files))
  {
    var profileRules := ActiveRules(s.profiles, s.files);
    var all := front + profileRules;
    RetainedStrings(all, rule);
    WithoutConcat(front, profileRules, rule);
    WithoutAbsent(profileRules, rule);
    WithoutAbsent(all, rule);
  }

  lemma {:induction false} RetainedStrings(rules: seq<string>, rule: string)
    ensures Retained(FromStrings(rules), rule) == FromStrings(Without(rules, rule))
  {
    if rules != [] {
      var vs := FromStrings(rules);
      assert vs[1..] == FromStrings(rules[1..]);
      RetainedStrings(rules[1..], rule);
      FromStringsConcat([rules[0]], Without(rules[1..], rule));
    }
  }

  // ----- Profile switches -----

  /** A switch to a good profile aligns the config with the stored custom rules, whatever it was before. */
  lemma SwitchAligns(s: State, doc: Document, t: State)
    requires GoodProfile(doc, CustomRules(s.settings))
    requires ActiveRules(t.profiles, t.files) == RulesOf(doc)
    requires t.settings.customRules == s.settings.customRules
    requires t.settings.profileRulesCount == Some(|RuleEntries(doc)|)
    requires t.config == Some(SwitchConfig(s, doc))
             || t.config == Injected(Some(SwitchConfig(s, doc)), s.settings.ruleProviders)
    ensures Synced(t)
  {
    var custom := CustomRules(s.settings);
    SwitchRules(s.config, Switch(doc, custom, PortsFrom(s.settings)), RulesOf(doc));
    HasRulesReads(doc, RulesOf(doc));
    StutterRefl(custom);
  }

  /**
    * Activation of a good profile establishes the invariant from any state of the other stores. A refused
    * one leaves config, settings and the rules of the current profile alone.
    */
  lemma ActivateEstablishes(s: State, uid: string, script: Option<Document>)
    requires s.profiles.Some? && AdmissibleActivation(s, uid, script)
    ensures var (t, o) := AfterActivate(s, uid, script);
            if o == Done then Synced(t) && CustomRules(t.settings) == CustomRules(s.settings)
            else t.config == s.config && t.settings == s.settings
                 && ActiveRules(t.profiles, t.files) == ActiveRules(s.profiles, s.files)
  {
    var (t, o) := AfterActivate(s, uid, script);
    if o == Done {
      var item := FindItem(s.profiles.value.items, uid).value;
      var path := Resolve(s.files, uid, item.file);
      var doc := ActivationContent(item, path, s.files, s.profiles.value, script).value;
      assert t.files[path] == doc;
      assert ActiveFile(t.profiles) == Some(path);
      SwitchAligns(s, doc, t);
    }
  }

  /** A fresh installation with one plain profile: the settings written at startup and no config yet. */
  function Fresh(uid: string, file: string, doc: Document): State {
    State(INITIAL_SETTINGS, None, Some(ProfilesYaml(None, [ProfileItem(uid, Some(file), None, Plain, false, [])])),
          map[file := doc])
  }

  /**
    * The first activation on a fresh installation reaches the invariant from the settings the service
    * writes at startup. The config takes its ports from there, and its mode too once a process was started.
    */
  lemma FirstActivation(uid: string, file: string, doc: Document, restart: Restart)
    requires Activatable(doc) && GoodProfile(doc, [])
    ensures var (t, o) := Step(Fresh(uid, file, doc), Activate(uid, None, restart));
            && Synced(t) && ConfigRules(t.config) == RulesOf(doc)
            && (o == Done <==> restart != RestartFailed)
            && t.config.value.Get(Mode) == (if restart == Started then Some(Str("rule")) else doc.Get(Mode))
            && t.config.value.Get(MixedPort) == Some(Num(7890)) && t.config.value.Get(SocksPort) == Some(Num(7891))
  {
    FirstActivationStores(uid, file, doc);
    FirstStart(Fresh(uid, file, doc), uid, doc, restart);
  }

  lemma FirstStart(s: State, uid: string, doc: Document, restart: Restart)
    requires s.config.None? && s.settings == INITIAL_SETTINGS && doc.Mapping?
    requires var (t, o) := AfterActivate(s, uid, None);
             && o == Done && Synced(t) && ActiveRules(t.profiles, t.files) == RulesOf(doc)
             && CustomRules(t.settings) == [] && t.settings.mode == Some("rule")
             && t.config == Some(SwitchConfig(s, doc))
    ensures var (t, o) := Step(s, Activate(uid, None, restart));
            && Synced(t) && ConfigRules(t.config) == RulesOf(doc)
            && (o == Done <==> restart != RestartFailed)
            && t.config.value.Get(Mode) == (if restart == Started then Some(Str("rule")) else doc.Get(Mode))
            && t.config.value.Get(MixedPort) == Some(Num(7890)) && t.config.value.Get(SocksPort) == Some(Num(7891))
  {
    FirstSwitch(s, doc);
    FirstRestart(AfterActivate(s, uid, None).0, restart);
    assert [] + RulesOf(doc) == RulesOf(doc);
    ServedActivation(s, uid, None, restart);
  }

  lemma ServedActivation(s: State, uid: string, script: Option<Document>, restart: Restart)
    requires AfterActivate(s, uid, script).1 == Done
    ensures Step(s, Activate(uid, script, restart)) == Restarted(AfterActivate(s, uid, script).0, restart)
  {
    ActivationStep(s, uid, script, restart);
    ThenDone(AfterActivate(s, uid, script), restart);
  }

  lemma ActivationStep(s: State, uid: string, script: Option<Document>, restart: Restart)
    ensures Step(s, Activate(uid, script, restart)) == ThenRestart(AfterActivate(s, uid, script), restart)
  {}

  lemma ThenDone(served: (State, Outcome), restart: Restart)
    requires served.1 == Done
    ensures ThenRestart(served, restart) == Restarted(served.0, restart)
  {}

  lemma FirstRestart(s: State, restart: Restart)
    requires Synced(s) && CustomRules(s.settings) == []
    ensures var (t, o) := Restarted(s, restart);
            && Synced(t) && ConfigRules(t.config) == [] + ActiveRules(s.profiles, s.files)
            && (o == Done <==> restart != RestartFailed)
    ensures var t := Restarted(s, restart).0;
            forall k :: t.config.value.Get(k) ==
                          if k == Mode && restart == Started && s.settings.mode.Some?
                          then Some(Str(s.settings.mode.value))
                          else s.config.value.Get(k)
  {
    RestartKeeps(s, [], restart);
    AlignedReads(Restarted(s, restart).0, []);
  }

  lemma FirstActivationStores(uid: string, file: string, doc: Document)
    requires Activatable(doc) && GoodProfile(doc, [])
    ensures var s := Fresh(uid, file, doc);
            var (t, o) := AfterActivate(s, uid, None);
            && o == Done && Synced(t) && ActiveRules(t.profiles, t.files) == RulesOf(doc)
            && CustomRules(t.settings) == [] && t.settings.mode == Some("rule")
            && t.config == Some(SwitchConfig(s, doc))
  {
    var s := Fresh(uid, file, doc);
    PlainActivation(s, uid, s.profiles.value.items[0], doc);
    ActivateEstablishes(s, uid, None);
  }

  /** The activation of a profile that is read from its file, before any provider is stored. */
  lemma PlainActivation(s: State, uid: string, item: ProfileItem, doc: Document)
    requires s.profiles.Some? && FindItem(s.profiles.value.items, uid) == Some(item) && item.kind == Plain
    requires Resolve(s.files, uid, item.file) in s.files && s.files[Resolve(s.files, uid, item.file)] == doc
    requires Activatable(doc) && s.settings.ruleProviders.None?
    ensures AfterActivate(s, uid, None) ==
              (s.(profiles := Some(s.profiles.value.(current := Some(uid))),
                  settings := s.settings.(profileRulesCount := Some(|RuleEntries(doc)|)),
                  config := Some(SwitchConfig(s, doc))), Done)
  {}

  /** The HTTP port and the controller address come from the startup settings too. */
  lemma FirstEndpoints(uid: string, file: string, doc: Document, restart: Restart)
    requires Activatable(doc) && GoodProfile(doc, [])
    ensures var t := Step(Fresh(uid, file, doc), Activate(uid, None, restart)).0;
            && t.config.Some? && t.config.value.Get(HttpPort) == Some(Num(7890))
            && t.config.value.Get(ExternalController) == Some(Str(Endpoint("127.0.0.1", 9090)))
  {
    FirstActivationStores(uid, file, doc);
    StartEndpoints(Fresh(uid, file, doc), uid, doc, restart);
  }

  lemma StartEndpoints(s: State, uid: string, doc: Document, restart: Restart)
    requires s.config.None? && s.settings == INITIAL_SETTINGS && doc.Mapping?
    requires var (t, o) := AfterActivate(s, uid, None);
             o == Done && Synced(t) && CustomRules(t.settings) == [] && t.config == Some(SwitchConfig(s, doc))
    ensures var t := Step(s, Activate(uid, None, restart)).0;
            && t.config.Some? && t.config.value.Get(HttpPort) == Some(Num(7890))
            && t.config.value.Get(ExternalController) == Some(Str(Endpoint("127.0.0.1", 9090)))
  {
    SwitchEndpoints(s, doc);
    FirstRestart(AfterActivate(s, uid, None).0, restart);
    ServedActivation(s, uid, None, restart);
  }

  lemma SwitchEndpoints(s: State, doc: Document)
    requires s.config.None? && s.settings == INITIAL_SETTINGS && doc.Mapping?
    ensures SwitchConfig(s, doc).Get(HttpPort) == Some(Num(7890))
    ensures SwitchConfig(s, doc).Get(ExternalController) == Some(Str(Endpoint("127.0.0.1", 9090)))
  {
    ReplacedGet(None, doc, CustomRules(s.settings), PortsFrom(s.settings), HttpPort);
    ReplacedGet(None, doc, CustomRules(s.settings), PortsFrom(s.settings), ExternalController);
  }

  /** The keys of a switch from no config at all. */
  lemma FirstSwitch(s: State, doc: Document)
    requires doc.Mapping? && s.config.None? && s.settings == INITIAL_SETTINGS
    ensures var config := SwitchConfig(s, doc);
            && config.Mapping? && config.Get(Mode) == doc.Get(Mode)
            && config.Get(MixedPort) == Some(Num(7890)) && config.Get(SocksPort) == Some(Num(7891))
  {
    ReplacedGet(None, doc, CustomRules(s.settings), PortsFrom(s.settings), Mode);
    ReplacedGet(None, doc, CustomRules(s.settings), PortsFrom(s.settings), MixedPort);
    ReplacedGet(None, doc, CustomRules(s.settings), PortsFrom(s.settings), SocksPort);
  }

  lemma {:induction false} FindReplaced(items: seq<ProfileItem>, uid: string, item: ProfileItem, other: string)
    requires FindItem(items, uid).Some? && item.uid == uid
    ensures FindItem(ReplaceItem(items, uid, item), other)
         == if other == uid then Some(item) else FindItem(items, other)
  {
    if items[0].uid == uid {
      assert ([item] + items[1..])[1..] == items[1..];
    } else {
      FindReplaced(items[1..], uid, item, other);
      assert ([items[0]] + ReplaceItem(items[1..], uid, item))[1..] == ReplaceItem(items[1..], uid, item);
    }
  }

  lemma {:induction false} FindItemUid(items: seq<ProfileItem>, uid: string)
    ensures FindItem(items, uid).Some? ==> FindItem(items, uid).value.uid == uid
  {
    if items != [] {
      FindItemUid(items[1..], uid);
    }
  }

  /** A change of stores that neither rules nor lookups depend on keeps the alignment. */
  lemma SameRulesAligned(s: State, front: seq<string>, t: State)
    requires Aligned(s, front)
    requires ActiveRules(t.profiles, t.files) == ActiveRules(s.profiles, s.files)
    requires t.config.Some? && t.config.value.Mapping? && t.config.value.Get(Rules) == s.config.value.Get(Rules)
    requires t.settings.customRules == s.settings.customRules
    requires t.settings.profileRulesCount == s.settings.profileRulesCount
    ensures Aligned(t, front)
  {}

  /** Restoring the mode at the end of a request leaves the rules and all other stores alone. */
  lemma RestartKeeps(s: State, front: seq<string>, restart: Restart)
    requires Aligned(s, front)
    ensures var t := Restarted(s, restart).0;
            Aligned(t, front) && t.settings == s.settings && t.profiles == s.profiles && t.files == s.files
  {
    SameRulesAligned(s, front, Restarted(s, restart).0);
  }

  lemma UpdateProfileKeeps(s: State, front: seq<string>, uid: string, edit: Edit, download: Option<Document>)
    requires Aligned(s, front) && s.profiles.Some? && AdmissibleUpdate(s, uid, edit, download)
    ensures var (t, o) := AfterUpdateProfile(s, uid, edit, download);
            && CustomRules(t.settings) == CustomRules(s.settings)
            && (Aligned(t, front) || Synced(t))
  {
    var (t, o) := AfterUpdateProfile(s, uid, edit, download);
    if t != s {
      var items := s.profiles.value.items;
      var item := FindItem(items, uid).value;
      FindItemUid(items, uid);
      var current := s.profiles.value.current.value;
      FindReplaced(items, uid, Canonical(item), current);
      if edit.url.Absent? || item.url == Some(edit.url.url) {
        EditedLookup(s, uid);
        SameRulesAligned(s, front, t);
      } else {
        FindReplaced(items, uid, item.(url := Some(edit.url.url)), current);
        if current != uid || download.value.Unparsable? {
          SameRulesAligned(s, front, t);
        } else {
          SwitchAligns(s, download.value, t);
        }
      }
    }
  }

  /** The file under which the current profile is looked up after an edit stored its canonical file name. */
  lemma EditedLookup(s: State, uid: string)
    requires s.profiles.Some? && s.profiles.value.current.Some? && FindItem(s.profiles.value.items, uid).Some?
    ensures var items := s.profiles.value.items;
            var item := Canonical(FindItem(items, uid).value);
            ActiveFile(Some(s.profiles.value.(items := ReplaceItem(items, uid, item))))
              == if s.profiles.value.current == Some(uid) then item.file else ActiveFile(s.profiles)
  {
    var items := s.profiles.value.items;
    FindItemUid(items, uid);
    FindReplaced(items, uid, Canonical(FindItem(items, uid).value), s.profiles.value.current.value);
  }

  lemma RefreshKeeps(s: State, front: seq<string>, uid: string, download: Option<Document>)
    requires Aligned(s, front) && s.profiles.Some? && AdmissibleRefresh(s, uid, download)
    ensures var (t, o) := AfterRefreshProfile(s, uid, download);
            && CustomRules(t.settings) == CustomRules(s.settings)
            && (Aligned(t, front) || Synced(t))
  {
    var (t, o) := AfterRefreshProfile(s, uid, download);
    if o == Done {
      if s.profiles.value.current != Some(uid) {
        SameRulesAligned(s, front, t);
      } else {
        HasRulesReads(download.value, RulesOf(download.value));
        assert t.settings.profileRulesCount == Some(|RuleEntries(download.value)|);
        SwitchAligns(s, download.value, t);
      }
    }
  }

  // ----- Profiles that come, go, or change on disk -----

  lemma {:induction false} FindAppended(items: seq<ProfileItem>, item: ProfileItem, uid: string)
    ensures FindItem(items, uid).Some? ==> FindItem(items + [item], uid) == FindItem(items, uid)
  {
    if items != [] {
      assert (items + [item])[1..] == items[1..] + [item];
      FindAppended(items[1..], item, uid);
    }
  }

  lemma {:induction false} FindRemaining(items: seq<ProfileItem>, gone: string, uid: string)
    ensures FindItem(WithoutItem(items, gone), uid) == if uid == gone then None else FindItem(items, uid)
  {
    if items != [] {
      FindRemaining(items[1..], gone, uid);
      if items[0].uid == gone {
        assert [] + WithoutItem(items[1..], gone) == WithoutItem(items[1..], gone);
      } else {
        assert ([items[0]] + WithoutItem(items[1..], gone))[1..] == WithoutItem(items[1..], gone);
      }
    }
  }

  lemma AddProfileKeeps(s: State, front: seq<string>, item: ProfileItem, content: Option<Document>)
    requires Aligned(s, front)
    requires content.Some? ==> FileKept(s, ShortName(item.uid), content.value)
    ensures Aligned(AfterAddProfile(s, item, content).0, front)
    ensures AfterAddProfile(s, item, content).0.settings == s.settings
  {
    var t := AfterAddProfile(s, item, content).0;
    FindAppended(s.profiles.value.items, item.(file := Some(ShortName(item.uid))), s.profiles.value.current.value);
    SameRulesAligned(s, front, t);
  }

  lemma DeleteProfileKeeps(s: State, front: seq<string>, uid: string)
    requires Aligned(s, front) && s.profiles.Some? && AdmissibleRemoval(s, uid)
    ensures Aligned(AfterDeleteProfile(s, uid).0, front)
    ensures AfterDeleteProfile(s, uid).0.settings == s.settings
  {
    FindRemaining(s.profiles.value.items, uid, s.profiles.value.current.value);
    SameRulesAligned(s, front, AfterDeleteProfile(s, uid).0);
  }

  lemma FetchProfilesKeeps(s: State, front: seq<string>, fetched: Files)
    requires Aligned(s, front) && Admissible(s, FetchProfiles(fetched))
    ensures Aligned(Step(s, FetchProfiles(fetched)).0, front)
  {
    SameRulesAligned(s, front, Step(s, FetchProfiles(fetched)).0);
  }

  // ----- Requests that leave the rules alone -----

  /** The settings that no network request touches. */
  ghost predicate SameRuleFields(s: SettingsData, t: SettingsData) {
    t.customRules == s.customRules && t.profileRulesCount == s.profileRulesCount
  }

  /** The document after some change of a key other than the rules. */
  ghost predicate SameRulesEntry(s: Option<Document>, t: Option<Document>) {
    && s.Some? == t.Some?
    && (s.Some? ==> t.value.Mapping? == s.value.Mapping? && t.value.Get(Rules) == s.value.Get(Rules))
  }

  /** Saving one of the records that the network forms submit keeps the rule fields. */
  lemma NetworkFormKeeps(
    s: SettingsData, http: Option<nat>, socks: Option<nat>, tun: Option<bool>, mode: Option<string>,
    autoTest: Option<AutoTest>, apiPort: nat)
    ensures SameRuleFields(s, Overlay(s, NetworkSettings(s, http, socks, tun, mode, autoTest, apiPort)))
  {}

  /** A write that keeps rule fields, rules and lookups, followed by a restart, keeps the alignment. */
  lemma WriteKeeps(s: State, front: seq<string>, served: (State, Outcome), restart: Restart)
    requires Aligned(s, front)
    requires SameRuleFields(s.settings, served.0.settings) && SameRulesEntry(s.config, served.0.config)
    requires served.0.profiles == s.profiles && served.0.files == s.files
    ensures var t := ThenRestart(served, restart).0;
            Aligned(t, front) && t.settings.customRules == s.settings.customRules
  {
    SameRulesAligned(s, front, served.0);
    RestartKeeps(served.0, front, restart);
  }

  lemma ApplyPortsKeeps(s: State, front: seq<string>, http: nat, socks: nat, host: string, port: nat, restart: Restart)
    requires Aligned(s, front)
    ensures var t := Step(s, ApplyPorts(http, socks, host, port, restart)).0;
            Aligned(t, front) && t.settings.customRules == s.settings.customRules
  {
    NetworkFormKeeps(s.settings, Some(http), Some(socks), s.settings.tunEnabled, None, None, port);
    WriteKeeps(s, front, AfterApplyPorts(s, http, socks, host, port), restart);
  }

  lemma ApplyTunKeeps(s: State, front: seq<string>, enabled: bool, section: Value, port: nat, restart: Restart)
    requires Aligned(s, front)
    ensures var t := Step(s, ApplyTun(enabled, section, port, restart)).0;
            Aligned(t, front) && t.settings.customRules == s.settings.customRules
  {
    NetworkFormKeeps(s.settings, s.settings.httpPort, s.settings.socksPort, Some(enabled), s.settings.mode,
                     s.settings.autoTest, port);
    WriteKeeps(s, front, AfterApplyTun(s, enabled, section, port), restart);
  }

  lemma SetModeKeeps(s: State, front: seq<string>, mode: string, patched: bool)
    requires Aligned(s, front)
    ensures var t := AfterSetMode(s, mode, patched).0;
            Aligned(t, front) && t.settings.customRules == s.settings.customRules
  {
    WriteKeeps(s, front, AfterSetMode(s, mode, patched), Unneeded);
  }

  lemma SetPasswordKeeps(s: State, front: seq<string>, key: string, longEnough: bool)
    requires Aligned(s, front)
    ensures var t := AfterSetPassword(s, key, longEnough).0;
            Aligned(t, front) && t.settings.customRules == s.settings.customRules
  {
    WriteKeeps(s, front, AfterSetPassword(s, key, longEnough), Unneeded);
  }

  lemma PutDnsKeeps(s: State, front: seq<string>, dns: DnsSettings)
    requires Aligned(s, front)
    ensures var t := AfterPutDns(s, dns).0;
            Aligned(t, front) && t.settings.customRules == s.settings.customRules
  {
    WriteKeeps(s, front, AfterPutDns(s, dns), Unneeded);
  }

  lemma UpdateProviderKeeps(s: State, front: seq<string>, name: string, interval: Option<nat>)
    requires Aligned(s, front)
    ensures var t := AfterUpdateProvider(s, name, interval).0;
            Aligned(t, front) && t.settings.customRules == s.settings.customRules
  {
    WriteKeeps(s, front, AfterUpdateProvider(s, name, interval), Unneeded);
  }

  /** Requests that write single settings or keys and start nothing. */
  lemma WriteRequestKeeps(s: State, front: seq<string>, r: Request)
    requires Aligned(s, front)
    requires r.UpdateProvider? || r.PutSettings? || r.SetMode? || r.PutDns? || r.SetPassword?
    ensures Aligned(Step(s, r).0, front) && Step(s, r).0.settings.customRules == s.settings.customRules
  {
    match r
    case UpdateProvider(name, interval) => UpdateProviderKeeps(s, front, name, interval);
    case PutSettings(body) => WriteKeeps(s, front, Step(s, r), Unneeded);
    case SetMode(mode, patched) => SetModeKeeps(s, front, mode, patched);
    case PutDns(dns) => PutDnsKeeps(s, front, dns);
    case SetPassword(key, longEnough) => SetPasswordKeeps(s, front, key, longEnough);
  }

  /** Settings form, mode, ports, TUN, DNS, password, provider intervals and restarts leave the rules alone. */
  lemma NetworkRequestKeeps(s: State, front: seq<string>, r: Request)
    requires Aligned(s, front)
    requires || r.UpdateProvider? || r.PutSettings? || r.SetMode? || r.ApplyPorts? || r.ApplyTun? || r.PutDns?
             || r.SetPassword? || r.StartService?
    ensures Aligned(Step(s, r).0, front) && Step(s, r).0.settings.customRules == s.settings.customRules
  {
    match r
    case ApplyPorts(http, socks, host, port, restart) => ApplyPortsKeeps(s, front, http, socks, host, port, restart);
    case ApplyTun(enabled, section, port, restart) => ApplyTunKeeps(s, front, enabled, section, port, restart);
    case StartService(restart) => RestartKeeps(s, front, restart);
    case _ => WriteRequestKeeps(s, front, r);
  }

  // ----- Runs -----

  /** How a request can change the stored custom rules. */
  ghost predicate CustomStep(before: seq<string>, after: seq<string>, r: Request) {
    || after == before
    || (r.ClearRules? && after == [])
    || (r.AddRule? && after == before + [r.rule])
    || (r.DeleteRule? && r.index < |before| && after == RemoveAt(before, r.index))
    || (r.AddProvider? && after == [ProviderRule(r.provider.name)] + before)
    || (r.DeleteProvider? && after == Without(before, ProviderRule(r.name)))
  }

  /** Every admissible request keeps the invariant, and keeps the stores in sync unless it re-adds a provider. */
  lemma StepKeeps(s: State, front: seq<string>, r: Request) returns (after: seq<string>)
    requires Aligned(s, front) && Admissible(s, r)
    ensures Aligned(Step(s, r).0, after)
    ensures front == CustomRules(s.settings) && !ReAdds(s, r) ==> after == CustomRules(Step(s, r).0.settings)
    ensures CustomStep(CustomRules(s.settings), CustomRules(Step(s, r).0.settings), r)
    ensures || after == front || after == CustomRules(Step(s, r).0.settings)
            || (r.AddProvider? && after == [ProviderRule(r.provider.name)] + front)
            || (r.DeleteProvider? && after == Without(front, ProviderRule(r.name)))
  {
    after := front;
    var (t, o) := Step(s, r);
    match r
    case AddRule(rule, proxy, names) =>
      AddRuleKeeps(s, front, rule, proxy, names);
      if o == Done { after := CustomRules(t.settings); }
    case DeleteRule(source, index) =>
      DeleteRuleKeeps(s, front, source, index);
      if o == Done { after := CustomRules(t.settings); }
    case ClearRules(source) =>
      ClearRulesKeeps(s, front, source);
      if o == Done { after := CustomRules(t.settings); }
    case AddProvider(p) =>
      AddProviderKeeps(s, front, p);
      if o == Done { after := [ProviderRule(p.name)] + front; }
    case DeleteProvider(name) =>
      DeleteProviderKeeps(s, front, name);
      if o == Done { after := Without(front, ProviderRule(name)); }
    case AddProfile(item, content) => AddProfileKeeps(s, front, item, content);
    case DeleteProfile(uid) => if s.profiles.Some? { DeleteProfileKeeps(s, front, uid); }
    case FetchProfiles(fetched) => FetchProfilesKeeps(s, front, fetched);
    case Activate(_, _, _) => after := SwitchStepKeeps(s, front, r);
    case UpdateProfile(_, _, _, _) => after := SwitchStepKeeps(s, front, r);
    case RefreshProfile(_, _, _) => after := SwitchStepKeeps(s, front, r);
    case _ => NetworkRequestKeeps(s, front, r);
  }

  /** Activations, edits and refreshes, with the restart that follows them. */
  lemma SwitchStepKeeps(s: State, front: seq<string>, r: Request) returns (after: seq<string>)
    requires Aligned(s, front) && Admissible(s, r)
    requires r.Activate? || r.UpdateProfile? || r.RefreshProfile?
    ensures Aligned(Step(s, r).0, after) && CustomRules(Step(s, r).0.settings) == CustomRules(s.settings)
    ensures after == front || after == CustomRules(s.settings)
  {
    after := front;
    if s.profiles.Some? {
      match r {
        case Activate(uid, script, restart) =>
          ActivateEstablishes(s, uid, script);
          after := SwitchedThenRestarted(s, front, AfterActivate(s, uid, script), restart);
        case UpdateProfile(uid, edit, download, restart) =>
          UpdateProfileKeeps(s, front, uid, edit, download);
          after := SwitchedThenRestarted(s, front, AfterUpdateProfile(s, uid, edit, download),
                                         if EditSwitches(s, uid, edit) then restart else Unneeded);
        case RefreshProfile(uid, download, restart) =>
          RefreshKeeps(s, front, uid, download);
          after := SwitchedThenRestarted(s, front, AfterRefreshProfile(s, uid, download), restart);
      }
    }
  }

  lemma SwitchedThenRestarted(s: State, front: seq<string>, served: (State, Outcome), restart: Restart)
    returns (after: seq<string>)
    requires Aligned(s, front) && CustomRules(served.0.settings) == CustomRules(s.settings)
    requires || Synced(served.0) || Aligned(served.0, front)
             || (served.0.config == s.config && served.0.settings == s.settings
                 && ActiveRules(served.0.profiles, served.0.files) == ActiveRules(s.profiles, s.files))
    ensures var t := ThenRestart(served, restart).0;
            Aligned(t, after) && CustomRules(t.settings) == CustomRules(s.settings)
    ensures after == front || after == CustomRules(s.settings)
  {
    after := if Aligned(served.0, front) then front else CustomRules(s.settings);
    if served.1 == Done {
      RestartKeeps(served.0, after, restart);
    }
  }

  lemma InvStep(s: State, r: Request)
    ensures Inv(s) && Admissible(s, r) ==> Inv(Step(s, r).0)
  {
    if Inv(s) && Admissible(s, r) {
      var front :| Aligned(s, front);
      var after := StepKeeps(s, front, r);
    }
  }

  /** Every admissible sequence of requests keeps the invariant. */
  lemma {:induction false} RunKeepsInv(s: State, requests: seq<Request>)
    requires Inv(s) && AdmissibleRun(s, requests)
    ensures Inv(Run(s, requests))
    decreases |requests|
  {
    if requests != [] {
      InvStep(s, requests[0]);
      RunKeepsInv(Step(s, requests[0]).0, requests[1..]);
    }
  }

  /** The config's rules end with exactly the active profile's rules, and the stored count is their number. */
  ghost predicate EndsWithProfile(s: State) {
    var profileRules := ActiveRules(s.profiles, s.files);
    && Suffix(ConfigRules(s.config), |profileRules|) == profileRules
    && s.settings.profileRulesCount == Some(|profileRules|)
  }

  lemma InvEndsWithProfile(s: State)
    requires Inv(s)
    ensures EndsWithProfile(s)
  {
    var front :| Aligned(s, front);
    AlignedReads(s, front);
  }

  /**
    * Over every admissible sequence of requests the config's rules end with exactly the active
    * profile's rules, in order, and the stored count is their number.
    */
  lemma RunKeepsBoundary(s: State, requests: seq<Request>)
    requires Inv(s) && AdmissibleRun(s, requests)
    ensures EndsWithProfile(Run(s, requests))
  {
    RunKeepsInv(s, requests);
    InvEndsWithProfile(Run(s, requests));
  }

  lemma {:induction false} RunConcat(s: State, a: seq<Request>, b: seq<Request>)
    ensures Run(s, a + b) == Run(Run(s, a), b)
    decreases |a|
  {
    if a == [] {
      assert a + b == b;
    } else {
      assert (a + b)[1..] == a[1..] + b;
      RunConcat(Step(s, a[0]).0, a[1..], b);
    }
  }

  /**
    * Self-stabilisation: whatever requests came before, admissible or not, one served activation of a good
    * profile puts the stores in order. From then on every admissible run ends with the active profile's
    * rules in the config, and as long as no provider is added twice the rest is the stored custom rules.
    */
  lemma ActivationHeals(
    s: State, before: seq<Request>, uid: string, script: Option<Document>, restart: Restart, after: seq<Request>)
    requires var t := Run(s, before);
             t.profiles.Some? && AdmissibleActivation(t, uid, script) && AfterActivate(t, uid, script).1 == Done
    requires AdmissibleRun(Step(Run(s, before), Activate(uid, script, restart)).0, after)
    ensures var healed := Step(Run(s, before), Activate(uid, script, restart)).0;
            var t := Run(s, before + [Activate(uid, script, restart)] + after);
            && t == Run(healed, after) && Synced(healed) && EndsWithProfile(t)
            && (NeverReAdds(healed, after) ==>
                  ConfigRules(t.config) == CustomRules(t.settings) + ActiveRules(t.profiles, t.files))
  {
    HealedStep(Run(s, before), uid, script, restart);
    RunThrough(s, before, Activate(uid, script, restart), after);
    SyncedRun(Step(Run(s, before), Activate(uid, script, restart)).0, after);
  }

  lemma RunThrough(s: State, before: seq<Request>, r: Request, after: seq<Request>)
    ensures Run(s, before + [r] + after) == Run(Step(Run(s, before), r).0, after)
  {
    RunConcat(s, before, [r] + after);
    assert before + [r] + after == before + ([r] + after);
    assert ([r] + after)[1..] == after;
  }

  lemma SyncedRun(s: State, requests: seq<Request>)
    requires Synced(s) && AdmissibleRun(s, requests)
    ensures var t := Run(s, requests);
            && EndsWithProfile(t)
            && (NeverReAdds(s, requests) ==>
                  ConfigRules(t.config) == CustomRules(t.settings) + ActiveRules(t.profiles, t.files))
  {
    RunKeepsBoundary(s, requests);
    if NeverReAdds(s, requests) {
      RunKeepsSync(s, requests);
    }
  }

  lemma HealedStep(s: State, uid: string, script: Option<Document>, restart: Restart)
    requires s.profiles.Some? && AdmissibleActivation(s, uid, script) && AfterActivate(s, uid, script).1 == Done
    ensures Synced(Step(s, Activate(uid, script, restart)).0)
  {
    ActivateEstablishes(s, uid, script);
    ServedActivation(s, uid, script, restart);
    SyncedRestart(AfterActivate(s, uid, script).0, restart);
  }

  lemma SyncedRestart(s: State, restart: Restart)
    requires Synced(s)
    ensures Synced(Restarted(s, restart).0)
  {
    RestartKeeps(s, CustomRules(s.settings), restart);
  }

  /** No request of the run re-adds a provider. */
  ghost predicate NeverReAdds(s: State, requests: seq<Request>)
    decreases |requests|
  {
    requests == [] || (!ReAdds(s, requests[0]) && NeverReAdds(Step(s, requests[0]).0, requests[1..]))
  }

  /**
    * Without re-added providers the config is, after every run, exactly the stored custom rules and the
    * profile rules.
    */
  lemma {:induction false} RunKeepsSync(s: State, requests: seq<Request>)
    requires Synced(s) && AdmissibleRun(s, requests) && NeverReAdds(s, requests)
    ensures var t := Run(s, requests);
            ConfigRules(t.config) == CustomRules(t.settings) + ActiveRules(t.profiles, t.files)
    decreases |requests|
  {
    if requests == [] {
      AlignedReads(s, CustomRules(s.settings));
    } else {
      var after := StepKeeps(s, CustomRules(s.settings), requests[0]);
      RunKeepsSync(Step(s, requests[0]).0, requests[1..]);
    }
  }
}
