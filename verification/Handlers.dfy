/** The request handlers, as they read and rewrite the stores step by step. */
module Handlers {
  import opened Prelude
  import opened Documents
  import opened Settings
  import opened ActiveConfig
  import opened Profiles
  import opened RuleState
  import opened RuleInvariant

  /** One line of the rule list shown to the user. */
  datatype RuleItem = RuleItem(index: nat, rule: string, source: string)

  /** How many leading rules the listing marks as custom. */
  function ShownCustom(s: State): nat {
    var all := ConfigRules(s.config);
    var count := if CustomRules(s.settings) != [] then |CustomRules(s.settings)|
                 else Boundary(all, ActiveRules(s.profiles, s.files));
    if count <= |all| then count else |all|
  }

  class ControlTower {
    const settings: SettingsStore
    const config: ActiveConfigStore
    var profiles: Option<ProfilesYaml>
    var files: Files

    constructor (
      settings: Option<SettingsData>, handWritten: Option<ConnectionHistory>, config: Option<Document>,
      profiles: Option<ProfilesYaml>, files: Files)
      ensures View() == State(settings.GetOr(DEFAULT_SETTINGS), config, profiles, files)
      ensures fresh(this.settings) && fresh(this.config)
    {
      this.settings := new SettingsStore(settings, handWritten);
      this.config := new ActiveConfigStore(config);
      this.profiles := profiles;
      this.files := files;
    }

    /** What all the stores hold. */
    function View(): State
      reads this, settings, config
    {
      State(settings.Current(), config.file, profiles, files)
    }

    // ----- Rules -----

    /** The index of the first rule in `all` that the current profile's file holds; 0 when there is none. */
    method DetectCustomCount(all: seq<string>) returns (count: nat)
      ensures count == Boundary(all, ActiveRules(profiles, files))
    {
      if profiles.None? || profiles.value.current.None? {
        NoProfileRules(all);
        return 0;
      }
      var item := FindItem(profiles.value.items, profiles.value.current.value);
      if item.None? || item.value.file.None? || item.value.file.value !in files {
        NoProfileRules(all);
        return 0;
      }
      var profileRules := RulesOf(files[item.value.file.value]);
      if profileRules == [] {
        NoProfileRules(all);
        return 0;
      }
      for i := 0 to |all|
        invariant forall j :: 0 <= j < i ==> all[j] !in profileRules
      {
        if all[i] in profileRules {
          return i;
        }
      }
      count := 0;
    }

    /** The listed rules, numbered from 1, custom rules first. */
    method GetRules() returns (items: seq<RuleItem>, profileCount: nat, customCount: nat)
      ensures customCount == ShownCustom(View()) && customCount + profileCount == |ConfigRules(config.file)|
      ensures |items| == |ConfigRules(config.file)|
      ensures forall i :: 0 <= i < |items| ==>
                items[i] == RuleItem(i + 1, ConfigRules(config.file)[i],
                                     if i < customCount then "custom" else "profile")
    {
      var all := ConfigRules(config.file);
      var stored := settings.Current().customRules;
      if stored.Some? && stored.value != [] {
        customCount := |stored.value|;
      } else {
        customCount := DetectCustomCount(all);
      }
      if customCount > |all| {
        customCount := |all|;
      }
      profileCount := |all| - customCount;
      items := [];
      for i := 0 to customCount
        invariant |items| == i
        invariant forall j :: 0 <= j < i ==> items[j] == RuleItem(j + 1, all[j], "custom")
      {
        items := items + [RuleItem(i + 1, all[i], "custom")];
      }
      for i := 0 to profileCount
        invariant |items| == customCount + i
        invariant forall j :: 0 <= j < customCount + i ==>
                    items[j] == RuleItem(j + 1, all[j], if j < customCount then "custom" else "profile")
      {
        items := items + [RuleItem(customCount + i + 1, all[customCount + i], "profile")];
      }
    }

    method AddRule(rule: string, proxy: string, proxyNames: seq<string>) returns (o: Outcome)
      modifies settings, config
      ensures (View(), o) == old(Step(View(), Request.AddRule(rule, proxy, proxyNames)))
    {
      if proxyNames != [] && proxy !in proxyNames {
        return Rejected(400);
      }
      var rules := CustomRules(settings.Current());
      rules := rules + [rule];
      settings.WriteCustomRules(rules);
      var count := settings.Current().profileRulesCount.GetOr(0);
      config.MergeRulesWithCustom(count, rules);
      o := Done;
    }

    method DeleteRule(source: string, index: nat) returns (o: Outcome)
      modifies settings, config
      ensures (View(), o) == old(Step(View(), Request.DeleteRule(source, index)))
    {
      if source == "profile" {
        return Rejected(400);
      }
      if config.file.None? {
        return Rejected(400);
      }
      var all := ConfigRules(config.file);
      var count := DetectCustomCount(all);
      if count == 0 || index >= count {
        return Rejected(400);
      }
      var rules := settings.Current().customRules.GetOr(all[..count]);
      if index >= |rules| {
        return Panicked;
      }
      rules := rules[..index] + rules[index + 1..];
      settings.WriteCustomRules(rules);
      config.MergeRulesWithCustom(|all| - count, rules);
      o := Done;
    }

    method ClearRules(source: string) returns (o: Outcome)
      modifies settings, config
      ensures (View(), o) == old(Step(View(), Request.ClearRules(source)))
    {
      if source == "profile" {
        return Rejected(400);
      }
      settings.WriteCustomRules([]);
      if config.file.None? {
        return Rejected(400);
      }
      var all := ConfigRules(config.file);
      var count := DetectCustomCount(all);
      if count == 0 {
        return Done;
      }
      settings.WriteCustomRules([]);
      config.MergeRulesWithCustom(|all| - count, []);
      o := Done;
    }

    // ----- Rule providers -----

    method AddProvider(p: RuleProvider) returns (o: Outcome)
      modifies settings, config
      ensures (View(), o) == old(Step(View(), Request.AddProvider(p)))
    {
      if !ValidProvider(p) {
        return Rejected(400);
      }
      var next := settings.Current();
      var providers := next.ruleProviders.GetOr([]);
      providers := WithoutNamed(providers, p.name);
      providers := providers + [p];
      next := next.(ruleProviders := Some(providers));
      var rule := ProviderRule(p.name);
      var custom := next.customRules.GetOr([]);
      next := next.(customRules := None);
      if rule !in custom {
        custom := [rule] + custom;
        next := next.(customRules := Some(custom));
      }
      settings.SaveSettings(next);
      config.SetRuleProviders(providers);
      var prepended := config.PrependRule(rule);
      o := if prepended.Ok? then Done else Rejected(500);
    }

    method UpdateProvider(name: string, interval: Option<nat>) returns (o: Outcome)
      modifies settings, config
      ensures (View(), o) == old(Step(View(), Request.UpdateProvider(name, interval)))
    {
      var next := settings.Current();
      var providers := next.ruleProviders.GetOr([]);
      var i := FirstNamed(providers, name);
      WithIntervalAt(providers, name, interval);
      if i == |providers| {
        return Rejected(404);
      }
      if interval.Some? {
        providers := providers[i := providers[i].(interval := interval.value)];
      }
      next := next.(ruleProviders := Some(providers));
      settings.SaveSettings(next);
      config.SetRuleProviders(providers);
      o := Done;
    }

    method DeleteProvider(name: string) returns (o: Outcome)
      modifies settings, config
      ensures (View(), o) == old(Step(View(), Request.DeleteProvider(name)))
    {
      var next := settings.Current();
      var providers := next.ruleProviders.GetOr([]);
      var originalLen := |providers|;
      providers := WithoutNamed(providers, name);
      if |providers| == originalLen {
        return Rejected(404);
      }
      next := next.(ruleProviders := Some(providers));
      var rule := ProviderRule(name);
      if next.customRules.Some? {
        next := next.(customRules := Some(Without(next.customRules.value, rule)));
      }
      settings.SaveSettings(next);
      var removed := config.RemoveRuleProvider(name);
      if removed.Err? {
        return Rejected(500);
      }
      var dropped := config.RemoveRuleByContent(rule);
      o := Done;
    }

    // ----- Restarting the proxy -----

    /** Restart the proxy: a new process gets the mode of settings.yaml, through the same code as a mode change. */
    method RestartProxy(restart: Restart) returns (o: Outcome)
      modifies settings, config
      ensures (View(), o) == old(Restarted(View(), restart))
    {
      match restart {
        case Started =>
          var mode := settings.Current().mode;
          if mode.Some? {
            var stored := WriteMode(mode.value);
          }
          o := Done;
        case Unneeded =>
          o := Done;
        case RestartFailed =>
          o := Rejected(500);
      }
    }

    /** Write the mode into the config and then into the settings; without a config neither changes. */
    method WriteMode(mode: string) returns (ok: bool)
      modifies settings, config
      ensures ok == old(config.file).Some?
      ensures config.file == if ok then Some(old(config.file).value.With(Mode, Str(mode))) else None
      ensures settings.Current()
           == if ok then Overlay(old(settings.Current()), old(settings.Current()).(mode := Some(mode)))
              else old(settings.Current())
    {
      if config.file.None? {
        return false;
      }
      config.file := Some(config.file.value.With(Mode, Str(mode)));
      var stored := settings.Current();
      settings.SaveSettings(stored.(mode := Some(mode)));
      ok := true;
    }

    method StartService(restart: Restart) returns (o: Outcome)
      modifies settings, config
      ensures (View(), o) == old(Step(View(), Request.StartService(restart)))
    {
      o := RestartProxy(restart);
    }

    // ----- Profiles -----

    /** Create a profile; a remote one is downloaded first. */
    method AddProfile(item: ProfileItem, content: Option<Document>) returns (o: Outcome)
      modifies this
      ensures (View(), o) == old(Step(View(), Request.AddProfile(item, content)))
    {
      if item.remote && (item.url.None? || item.url == Some("") || content.None?) {
        return Rejected(400);
      }
      var path := ShortName(item.uid);
      if content.Some? {
        files := files[path := content.value];
      }
      var yaml := profiles.GetOr(ProfilesYaml(None, []));
      profiles := Some(yaml.(items := yaml.items + [item.(file := Some(path))]));
      o := Done;
    }

    /** Remove a profile with its file; the config stays. */
    method DeleteProfile(uid: string) returns (o: Outcome)
      modifies this
      ensures (View(), o) == old(Step(View(), Request.DeleteProfile(uid)))
    {
      if profiles.None? {
        return Rejected(404);
      }
      var item := FindItem(profiles.value.items, uid);
      if item.None? {
        return Rejected(404);
      }
      var path := Resolve(files, uid, item.value.file);
      var yaml := profiles.value;
      yaml := yaml.(items := WithoutItem(yaml.items, uid));
      if yaml.current == Some(uid) {
        yaml := yaml.(current := None);
      }
      profiles := Some(yaml);
      assert path !in files ==> files - {path} == files;
      if path in files {
        files := files - {path};
      }
      o := Done;
    }

    /** Downloads by the scheduler or an update check rewrite profile files and nothing else. */
    method FetchProfiles(fetched: Files) returns (o: Outcome)
      modifies this
      ensures (View(), o) == old(Step(View(), Request.FetchProfiles(fetched)))
    {
      WriteFiles(fetched);
      o := Done;
    }

    /** Write each of the downloaded files, in any order. */
    method WriteFiles(fetched: Files)
      modifies this`files
      ensures files == old(files) + fetched
    {
      var pending := fetched.Keys;
      while pending != {}
        invariant pending <= fetched.Keys && files.Keys == old(files).Keys + (fetched.Keys - pending)
        invariant forall path :: path in files ==>
                    files[path] == if path in fetched && path !in pending then fetched[path] else old(files)[path]
        decreases |pending|
      {
        var path :| path in pending;
        pending := pending - {path};
        files := files[path := fetched[path]];
      }
    }

    /** Put the stored providers into the config, when there are any. */
    method Inject(providers: Option<seq<RuleProvider>>)
      modifies config
      ensures config.file == Injected(old(config.file), providers)
    {
      if providers.Some? {
        if providers.value != [] {
          config.SetRuleProviders(providers.value);
        }
      }
    }

    /** Obtain the content of a profile: run its script, merge its parts, or read its file. */
    method ObtainContent(item: ProfileItem, path: string, script: Option<Document>) returns (content: Option<Document>)
      requires profiles.Some?
      ensures content == ActivationContent(item, path, files, profiles.value, script)
    {
      match item.kind
      case Script =>
        content := script;
      case Merge =>
        if item.merge == [] {
          return None;
        }
        var merged := MergeProfiles(item.merge, files, profiles.value);
        content := if merged.Ok? then Some(merged.value) else None;
      case Plain =>
        content := if path in files then Some(files[path]) else None;
    }

    /** Make `profile` the active config and store the number of its rules; fails when it is no YAML. */
    method SwitchTo(profile: Document) returns (ok: bool)
      modifies settings, config
      ensures ok <==> !profile.Unparsable?
      ensures View() == if !ok then old(View())
                        else var s := old(View());
                             s.(settings := s.settings.(profileRulesCount := Some(|RuleEntries(profile)|)),
                                config := Some(SwitchConfig(s, profile)))
    {
      var stored := settings.Current();
      var count := config.ReplaceFromProfile(profile, stored.customRules.GetOr([]), PortsFrom(stored));
      if count.Err? {
        return false;
      }
      settings.UpdateProfileRulesCount(count.value);
      ok := true;
    }

    method Activate(uid: string, script: Option<Document>, restart: Restart) returns (o: Outcome)
      modifies this, settings, config
      ensures (View(), o) == old(Step(View(), Request.Activate(uid, script, restart)))
    {
      if profiles.None? {
        return Rejected(404);
      }
      var item := FindItem(profiles.value.items, uid);
      if item.None? {
        return Rejected(404);
      }
      var path := Resolve(files, uid, item.value.file);
      var content := ObtainContent(item.value, path, script);
      if content.None? {
        return Rejected(400);
      }
      if item.value.kind != Plain {
        files := files[path := content.value];
      }
      if !Activatable(content.value) {
        return Rejected(400);
      }
      profiles := Some(profiles.value.(current := Some(uid)));
      SwitchWithProviders(content.value);
      o := RestartProxy(restart);
    }

    /** Make a parsed profile the active config, with the stored providers defined in it. */
    method SwitchWithProviders(profile: Document)
      requires !profile.Unparsable?
      modifies settings, config
      ensures View() == var s := old(View());
                        s.(settings := s.settings.(profileRulesCount := Some(|RuleEntries(profile)|)),
                           config := Injected(Some(SwitchConfig(s, profile)), s.settings.ruleProviders))
    {
      var providers := settings.Current().ruleProviders;
      var switched := SwitchTo(profile);
      Inject(providers);
    }

    method UpdateProfile(uid: string, edit: Edit, download: Option<Document>, restart: Restart)
      returns (o: Outcome)
      modifies this, settings, config
      ensures (View(), o) == old(Step(View(), Request.UpdateProfile(uid, edit, download, restart)))
    {
      if profiles.None? {
        return Rejected(404);
      }
      if edit.url.Blank? {
        return Rejected(400);
      }
      var items := profiles.value.items;
      var item := FindItem(items, uid);
      if item.None? {
        return Rejected(404);
      }
      var isActive := profiles.value.current == Some(uid);
      var edited := Canonical(item.value);
      if !edit.cronValid {
        return Rejected(400);
      }
      if edit.url.Cleared? {
        return Rejected(400);
      }
      if edit.url.Given? && item.value.url != Some(edit.url.url) {
        if download.None? {
          return Rejected(400);
        }
        var path := Resolve(files, uid, edited.file);
        files := files[path := download.value];
        profiles := Some(profiles.value.(items := ReplaceItem(items, uid, item.value.(url := Some(edit.url.url)))));
        if isActive {
          var switched := SwitchTo(files[path]);
          if !switched {
            return Rejected(500);
          }
          var restarted := RestartProxy(restart);
          return restarted;
        }
      } else {
        profiles := Some(profiles.value.(items := ReplaceItem(items, uid, edited)));
      }
      o := Done;
    }

    /** The hot reload that follows a refresh leaves the stores alone; only when it fails there is a restart. */
    method RefreshProfile(uid: string, download: Option<Document>, restart: Restart) returns (o: Outcome)
      modifies this, settings, config
      ensures (View(), o) == old(Step(View(), Request.RefreshProfile(uid, download, restart)))
    {
      if profiles.None? {
        return Rejected(500);
      }
      var item := FindItem(profiles.value.items, uid);
      if item.None? {
        return Rejected(404);
      }
      if item.value.url.None? {
        return Rejected(400);
      }
      var path := Resolve(files, uid, item.value.file);
      if path !in files {
        return Rejected(404);
      }
      var isCurrent := profiles.value.current == Some(uid);
      var stored := settings.Current();
      if download.None? {
        return Rejected(400);
      }
      files := files[path := download.value];
      if isCurrent {
        var count := config.ReplaceFromProfile(files[path], stored.customRules.GetOr([]), PortsFrom(stored));
        Inject(stored.ruleProviders);
      }
      o := RestartProxy(restart);
    }

    // ----- Dispatch -----

    /** Serve one request. Whatever it is, the boundary invariant survives an admissible one. */
    method Serve(r: Request) returns (o: Outcome)
      modifies this, settings, config
      ensures (View(), o) == old(Step(View(), r))
      ensures old(Inv(View()) && Admissible(View(), r)) ==> Inv(View())
    {
      ghost var before := View();
      match r {
        case AddRule(rule, proxy, names) => o := this.AddRule(rule, proxy, names);
        case DeleteRule(source, index) => o := this.DeleteRule(source, index);
        case ClearRules(source) => o := this.ClearRules(source);
        case AddProvider(p) => o := this.AddProvider(p);
        case UpdateProvider(name, interval) => o := this.UpdateProvider(name, interval);
        case DeleteProvider(name) => o := this.DeleteProvider(name);
        case AddProfile(item, content) => o := this.AddProfile(item, content);
        case Activate(uid, script, restart) => o := this.Activate(uid, script, restart);
        case UpdateProfile(uid, edit, download, restart) => o := this.UpdateProfile(uid, edit, download, restart);
        case RefreshProfile(uid, download, restart) => o := this.RefreshProfile(uid, download, restart);
        case DeleteProfile(uid) => o := this.DeleteProfile(uid);
        case FetchProfiles(fetched) => o := this.FetchProfiles(fetched);
        case PutSettings(body) => o := this.PutSettings(body);
        case SetMode(mode, patched) => o := this.SetMode(mode, patched);
        case ApplyPorts(http, socks, host, port, restart) => o := this.ApplyPorts(http, socks, host, port, restart);
        case ApplyTun(enabled, section, port, restart) => o := this.ApplyTun(enabled, section, port, restart);
        case PutDns(dns) => o := this.PutDns(dns);
        case SetPassword(key, longEnough) => o := this.SetPassword(key, longEnough);
        case StartService(restart) => o := this.StartService(restart);
      }
      InvStep(before, r);
    }

    // ----- Settings and single config keys -----

    method PutSettings(body: SettingsData) returns (o: Outcome)
      modifies settings
      ensures (View(), o) == old(Step(View(), Request.PutSettings(body)))
    {
      settings.SaveSettings(FormSettings(settings.Current(), body));
      o := Done;
    }

    /** Change the mode; when the running proxy cannot be told, both files have changed already. */
    method SetMode(mode: string, patched: bool) returns (o: Outcome)
      modifies settings, config
      ensures (View(), o) == old(Step(View(), Request.SetMode(mode, patched)))
    {
      if mode !in ["rule", "global", "direct"] {
        return Rejected(400);
      }
      var written := WriteMode(mode);
      o := if written && patched then Done else Rejected(500);
    }

    method ApplyPorts(httpPort: nat, socksPort: nat, apiHost: string, apiPort: nat, restart: Restart)
      returns (o: Outcome)
      modifies settings, config
      ensures (View(), o) == old(Step(View(), Request.ApplyPorts(httpPort, socksPort, apiHost, apiPort, restart)))
    {
      if config.file.None? {
        return Rejected(500);
      }
      var doc := config.file.value;
      doc := doc.With(MixedPort, Num(httpPort));
      doc := doc.With(SocksPort, Num(socksPort));
      doc := doc.With(ExternalController, Str(Endpoint(apiHost, apiPort)));
      config.file := Some(doc);
      var stored := settings.Current();
      settings.SaveSettings(
        NetworkSettings(stored, Some(httpPort), Some(socksPort), stored.tunEnabled, None, None, apiPort));
      o := RestartProxy(restart);
    }

    /** Write a section of the config, or remove it when it is switched off. */
    method SetSection(k: Key, enabled: bool, section: Value)
      requires config.file.Some?
      modifies config
      ensures config.file == Some(if enabled then old(config.file).value.With(k, section)
                                  else old(config.file).value.Drop(k))
    {
      var doc := config.file.value;
      if enabled {
        doc := doc.With(k, section);
      } else {
        doc := doc.Drop(k);
      }
      config.file := Some(doc);
    }

    method ApplyTun(enabled: bool, section: Value, apiPort: nat, restart: Restart) returns (o: Outcome)
      modifies settings, config
      ensures (View(), o) == old(Step(View(), Request.ApplyTun(enabled, section, apiPort, restart)))
    {
      if config.file.None? {
        return Rejected(500);
      }
      SetSection(Tun, enabled, section);
      var stored := settings.Current();
      settings.SaveSettings(NetworkSettings(stored, stored.httpPort, stored.socksPort, Some(enabled),
                                            stored.mode, stored.autoTest, apiPort));
      o := RestartProxy(restart);
    }

    method PutDns(dns: DnsSettings) returns (o: Outcome)
      modifies settings, config
      ensures (View(), o) == old(Step(View(), Request.PutDns(dns)))
    {
      if config.file.None? {
        return Rejected(500);
      }
      SetSection(Dns, dns.enable, dns.section);
      settings.SaveSettings(UNSET.(dns := Some(dns)));
      o := Done;
    }

    /** Store the key derived from a new password; one that is too short is answered with an error in a 200 reply. */
    method SetPassword(key: string, longEnough: bool) returns (o: Outcome)
      modifies settings
      ensures (View(), o) == old(Step(View(), Request.SetPassword(key, longEnough)))
    {
      if !longEnough {
        return Rejected(200);
      }
      var next := settings.Current();
      if next.auth.None? {
        next := next.(auth := Some(AuthConfig(true, None)));
      }
      next := next.(auth := Some(next.auth.value.(password := Some(key))));
      settings.SaveSettings(next);
      o := Done;
    }
  }

  /** An update of the provider list changes the interval of the first provider of that name and nothing else. */
  lemma {:induction false} WithIntervalAt(providers: seq<RuleProvider>, name: string, interval: Option<nat>)
    ensures var i := FirstNamed(providers, name);
            && (i < |providers| ==> providers[i].name == name)
            && (forall j :: 0 <= j < i ==> providers[j].name != name)
            && WithInterval(providers, name, interval) ==
              if i == |providers| then None
              else if interval.None? then Some(providers)
              else Some(providers[i := providers[i].(interval := interval.value)])
  {
    if providers != [] {
      assert providers == [providers[0]] + providers[1..];
      if providers[0].name != name {
        WithIntervalAt(providers[1..], name, interval);
        var i := FirstNamed(providers, name);
        if i < |providers| && interval.Some? {
          var changed := providers[i].(interval := interval.value);
          assert providers[i := changed] == [providers[0]] + providers[1..][i - 1 := changed];
        }
      } else if interval.Some? {
        var changed := providers[0].(interval := interval.value);
        assert providers[0 := changed] == [changed] + providers[1..];
      }
    }
  }
}
