/** How requests are answered, what they store, and what they leave alone. */
module RequestLaws {
  import opened Prelude
  import opened Documents
  import opened Settings
  import opened ActiveConfig
  import opened ConfigLaws
  import opened Profiles
  import opened RuleState
  import opened RuleInvariant
  import opened RuleLimits
  import opened OverrideRuns

  // ----- Rule requests -----

  /** A rule is refused exactly for an unknown proxy among known ones; otherwise it is stored last. */
  lemma AddRuleAnswer(s: State, rule: string, proxy: string, names: seq<string>)
    ensures var (t, o) := AfterAddRule(s, rule, proxy, names);
            && (o == Done <==> names == [] || exists i :: 0 <= i < |names| && names[i] == proxy)
            && (o != Done ==> (t, o) == (s, Rejected(400)))
            && (o == Done ==> CustomRules(t.settings) == CustomRules(s.settings) + [rule])
  {}

  /** Without a config the first rule creates one in mode "rule" that holds the custom rules. */
  lemma FirstRuleCreatesConfig(s: State, rule: string)
    requires s.config.None?
    ensures var t := AfterAddRule(s, rule, "", []).0;
            && t.config.Some? && t.config.value.Get(Mode) == Some(Str("rule"))
            && ConfigRules(t.config) == CustomRules(s.settings) + [rule]
  {
    var rules := CustomRules(s.settings) + [rule];
    assert Suffix<string>([], s.settings.profileRulesCount.GetOr(0)) == [];
    assert rules + [] == rules;
    HasRulesReads(AfterAddRule(s, rule, "", []).0.config.value, rules);
  }

  /**
    * A deletion is refused without a config, for the profile's rules, and at or behind the first rule that
    * the profile file holds; it panics when the stored list is shorter than what is shown; otherwise one
    * rule goes, and the stored list is unset exactly when it was the only one.
    */
  lemma DeleteRuleAnswer(s: State, source: string, i: nat)
    ensures var (t, o) := AfterDeleteRule(s, source, i);
            var shown := FirstProfileRule(ConfigRules(s.config), ActiveRules(s.profiles, s.files));
            var refused := source == "profile" || s.config.None? || shown == |ConfigRules(s.config)| || i >= shown;
            && (refused ==> (t, o) == (s, Rejected(400)))
            && (!refused ==>
                  var current := s.settings.customRules.GetOr(ConfigRules(s.config)[..shown]);
                  && (i >= |current| ==> (t, o) == (s, Panicked))
                  && (i < |current| ==>
                        && o == Done && CustomRules(t.settings) == current[..i] + current[i + 1..]
                        && (t.settings.customRules.None? <==> |current| == 1)))
  {}

  /** Clearing forgets the stored rules whenever it is not about the profile's, config or not. */
  lemma ClearAnswer(s: State, source: string)
    ensures var (t, o) := AfterClearRules(s, source);
            && (source == "profile" ==> (t, o) == (s, Rejected(400)))
            && (source != "profile" ==>
                  t.settings.customRules.None? && (o == Done <==> s.config.Some?) && (o != Done ==> o == Rejected(400)))
            && (s.config.None? ==> t.config.None?)
  {}

  /** Nothing but the custom rules, the providers and the config differs. */
  predicate OnlyRuleStores(s: State, t: State) {
    && t.settings == s.settings.(customRules := t.settings.customRules, ruleProviders := t.settings.ruleProviders)
    && t.profiles == s.profiles && t.files == s.files
  }

  /** Rule requests keep every other setting, the providers, the profiles, and the profile files. */
  lemma RuleRequestFrame(s: State, rule: string, proxy: string, names: seq<string>, source: string, i: nat)
    ensures OnlyRuleStores(s, AfterAddRule(s, rule, proxy, names).0)
    ensures AfterAddRule(s, rule, proxy, names).0.settings.ruleProviders == s.settings.ruleProviders
    ensures OnlyRuleStores(s, AfterDeleteRule(s, source, i).0)
    ensures AfterDeleteRule(s, source, i).0.settings.ruleProviders == s.settings.ruleProviders
    ensures OnlyRuleStores(s, AfterClearRules(s, source).0)
    ensures AfterClearRules(s, source).0.settings.ruleProviders == s.settings.ruleProviders
  {}

  /** So do provider requests, except for the providers; a new interval leaves the custom rules alone too. */
  lemma ProviderRequestFrame(s: State, p: RuleProvider, name: string, interval: Option<nat>)
    ensures OnlyRuleStores(s, AfterAddProvider(s, p).0)
    ensures OnlyRuleStores(s, AfterUpdateProvider(s, name, interval).0)
    ensures AfterUpdateProvider(s, name, interval).0.settings.customRules == s.settings.customRules
    ensures OnlyRuleStores(s, AfterDeleteProvider(s, name).0)
  {}

  // ----- Provider requests -----

  /**
    * A provider needs a name, one of two types, one of three behaviors, and a URL for "http". One that is
    * stored can still fail, when the config has no list that its rule can go into.
    */
  lemma AddProviderAnswer(s: State, p: RuleProvider)
    ensures var (t, o) := AfterAddProvider(s, p);
            var invalid := || p.name == "" || p.kind !in ["http", "file"]
                           || p.behavior !in ["domain", "ipcidr", "classical"] || (p.kind == "http" && p.url.None?);
            && (invalid ==> (t, o) == (s, Rejected(400)))
            && (!invalid ==>
                  && p in t.settings.ruleProviders.GetOr([])
                  && (o == Done <==> (s.config.Some? && s.config.value.Mapping? && !NoRuleList(s.config.value)))
                  && (o != Done ==> o == Rejected(500)))
  {
    var providers := WithoutNamed(s.settings.ruleProviders.GetOr([]), p.name) + [p];
    assert providers[|providers| - 1] == p;
  }

  /** A change of the interval is refused for unknown names only. */
  lemma UpdateProviderAnswer(s: State, name: string, interval: Option<nat>)
    ensures var (t, o) := AfterUpdateProvider(s, name, interval);
            && (o == Done <==> exists i :: 0 <= i < |s.settings.ruleProviders.GetOr([])|
                                           && s.settings.ruleProviders.GetOr([])[i].name == name)
            && (o != Done ==> (t, o) == (s, Rejected(404)))
  {
    IntervalFound(s.settings.ruleProviders.GetOr([]), name, interval);
  }

  lemma {:induction false} IntervalFound(providers: seq<RuleProvider>, name: string, interval: Option<nat>)
    ensures WithInterval(providers, name, interval).Some?
       <==> exists i :: 0 <= i < |providers| && providers[i].name == name
  {
    if providers != [] {
      IntervalFound(providers[1..], name, interval);
      if providers[0].name != name {
        assert forall i :: 0 < i < |providers| ==> providers[i] == providers[1..][i - 1];
        if j :| 0 <= j < |providers[1..]| && providers[1..][j].name == name {
          assert providers[j + 1].name == name;
        }
      }
    }
  }

  // ----- Profile requests -----

  /** The content that an activation has to have, by kind: script output, a merge, or a file. */
  predicate ContentAvailable(s: State, item: ProfileItem, script: Option<Document>)
    requires s.profiles.Some?
  {
    match item.kind
    case Script => script.Some?
    case Merge =>
      && item.merge != []
      && forall i :: 0 <= i < |item.merge| ==> Load(item.merge[i], s.files, s.profiles.value).Ok?
    case Plain => Resolve(s.files, item.uid, item.file) in s.files
  }

  /**
    * An activation is refused for unlisted profiles, without content, and for content that defines neither
    * proxies nor groups, providers or a mixed port. Otherwise the profile is current, and the stored count
    * is the number of its rule entries.
    */
  lemma ActivateAnswer(s: State, uid: string, script: Option<Document>)
    ensures var (t, o) := AfterActivate(s, uid, script);
            var item := if s.profiles.Some? then FindItem(s.profiles.value.items, uid) else None;
            && (item.None? ==> (t, o) == (s, Rejected(404)))
            && (item.Some? && !ContentAvailable(s, item.value, script) ==> (t, o) == (s, Rejected(400)))
            && (item.Some? && ContentAvailable(s, item.value, script) ==>
                  var path := Resolve(s.files, uid, item.value.file);
                  && path in t.files
                  && (forall f :: f in s.files && f != path ==> f in t.files && t.files[f] == s.files[f])
                  && (o == Done <==> exists k :: k in {Proxies, MixedPort, ProxyProviders, ProxyGroups}
                                                 && t.files[path].Get(k).Some?)
                  && (o != Done ==> o == Rejected(400) && t == s.(files := t.files))
                  && (o == Done ==>
                        && t.profiles == Some(ProfilesYaml(Some(uid), s.profiles.value.items))
                        && t.settings == s.settings.(profileRulesCount := Some(|RuleEntries(t.files[path])|))))
  {
    if s.profiles.Some? && FindItem(s.profiles.value.items, uid).Some? {
      var item := FindItem(s.profiles.value.items, uid).value;
      FindItemUid(s.profiles.value.items, uid);
      AvailableIff(s, item, script);
      if ContentAvailable(s, item, script) {
        var path := Resolve(s.files, uid, item.file);
        ActivatableIff(ActivationContent(item, path, s.files, s.profiles.value, script).value);
      }
    }
  }

  lemma AvailableIff(s: State, item: ProfileItem, script: Option<Document>)
    requires s.profiles.Some?
    ensures var path := Resolve(s.files, item.uid, item.file);
            (ActivationContent(item, path, s.files, s.profiles.value, script).Some?
             <==> ContentAvailable(s, item, script))
  {}

  lemma ActivatableIff(doc: Document)
    ensures Activatable(doc)
       <==> exists k :: k in {Proxies, MixedPort, ProxyProviders, ProxyGroups} && doc.Get(k).Some?
  {
    assert Proxies in {Proxies, MixedPort, ProxyProviders, ProxyGroups};
    assert MixedPort in {Proxies, MixedPort, ProxyProviders, ProxyGroups};
    assert ProxyProviders in {Proxies, MixedPort, ProxyProviders, ProxyGroups};
    assert ProxyGroups in {Proxies, MixedPort, ProxyProviders, ProxyGroups};
  }

  /** The item that a list of profiles holds under a uid. */
  function ItemOf(s: State, uid: string): Option<ProfileItem> {
    if s.profiles.Some? then FindItem(s.profiles.value.items, uid) else None
  }

  /**
    * An edit is refused for a blank URL, an unlisted profile, an invalid cron text and a null URL, and when a
    * new URL brings nothing. An accepted one stores the URL, or the short file name of a long uid, in that
    * profile alone.
    */
  lemma UpdateAnswer(s: State, uid: string, edit: Edit, download: Option<Document>)
    ensures var (t, o) := AfterUpdateProfile(s, uid, edit, download);
            var item := ItemOf(s, uid);
            && (s.profiles.None? ==> (t, o) == (s, Rejected(404)))
            && (s.profiles.Some? && edit.url.Blank? ==> (t, o) == (s, Rejected(400)))
            && (s.profiles.Some? && !edit.url.Blank? && item.None? ==> (t, o) == (s, Rejected(404)))
            && (item.Some? && (!edit.cronValid || edit.url.Cleared?) ==> (t, o) == (s, Rejected(400)))
            && (item.Some? && edit.cronValid && edit.url.Given? && item.value.url != Some(edit.url.url)
                  && download.None? ==>
                  (t, o) == (s, Rejected(400)))
  {}

  lemma UpdateStoresItem(s: State, uid: string, edit: Edit, download: Option<Document>, other: string)
    requires ItemOf(s, uid).Some? && edit.cronValid && (edit.url.Given? || edit.url.Absent?) && download.Some?
    ensures var (t, o) := AfterUpdateProfile(s, uid, edit, download);
            var item := ItemOf(s, uid).value;
            var newUrl := edit.url.Given? && item.url != Some(edit.url.url);
            && (other != uid ==> ItemOf(t, other) == ItemOf(s, other))
            && t.profiles.value.current == s.profiles.value.current
            && (newUrl ==> ItemOf(t, uid) == Some(item.(url := Some(edit.url.url))))
            && (!newUrl ==>
                  && o == Done && t.files == s.files && t.config == s.config && t.settings == s.settings
                  && ItemOf(t, uid) == Some(if |uid| > 8 then item.(file := Some(uid[..8] + ".yaml")) else item))
  {
    var items := s.profiles.value.items;
    var item := FindItem(items, uid).value;
    FindItemUid(items, uid);
    if edit.url.Given? {
      FindReplaced(items, uid, item.(url := Some(edit.url.url)), other);
      FindReplaced(items, uid, item.(url := Some(edit.url.url)), uid);
    }
    FindReplaced(items, uid, Canonical(item), other);
    FindReplaced(items, uid, Canonical(item), uid);
  }

  /** A new URL writes its download to one file; the config switches for the current profile only. */
  lemma UpdateWritesFile(s: State, uid: string, edit: Edit, download: Document)
    requires ItemOf(s, uid).Some? && edit.cronValid && edit.url.Given? && ItemOf(s, uid).value.url != Some(edit.url.url)
    ensures var (t, o) := AfterUpdateProfile(s, uid, edit, Some(download));
            var path := Resolve(s.files, uid, if |uid| > 8 then Some(uid[..8] + ".yaml")
                                                 else ItemOf(s, uid).value.file);
            && t.files == s.files[path := download]
            && (s.profiles.value.current != Some(uid) ==> o == Done && t.config == s.config && t.settings == s.settings)
            && (s.profiles.value.current == Some(uid) && download.Unparsable? ==>
                  o == Rejected(500) && t.config == s.config && t.settings == s.settings)
            && (s.profiles.value.current == Some(uid) && !download.Unparsable? ==>
                  o == Done && t.settings == s.settings.(profileRulesCount := Some(|RuleEntries(download)|)))
  {
    FindItemUid(s.profiles.value.items, uid);
  }

  /** A refresh needs a list of profiles, the profile, its URL, its file, and a download, and fails in that order. */
  lemma RefreshAnswer(s: State, uid: string, download: Option<Document>)
    ensures var (t, o) := AfterRefreshProfile(s, uid, download);
            var item := ItemOf(s, uid);
            && (s.profiles.None? ==> (t, o) == (s, Rejected(500)))
            && (s.profiles.Some? && item.None? ==> (t, o) == (s, Rejected(404)))
            && (item.Some? && item.value.url.None? ==> (t, o) == (s, Rejected(400)))
            && (item.Some? && item.value.url.Some? ==>
                  var path := Resolve(s.files, uid, item.value.file);
                  && (path !in s.files ==> (t, o) == (s, Rejected(404)))
                  && (path in s.files && download.None? ==> (t, o) == (s, Rejected(400)))
                  && (path in s.files && download.Some? ==>
                        && o == Done && t.files == s.files[path := download.value]
                        && t.settings == s.settings && t.profiles == s.profiles
                        && (s.profiles.value.current != Some(uid) ==> t.config == s.config)))
  {}

  /**
    * A created profile is listed last, under the file name made of the first eight characters of its uid,
    * with its content in that file; a remote one needs a URL and a download.
    */
  lemma AddProfileAnswer(s: State, item: ProfileItem, content: Option<Document>)
    ensures var (t, o) := AfterAddProfile(s, item, content);
            var file := (if |item.uid| > 8 then item.uid[..8] else item.uid) + ".yaml";
            var before := s.profiles.GetOr(ProfilesYaml(None, []));
            && (o == Done <==> item.remote ==> content.Some? && item.url.Some? && item.url.value != "")
            && (o != Done ==> (t, o) == (s, Rejected(400)))
            && (o == Done ==>
                  && t.profiles == Some(ProfilesYaml(before.current, before.items + [item.(file := Some(file))]))
                  && (content.Some? ==> file in t.files && t.files[file] == content.value)
                  && (forall f :: f != file || content.None? ==>
                        (f in t.files <==> f in s.files) && (f in s.files ==> t.files[f] == s.files[f]))
                  && t.config == s.config && t.settings == s.settings)
  {}

  /** A deletion takes out the profile, the file it resolves to, and the marker if it was current; nothing else. */
  lemma DeleteProfileAnswer(s: State, uid: string, other: ProfileItem)
    ensures var (t, o) := AfterDeleteProfile(s, uid);
            && (o == Done <==> ItemOf(s, uid).Some?)
            && (o != Done ==> (t, o) == (s, Rejected(404)))
            && (o == Done ==>
                  && (other in t.profiles.value.items <==> other in s.profiles.value.items && other.uid != uid)
                  && (t.profiles.value.current == if s.profiles.value.current == Some(uid) then None
                                                  else s.profiles.value.current)
                  && t.files.Keys == s.files.Keys - {Resolve(s.files, uid, ItemOf(s, uid).value.file)}
                  && (forall f :: f in t.files ==> t.files[f] == s.files[f])
                  && t.config == s.config && t.settings == s.settings)
  {
    if s.profiles.Some? {
      Remaining(s.profiles.value.items, uid, other);
    }
  }

  lemma {:induction false} Remaining(items: seq<ProfileItem>, uid: string, other: ProfileItem)
    ensures other in WithoutItem(items, uid) <==> other in items && other.uid != uid
  {
    if items != [] {
      Remaining(items[1..], uid, other);
      assert other in items <==> other == items[0] || other in items[1..];
    }
  }

  // ----- Settings requests -----

  /** The fields that the settings form cannot change. */
  lemma FormKeeps(s: State, body: SettingsData)
    ensures var t := Step(s, PutSettings(body)).0;
            && t.settings.customRules == s.settings.customRules
            && t.settings.profileRulesCount == s.settings.profileRulesCount
            && t.settings.ruleProviders == s.settings.ruleProviders && t.settings.dns == s.settings.dns
            && t.settings.autoUpdateOnStartup == s.settings.autoUpdateOnStartup
            && t.settings.connectionHistory == s.settings.connectionHistory
            && t.settings.closedConnections == s.settings.closedConnections
            && t.settings.auth == s.settings.auth && t.settings.https == s.settings.https
            && t.settings.mixedPort == s.settings.mixedPort
            && t == s.(settings := t.settings) && Step(s, PutSettings(body)).1 == Done
  {}

  /** The fields that it sets: a submitted value is stored, one left out stays. */
  lemma FormSets(s: State, body: SettingsData)
    ensures var t := Step(s, PutSettings(body)).0.settings;
            && t.apiHost == (if body.apiHost.Some? then body.apiHost else s.settings.apiHost)
            && t.apiPort == (if body.apiPort.Some? then body.apiPort else s.settings.apiPort)
            && t.httpPort == (if body.httpPort.Some? then body.httpPort else s.settings.httpPort)
            && t.socksPort == (if body.socksPort.Some? then body.socksPort else s.settings.socksPort)
            && t.servicePort == (if body.servicePort.Some? then body.servicePort else s.settings.servicePort)
            && t.tunEnabled == (if body.tunEnabled.Some? then body.tunEnabled else s.settings.tunEnabled)
            && t.logLevel == (if body.logLevel.Some? then body.logLevel else s.settings.logLevel)
            && t.allowLan == (if body.allowLan.Some? then body.allowLan else s.settings.allowLan)
            && t.ipv6 == (if body.ipv6.Some? then body.ipv6 else s.settings.ipv6)
            && t.tcpConcurrent == (if body.tcpConcurrent.Some? then body.tcpConcurrent else s.settings.tcpConcurrent)
            && t.mode == (if body.mode.Some? then body.mode else s.settings.mode)
            && t.latencyTestMode
               == (if body.latencyTestMode.Some? then body.latencyTestMode else s.settings.latencyTestMode)
            && t.autoTest == (if body.autoTest.Some? then body.autoTest else s.settings.autoTest)
  {}

  /** The port form stores the ports under their own names, the local host and the service port, and nothing else. */
  lemma PortsStored(s: State, http: nat, socks: nat, host: string, port: nat)
    requires s.config.Some?
    ensures var (t, o) := AfterApplyPorts(s, http, socks, host, port);
            && o == Done
            && t.settings == s.settings.(httpPort := Some(http), socksPort := Some(socks), apiPort := Some(port),
                                         apiHost := Some("127.0.0.1"), servicePort := Some(8080))
            && t.profiles == s.profiles && t.files == s.files
  {}

  /** The TUN form stores the switch, the local host and the two service addresses, and nothing else. */
  lemma TunStored(s: State, enabled: bool, section: Value, port: nat)
    requires s.config.Some?
    ensures var (t, o) := AfterApplyTun(s, enabled, section, port);
            && o == Done
            && t.settings == s.settings.(tunEnabled := Some(enabled), apiPort := Some(port),
                                         apiHost := Some("127.0.0.1"), servicePort := Some(8080))
            && t.profiles == s.profiles && t.files == s.files
  {}

  /** DNS settings are stored as submitted, whether they are on or off. */
  lemma DnsStored(s: State, dns: DnsSettings)
    requires s.config.Some?
    ensures AfterPutDns(s, dns).1 == Done && AfterPutDns(s, dns).0.settings == s.settings.(dns := Some(dns))
    ensures AfterPutDns(s, dns).0.profiles == s.profiles && AfterPutDns(s, dns).0.files == s.files
  {}

  /** A mode change stores the mode and nothing else; only the three modes are accepted. */
  lemma ModeAnswer(s: State, mode: string, patched: bool)
    ensures var (t, o) := AfterSetMode(s, mode, patched);
            var known := mode == "rule" || mode == "global" || mode == "direct";
            && (!known ==> (t, o) == (s, Rejected(400)))
            && (known && s.config.None? ==> (t, o) == (s, Rejected(500)))
            && (known && s.config.Some? ==>
                  && t.settings == s.settings.(mode := Some(mode)) && t.profiles == s.profiles && t.files == s.files
                  && (o == Done <==> patched) && (o != Done ==> o == Rejected(500)))
  {}

  /** None of the network forms does anything without a config. */
  lemma NoConfigNoChange(
    s: State, http: nat, socks: nat, host: string, port: nat, enabled: bool, section: Value, dns: DnsSettings)
    requires s.config.None?
    ensures AfterApplyPorts(s, http, socks, host, port) == (s, Rejected(500))
    ensures AfterApplyTun(s, enabled, section, port) == (s, Rejected(500))
    ensures AfterPutDns(s, dns) == (s, Rejected(500))
  {}

  /** A password is stored when it is long enough; the first one switches authentication on. */
  lemma PasswordStored(s: State, key: string, longEnough: bool)
    ensures var (t, o) := AfterSetPassword(s, key, longEnough);
            && (!longEnough ==> (t, o) == (s, Rejected(200)))
            && (longEnough ==>
                  && o == Done && t.settings.auth.Some? && t.settings.auth.value.password == Some(key)
                  && (t.settings.auth.value.enabled <==> s.settings.auth.None? || s.settings.auth.value.enabled)
                  && t == s.(settings := s.settings.(auth := t.settings.auth)))
  {}

  /** A restart that fails turns a served request into an error and keeps what it has stored. */
  lemma FailedRestart(s: State, r: Request)
    requires RestartOf(s, r) == RestartFailed && StorePart(s, r).1 == Done
    ensures Step(s, r) == (StorePart(s, r).0, Rejected(500))
  {}

  /**
    * Ports from the form reach the config again at the next activation: the HTTP and SOCKS ports under their
    * names, the HTTP port as mixed port unless one is stored, and the controller on the local host.
    */
  lemma PortsSurviveActivation(
    s: State, http: nat, socks: nat, host: string, port: nat, uid: string, script: Option<Document>)
    requires s.config.Some? && AfterActivate(AfterApplyPorts(s, http, socks, host, port).0, uid, script).1 == Done
    ensures var doc := AfterActivate(AfterApplyPorts(s, http, socks, host, port).0, uid, script).0.config.value;
            && doc.Get(HttpPort) == Some(Num(http)) && doc.Get(SocksPort) == Some(Num(socks))
            && doc.Get(MixedPort) == Some(Num(if s.settings.mixedPort.Some? then s.settings.mixedPort.value else http))
            && doc.Get(ExternalController) == Some(Str("127.0.0.1:" + Decimal(port)))
  {
    PortFields(s, http, socks, host, port);
    StoredPortsReachConfig(AfterApplyPorts(s, http, socks, host, port).0, uid, script);
    LocalEndpoint(port);
  }

  lemma LocalEndpoint(port: nat)
    ensures Endpoint("127.0.0.1", port) == "127.0.0.1:" + Decimal(port)
  {}

  lemma PortFields(s: State, http: nat, socks: nat, host: string, port: nat)
    requires s.config.Some?
    ensures var t := AfterApplyPorts(s, http, socks, host, port).0.settings;
            && t.httpPort == Some(http) && t.socksPort == Some(socks) && t.mixedPort == s.settings.mixedPort
            && t.apiHost == Some("127.0.0.1") && t.apiPort == Some(port)
  {
    PortsStored(s, http, socks, host, port);
  }

  lemma StoredPortsReachConfig(s: State, uid: string, script: Option<Document>)
    requires AfterActivate(s, uid, script).1 == Done
    requires s.settings.httpPort.Some? && s.settings.socksPort.Some?
    requires s.settings.apiHost.Some? && s.settings.apiPort.Some?
    ensures var doc := AfterActivate(s, uid, script).0.config.value;
            && doc.Get(HttpPort) == Some(Num(s.settings.httpPort.value))
            && doc.Get(SocksPort) == Some(Num(s.settings.socksPort.value))
            && doc.Get(MixedPort) == Some(Num(s.settings.mixedPort.GetOr(s.settings.httpPort.value)))
            && doc.Get(ExternalController) == Some(Str(Endpoint(s.settings.apiHost.value, s.settings.apiPort.value)))
  {
    PortsAfterActivation(s, uid, script);
  }
}
