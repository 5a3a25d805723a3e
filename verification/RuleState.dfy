/**
  * The stores behind the rule list and the effect of each request on them.
  *
  * config.yaml holds one rule list, meant to be custom rules followed by the active profile's rules.
  * Where the one ends and the other starts is not stored there: it is recovered either from the
  * profile rule count in settings.yaml or by looking for the first rule that the profile file holds.
  */
module RuleState {
  import opened Prelude
  import opened Documents
  import opened Settings
  import opened ActiveConfig
  import opened Profiles

  datatype State = State(
    settings: SettingsData, config: Option<Document>, profiles: Option<ProfilesYaml>, files: Files)

  /** How a request ended: served, refused with an HTTP status, or aborted by a panic. */
  datatype Outcome = Done | Rejected(status: nat) | Panicked

  /** How a proxy (re)start at the end of a request turned out. */
  datatype Restart =
    | Started        // a new process runs
    | Unneeded       // the old process kept running, or there was nothing to restart
    | RestartFailed

  /** The URL field of an edit: left out, null, nothing but white space, or a text. */
  datatype UrlField = Absent | Cleared | Blank | Given(url: string)

  /** An edit of a profile; a cron text that is no positive number makes it invalid. */
  datatype Edit = Edit(url: UrlField, cronValid: bool)

  datatype Request =
    | AddRule(rule: string, proxy: string, proxyNames: seq<string>)
    | DeleteRule(source: string, index: nat)
    | ClearRules(source: string)
    | AddProvider(provider: RuleProvider)
    | UpdateProvider(name: string, interval: Option<nat>)
    | DeleteProvider(name: string)
    | AddProfile(item: ProfileItem, content: Option<Document>)
    | Activate(uid: string, script: Option<Document>, restart: Restart)
    | UpdateProfile(uid: string, edit: Edit, download: Option<Document>, restart: Restart)
    | RefreshProfile(uid: string, download: Option<Document>, restart: Restart)
    | DeleteProfile(uid: string)
    | FetchProfiles(fetched: Files)
    | PutSettings(body: SettingsData)
    | SetMode(mode: string, patched: bool)
    | ApplyPorts(httpPort: nat, socksPort: nat, apiHost: string, apiPort: nat, restart: Restart)
    | ApplyTun(enabled: bool, section: Value, apiPort: nat, restart: Restart)
    | PutDns(dns: DnsSettings)
    | SetPassword(key: string, longEnough: bool)
    | StartService(restart: Restart)

  /** The custom rules of settings.yaml; unset means none. */
  function CustomRules(s: SettingsData): seq<string> {
    s.customRules.GetOr([])
  }

  /** The text rules of config.yaml; a missing file has none. */
  function ConfigRules(config: Option<Document>): seq<string> {
    if config.Some? then RulesOf(config.value) else []
  }

  /** The file name under which the current profile is looked up. */
  function ActiveFile(profiles: Option<ProfilesYaml>): Option<string> {
    if profiles.None? || profiles.value.current.None? then None
    else
      match FindItem(profiles.value.items, profiles.value.current.value)
      case None => None
      case Some(item) => item.file
  }

  /** The rules of a profile file; empty when there is no such file. */
  function RulesAt(files: Files, file: Option<string>): seq<string> {
    if file.Some? && file.value in files then RulesOf(files[file.value]) else []
  }

  /** The rules of the current profile's file; empty when any step of the lookup fails. */
  function ActiveRules(profiles: Option<ProfilesYaml>, files: Files): seq<string> {
    RulesAt(files, ActiveFile(profiles))
  }

  /** Position of the first element of `all` that is one of `profileRules`; the length when there is none. */
  function FirstProfileRule(all: seq<string>, profileRules: seq<string>): (i: nat)
    ensures i <= |all|
    ensures forall j :: 0 <= j < i ==> all[j] !in profileRules
    ensures i < |all| ==> all[i] in profileRules
  {
    if all == [] || all[0] in profileRules then 0 else 1 + FirstProfileRule(all[1..], profileRules)
  }

  /** The number of leading custom rules as the handlers detect it: 0 when no profile rule is found. */
  function Boundary(all: seq<string>, profileRules: seq<string>): (count: nat)
    ensures count <= |all|
  {
    var i := FirstProfileRule(all, profileRules);
    if i == |all| then 0 else i
  }

  /** The rule that routes a provider's traffic to REJECT. */
  function ProviderRule(name: string): string {
    "RULE-SET," + name + ",REJECT"
  }

  /** The port overrides a profile switch takes from the settings. */
  function PortsFrom(s: SettingsData): PortOverrides {
    PortOverrides(s.mixedPort.Or(s.httpPort), s.socksPort, s.httpPort,
                  if s.apiHost.Some? && s.apiPort.Some? then Some((s.apiHost.value, s.apiPort.value)) else None)
  }

  /** Provider list without the named one. */
  function WithoutNamed(providers: seq<RuleProvider>, name: string): seq<RuleProvider> {
    if providers == [] then []
    else (if providers[0].name == name then [] else [providers[0]]) + WithoutNamed(providers[1..], name)
  }

  /** Position of the first provider of that name; the length when there is none. */
  function FirstNamed(providers: seq<RuleProvider>, name: string): (i: nat)
    ensures i <= |providers|
    ensures i < |providers| ==> providers[i].name == name
    ensures forall j :: 0 <= j < i ==> providers[j].name != name
  {
    if providers == [] || providers[0].name == name then 0 else 1 + FirstNamed(providers[1..], name)
  }

  /** Provider list with a new interval for the first one of that name; `None` when there is none. */
  function WithInterval(providers: seq<RuleProvider>, name: string, interval: Option<nat>): Option<seq<RuleProvider>> {
    if providers == [] then None
    else if providers[0].name == name then
      Some([if interval.Some? then providers[0].(interval := interval.value) else providers[0]] + providers[1..])
    else
      match WithInterval(providers[1..], name, interval)
      case None => None
      case Some(rest) => Some([providers[0]] + rest)
  }

  predicate ValidProvider(p: RuleProvider) {
    && p.name != ""
    && (p.kind == "http" || p.kind == "file")
    && (p.behavior == "domain" || p.behavior == "ipcidr" || p.behavior == "classical")
    && (p.kind == "http" ==> p.url.Some?)
  }

  /** A config that can be activated defines one of four keys. */
  predicate Activatable(doc: Document) {
    doc.Get(Proxies).Some? || doc.Get(MixedPort).Some? || doc.Get(ProxyProviders).Some? || doc.Get(ProxyGroups).Some?
  }

  /** The content an activation works with; `None` when it cannot be obtained. */
  function ActivationContent(
    item: ProfileItem, path: string, files: Files, profiles: ProfilesYaml, script: Option<Document>): Option<Document>
  {
    match item.kind
    case Script => script
    case Merge => if item.merge == [] then None else MergeResult(item.merge, files, profiles)
    case Plain => if path in files then Some(files[path]) else None
  }

  /** The file name made from a uid: its first eight characters. */
  function ShortName(uid: string): string {
    (if |uid| > 8 then uid[..8] else uid) + ".yaml"
  }

  /** The canonical file name that an edit of a profile stores: the short name for long uids. */
  function Canonical(item: ProfileItem): ProfileItem {
    if |item.uid| > 8 then item.(file := Some(ShortName(item.uid))) else item
  }

  /** `items` with the first item of that uid replaced. */
  function ReplaceItem(items: seq<ProfileItem>, uid: string, item: ProfileItem): seq<ProfileItem> {
    if items == [] then []
    else if items[0].uid == uid then [item] + items[1..]
    else [items[0]] + ReplaceItem(items[1..], uid, item)
  }

  /** The switch to `profile` shared by activation, profile edit and refresh. */
  function SwitchConfig(s: State, profile: Document): Document {
    Replaced(s.config, profile, CustomRules(s.settings), PortsFrom(s.settings))
  }

  /** Put the stored providers into the config, when there are any. */
  function Injected(config: Option<Document>, providers: Option<seq<RuleProvider>>): Option<Document> {
    if providers.Some? && providers.value != [] then Some(WithProviders(config, providers.value)) else config
  }

  /** `items` without every item of that uid. */
  function WithoutItem(items: seq<ProfileItem>, uid: string): seq<ProfileItem> {
    if items == [] then []
    else (if items[0].uid == uid then [] else [items[0]]) + WithoutItem(items[1..], uid)
  }

  // ----- The effect of each request on the stores, up to the restart of the proxy -----

  function AfterAddRule(s: State, rule: string, proxy: string, proxyNames: seq<string>): (State, Outcome) {
    if proxyNames != [] && proxy !in proxyNames then (s, Rejected(400))
    else
      var rules := CustomRules(s.settings) + [rule];
      (s.(settings := s.settings.(customRules := Some(rules)),
          config := Some(Merged(s.config, s.settings.profileRulesCount.GetOr(0), rules))), Done)
  }

  function AfterDeleteRule(s: State, source: string, index: nat): (State, Outcome) {
    if source == "profile" || s.config.None? then (s, Rejected(400))
    else
      var all := ConfigRules(s.config);
      var count := Boundary(all, ActiveRules(s.profiles, s.files));
      if count == 0 || index >= count then (s, Rejected(400))
      else
        var current := s.settings.customRules.GetOr(all[..count]);
        if index >= |current| then (s, Panicked)
        else
          var rules := RemoveAt(current, index);
          (s.(settings := s.settings.(customRules := StoredRules(rules)),
              config := Some(Merged(s.config, |all| - count, rules))), Done)
  }

  function AfterClearRules(s: State, source: string): (State, Outcome) {
    if source == "profile" then (s, Rejected(400))
    else
      var cleared := s.(settings := s.settings.(customRules := None));
      if s.config.None? then (cleared, Rejected(400))
      else
        var all := ConfigRules(s.config);
        var count := Boundary(all, ActiveRules(s.profiles, s.files));
        if count == 0 then (cleared, Done)
        else (cleared.(config := Some(Merged(s.config, |all| - count, []))), Done)
  }

  function AfterAddProvider(s: State, p: RuleProvider): (State, Outcome) {
    if !ValidProvider(p) then (s, Rejected(400))
    else
      var providers := WithoutNamed(s.settings.ruleProviders.GetOr([]), p.name) + [p];
      var rule := ProviderRule(p.name);
      var custom := CustomRules(s.settings);
      var settings := s.settings.(ruleProviders := Some(providers),
                                  customRules := if rule in custom then s.settings.customRules
                                                 else Some([rule] + custom));
      var listed := WithProviders(s.config, providers);
      match Prepended(Some(listed), rule)
      case Ok(doc) => (s.(settings := settings, config := Some(doc)), Done)
      case Err(_) => (s.(settings := settings, config := Some(listed)), Rejected(500))
  }

  function AfterUpdateProvider(s: State, name: string, interval: Option<nat>): (State, Outcome) {
    match WithInterval(s.settings.ruleProviders.GetOr([]), name, interval)
    case None => (s, Rejected(404))
    case Some(providers) =>
      (s.(settings := s.settings.(ruleProviders := Some(providers)),
          config := Some(WithProviders(s.config, providers))), Done)
  }

  function AfterDeleteProvider(s: State, name: string): (State, Outcome) {
    var before := s.settings.ruleProviders.GetOr([]);
    var providers := WithoutNamed(before, name);
    if |providers| == |before| then (s, Rejected(404))
    else
      var rule := ProviderRule(name);
      var custom := if s.settings.customRules.Some? then Some(Without(s.settings.customRules.value, rule)) else None;
      var settings := s.settings.(ruleProviders := Some(providers), customRules := custom);
      if s.config.None? then (s.(settings := settings), Rejected(500))
      else
        var pruned := WithoutProvider(s.config.value, name);
        match RemovedByContent(Some(pruned), rule)
        case Ok(doc) => (s.(settings := settings, config := Some(doc)), Done)
        case Err(_) => (s.(settings := settings, config := Some(pruned)), Done)
  }

  function AfterActivate(s: State, uid: string, script: Option<Document>): (State, Outcome) {
    if s.profiles.None? then (s, Rejected(404))
    else
      match FindItem(s.profiles.value.items, uid)
      case None => (s, Rejected(404))
      case Some(item) =>
        var path := Resolve(s.files, uid, item.file);
        match ActivationContent(item, path, s.files, s.profiles.value, script)
        case None => (s, Rejected(400))
        case Some(doc) =>
          var written := s.(files := if item.kind == Plain then s.files else s.files[path := doc]);
          if !Activatable(doc) then (written, Rejected(400))
          else
            (written.(profiles := Some(s.profiles.value.(current := Some(uid))),
                      settings := s.settings.(profileRulesCount := Some(|RuleEntries(doc)|)),
                      config := Injected(Some(SwitchConfig(s, doc)), s.settings.ruleProviders)), Done)
  }

  function AfterUpdateProfile(s: State, uid: string, edit: Edit, download: Option<Document>): (State, Outcome) {
    if s.profiles.None? then (s, Rejected(404))
    else if edit.url.Blank? then (s, Rejected(400))
    else
      match FindItem(s.profiles.value.items, uid)
      case None => (s, Rejected(404))
      case Some(item) =>
        var canonical := Canonical(item);
        if !edit.cronValid || edit.url.Cleared? then (s, Rejected(400))
        else if edit.url.Absent? || item.url == Some(edit.url.url) then
          (s.(profiles := Some(s.profiles.value.(items := ReplaceItem(s.profiles.value.items, uid, canonical)))), Done)
        else
          match download
          case None => (s, Rejected(400))
          case Some(doc) =>
            var path := Resolve(s.files, uid, canonical.file);
            var edited := item.(url := Some(edit.url.url));
            var moved := s.profiles.value.(items := ReplaceItem(s.profiles.value.items, uid, edited));
            var written := s.(files := s.files[path := doc], profiles := Some(moved));
            if s.profiles.value.current != Some(uid) then (written, Done)
            else if doc.Unparsable? then (written, Rejected(500))
            else (written.(settings := s.settings.(profileRulesCount := Some(|RuleEntries(doc)|)),
                           config := Some(SwitchConfig(s, doc))), Done)
  }

  function AfterRefreshProfile(s: State, uid: string, download: Option<Document>): (State, Outcome) {
    if s.profiles.None? then (s, Rejected(500))
    else
      match FindItem(s.profiles.value.items, uid)
      case None => (s, Rejected(404))
      case Some(item) =>
        if item.url.None? then (s, Rejected(400))
        else
          var path := Resolve(s.files, uid, item.file);
          if path !in s.files then (s, Rejected(404))
          else
            match download
            case None => (s, Rejected(400))
            case Some(doc) =>
              var written := s.(files := s.files[path := doc]);
              if s.profiles.value.current != Some(uid) then (written, Done)
              else
                var switched := if doc.Unparsable? then s.config else Some(SwitchConfig(s, doc));
                (written.(config := Injected(switched, s.settings.ruleProviders)), Done)
  }

  /** A new profile: remote ones need a URL and a download; the others may come without content. */
  function AfterAddProfile(s: State, item: ProfileItem, content: Option<Document>): (State, Outcome) {
    if item.remote && (item.url.None? || item.url == Some("") || content.None?) then (s, Rejected(400))
    else
      var stored := item.(file := Some(ShortName(item.uid)));
      var before := if s.profiles.Some? then s.profiles.value else ProfilesYaml(None, []);
      (s.(profiles := Some(before.(items := before.items + [stored])),
          files := if content.Some? then s.files[ShortName(item.uid) := content.value] else s.files), Done)
  }

  function AfterDeleteProfile(s: State, uid: string): (State, Outcome) {
    if s.profiles.None? then (s, Rejected(404))
    else
      match FindItem(s.profiles.value.items, uid)
      case None => (s, Rejected(404))
      case Some(item) =>
        var current := if s.profiles.value.current == Some(uid) then None else s.profiles.value.current;
        (s.(profiles := Some(ProfilesYaml(current, WithoutItem(s.profiles.value.items, uid))),
            files := s.files - {Resolve(s.files, uid, item.file)}), Done)
  }

  /** The record that a settings form submits: rule, provider, DNS and history fields are carried over. */
  function FormSettings(current: SettingsData, body: SettingsData): SettingsData {
    body.(customRules := current.customRules, profileRulesCount := current.profileRulesCount,
          autoUpdateOnStartup := current.autoUpdateOnStartup, ruleProviders := current.ruleProviders,
          dns := current.dns, connectionHistory := current.connectionHistory,
          closedConnections := current.closedConnections, https := None, auth := None)
  }

  /** The record that the port and TUN forms submit. */
  function NetworkSettings(
    current: SettingsData, httpPort: Option<nat>, socksPort: Option<nat>, tun: Option<bool>, mode: Option<string>,
    autoTest: Option<AutoTest>, apiPort: nat): SettingsData
  {
    UNSET.(apiHost := Some("127.0.0.1"), apiPort := Some(apiPort), httpPort := httpPort, socksPort := socksPort,
           mixedPort := current.mixedPort, servicePort := Some(8080), tunEnabled := tun, mode := mode,
           latencyTestMode := current.latencyTestMode, autoTest := autoTest, customRules := current.customRules,
           profileRulesCount := current.profileRulesCount, autoUpdateOnStartup := current.autoUpdateOnStartup,
           ruleProviders := current.ruleProviders, dns := current.dns, connectionHistory := current.connectionHistory,
           closedConnections := current.closedConnections)
  }

  /** A mode change; the stores are written before the running proxy is told, which can fail. */
  function AfterSetMode(s: State, mode: string, patched: bool): (State, Outcome) {
    if mode !in ["rule", "global", "direct"] then (s, Rejected(400))
    else if s.config.None? then (s, Rejected(500))
    else (s.(config := Some(s.config.value.With(Mode, Str(mode))),
             settings := Overlay(s.settings, s.settings.(mode := Some(mode)))), if patched then Done else Rejected(500))
  }

  function AfterApplyPorts(s: State, httpPort: nat, socksPort: nat, apiHost: string, apiPort: nat): (State, Outcome) {
    if s.config.None? then (s, Rejected(500))
    else
      var doc := s.config.value.With(MixedPort, Num(httpPort)).With(SocksPort, Num(socksPort))
                 .With(ExternalController, Str(Endpoint(apiHost, apiPort)));
      (s.(config := Some(doc),
          settings := Overlay(s.settings, NetworkSettings(s.settings, Some(httpPort), Some(socksPort),
                                                          s.settings.tunEnabled, None, None, apiPort))), Done)
  }

  function AfterApplyTun(s: State, enabled: bool, section: Value, apiPort: nat): (State, Outcome) {
    if s.config.None? then (s, Rejected(500))
    else
      var doc := if enabled then s.config.value.With(Tun, section) else s.config.value.Drop(Tun);
      (s.(config := Some(doc),
          settings := Overlay(s.settings, NetworkSettings(s.settings, s.settings.httpPort, s.settings.socksPort,
                                                          Some(enabled), s.settings.mode, s.settings.autoTest,
                                                          apiPort))), Done)
  }

  function AfterPutDns(s: State, dns: DnsSettings): (State, Outcome) {
    if s.config.None? then (s, Rejected(500))
    else
      var doc := if dns.enable then s.config.value.With(Dns, dns.section) else s.config.value.Drop(Dns);
      (s.(config := Some(doc), settings := Overlay(s.settings, UNSET.(dns := Some(dns)))), Done)
  }

  /** A new login key. Setting one up switches authentication on; a switch that is stored already stays. */
  function AfterSetPassword(s: State, key: string, longEnough: bool): (State, Outcome) {
    if !longEnough then (s, Rejected(200))
    else
      var auth := s.settings.auth.GetOr(AuthConfig(true, None));
      (s.(settings := Overlay(s.settings, s.settings.(auth := Some(auth.(password := Some(key)))))), Done)
  }

  // ----- Restarts -----

  /** A new process takes the mode of settings.yaml: it is written into the config again. */
  function ModeRestored(s: State): State {
    if s.config.Some? && s.settings.mode.Some? then
      s.(config := Some(s.config.value.With(Mode, Str(s.settings.mode.value))))
    else s
  }

  /** The stores and the reply after the restart that ends a request. */
  function Restarted(s: State, restart: Restart): (State, Outcome) {
    match restart
    case Started => (ModeRestored(s), Done)
    case Unneeded => (s, Done)
    case RestartFailed => (s, Rejected(500))
  }

  /** A request whose store part was served goes on to the restart. */
  function ThenRestart(served: (State, Outcome), restart: Restart): (State, Outcome) {
    if served.1 == Done then Restarted(served.0, restart) else served
  }

  /** An edit that replaces the content of the current profile, and with it the config. */
  predicate EditSwitches(s: State, uid: string, edit: Edit) {
    && s.profiles.Some? && s.profiles.value.current == Some(uid) && edit.cronValid && edit.url.Given?
    && FindItem(s.profiles.value.items, uid).Some?
    && FindItem(s.profiles.value.items, uid).value.url != Some(edit.url.url)
  }

  /** The stores after one request, and how it ended. */
  function Step(s: State, r: Request): (State, Outcome) {
    match r
    case AddRule(rule, proxy, names) => AfterAddRule(s, rule, proxy, names)
    case DeleteRule(source, index) => AfterDeleteRule(s, source, index)
    case ClearRules(source) => AfterClearRules(s, source)
    case AddProvider(p) => AfterAddProvider(s, p)
    case UpdateProvider(name, interval) => AfterUpdateProvider(s, name, interval)
    case DeleteProvider(name) => AfterDeleteProvider(s, name)
    case AddProfile(item, content) => AfterAddProfile(s, item, content)
    case Activate(uid, script, restart) => ThenRestart(AfterActivate(s, uid, script), restart)
    case UpdateProfile(uid, edit, download, restart) =>
      ThenRestart(AfterUpdateProfile(s, uid, edit, download), if EditSwitches(s, uid, edit) then restart else Unneeded)
    case RefreshProfile(uid, download, restart) => ThenRestart(AfterRefreshProfile(s, uid, download), restart)
    case DeleteProfile(uid) => AfterDeleteProfile(s, uid)
    case FetchProfiles(fetched) => (s.(files := s.files + fetched), Done)
    case PutSettings(body) => (s.(settings := Overlay(s.settings, FormSettings(s.settings, body))), Done)
    case SetMode(mode, patched) => AfterSetMode(s, mode, patched)
    case ApplyPorts(http, socks, host, port, restart) =>
      ThenRestart(AfterApplyPorts(s, http, socks, host, port), restart)
    case ApplyTun(enabled, section, port, restart) => ThenRestart(AfterApplyTun(s, enabled, section, port), restart)
    case PutDns(dns) => AfterPutDns(s, dns)
    case SetPassword(key, longEnough) => AfterSetPassword(s, key, longEnough)
    case StartService(restart) => Restarted(s, restart)
  }

  /** The stores after a sequence of requests. */
  function Run(s: State, requests: seq<Request>): State
    decreases |requests|
  {
    if requests == [] then s else Run(Step(s, requests[0]).0, requests[1..])
  }
}
