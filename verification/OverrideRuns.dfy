/** What requests do to single keys of the config, and which settings survive whole runs. */
module OverrideRuns {
  import opened Prelude
  import opened Documents
  import opened Settings
  import opened ActiveConfig
  import opened ConfigLaws
  import opened Profiles
  import opened RuleState
  import opened RuleInvariant

  /** A new process is given the mode of settings.yaml, which is written into the config with it. */
  function RestartKeys(restart: Restart): set<Key> {
    if restart == Started then {Mode} else {}
  }

  /** The keys a request may change, those apart that come with the content of another profile. */
  function Touched(r: Request): set<Key> {
    match r
    case AddRule(_, _, _) => {Rules}
    case DeleteRule(_, _) => {Rules}
    case ClearRules(_) => {Rules}
    case AddProvider(_) => {Rules, RuleProviders}
    case UpdateProvider(_, _) => {RuleProviders}
    case DeleteProvider(_) => {Rules, RuleProviders}
    case Activate(_, _, restart) => RestartKeys(restart)
    case UpdateProfile(_, _, _, restart) => RestartKeys(restart)
    case RefreshProfile(_, _, restart) => RestartKeys(restart)
    case SetMode(_, _) => {Mode}
    case ApplyPorts(_, _, _, _, restart) => {MixedPort, SocksPort, ExternalController} + RestartKeys(restart)
    case ApplyTun(_, _, _, restart) => {Tun} + RestartKeys(restart)
    case PutDns(_) => {Dns}
    case StartService(restart) => RestartKeys(restart)
    case _ => {}
  }

  predicate Switches(r: Request) {
    r.Activate? || r.UpdateProfile? || r.RefreshProfile?
  }

  // ----- Requests as a change of the stores and a restart -----

  /** The restart that a request comes with. */
  function RestartOf(s: State, r: Request): Restart {
    match r
    case Activate(_, _, restart) => restart
    case UpdateProfile(uid, edit, _, restart) => if EditSwitches(s, uid, edit) then restart else Unneeded
    case RefreshProfile(_, _, restart) => restart
    case ApplyPorts(_, _, _, _, restart) => restart
    case ApplyTun(_, _, _, restart) => restart
    case StartService(restart) => restart
    case _ => Unneeded
  }

  /** The stores and the reply before that restart. */
  function StorePart(s: State, r: Request): (State, Outcome) {
    match r
    case Activate(uid, script, _) => AfterActivate(s, uid, script)
    case UpdateProfile(uid, edit, download, _) => AfterUpdateProfile(s, uid, edit, download)
    case RefreshProfile(uid, download, _) => AfterRefreshProfile(s, uid, download)
    case ApplyPorts(http, socks, host, port, _) => AfterApplyPorts(s, http, socks, host, port)
    case ApplyTun(enabled, section, port, _) => AfterApplyTun(s, enabled, section, port)
    case StartService(_) => (s, Done)
    case _ => Step(s, r)
  }

  /** The request is served up to its restart, and the restart brings up a new process. */
  predicate StartsProcess(s: State, r: Request) {
    StorePart(s, r).1 == Done && RestartOf(s, r) == Started
  }

  /** Every request is its store part, with the stored mode written once more when a process starts. */
  lemma StepIsStorePart(s: State, r: Request)
    ensures Step(s, r).0 == if StartsProcess(s, r) then ModeRestored(StorePart(s, r).0) else StorePart(s, r).0
  {}

  lemma StepKey(s: State, r: Request, k: Key)
    requires k !in RestartKeys(RestartOf(s, r))
    ensures OldEntry(Step(s, r).0.config, k) == OldEntry(StorePart(s, r).0.config, k)
    ensures Step(s, r).0.config.Some? == StorePart(s, r).0.config.Some?
  {
    StepIsStorePart(s, r);
  }

  /** A request that does not switch profiles changes no key of the config but the few it is about. */
  lemma OtherKeysUnchanged(s: State, r: Request, k: Key)
    requires s.config.Some? && !Switches(r) && k !in Touched(r)
    ensures Step(s, r).0.config.Some? && Step(s, r).0.config.value.Get(k) == s.config.value.Get(k)
  {
    match r
    case AddRule(_, _, _) => RuleRequestKeys(s, r, k);
    case DeleteRule(_, _) => RuleRequestKeys(s, r, k);
    case ClearRules(_) => RuleRequestKeys(s, r, k);
    case AddProvider(p) => AddProviderKeys(s, p, k);
    case UpdateProvider(_, _) =>
    case DeleteProvider(name) => DeleteProviderKeys(s, name, k);
    case AddProfile(_, _) =>
    case DeleteProfile(_) =>
    case FetchProfiles(_) =>
    case SetPassword(_, _) =>
    case ApplyPorts(_, _, _, _, _) => RestartingRequestKeys(s, r, k); StepKey(s, r, k);
    case ApplyTun(_, _, _, _) => RestartingRequestKeys(s, r, k); StepKey(s, r, k);
    case StartService(_) => RestartingRequestKeys(s, r, k); StepKey(s, r, k);
    case _ => SettingRequestKeys(s, r, k);
  }

  lemma RuleRequestKeys(s: State, r: Request, k: Key)
    requires s.config.Some? && k != Rules && (r.AddRule? || r.DeleteRule? || r.ClearRules?)
    ensures Step(s, r).0.config.Some? && Step(s, r).0.config.value.Get(k) == s.config.value.Get(k)
  {}

  lemma AddProviderKeys(s: State, p: RuleProvider, k: Key)
    requires s.config.Some? && k != Rules && k != RuleProviders
    ensures AfterAddProvider(s, p).0.config.Some?
            && AfterAddProvider(s, p).0.config.value.Get(k) == s.config.value.Get(k)
  {}

  lemma DeleteProviderKeys(s: State, name: string, k: Key)
    requires s.config.Some? && k != Rules && k != RuleProviders
    ensures AfterDeleteProvider(s, name).0.config.Some?
    ensures AfterDeleteProvider(s, name).0.config.value.Get(k) == s.config.value.Get(k)
  {
    if AfterDeleteProvider(s, name).1 == Done {
      assert WithoutProvider(s.config.value, name).Get(k) == s.config.value.Get(k);
    }
  }

  lemma SettingRequestKeys(s: State, r: Request, k: Key)
    requires s.config.Some? && k !in Touched(r) && (r.PutSettings? || r.SetMode? || r.PutDns?)
    ensures StorePart(s, r).0.config.Some? && StorePart(s, r).0.config.value.Get(k) == s.config.value.Get(k)
  {
    match r
    case SetMode(mode, patched) => ModeKeys(s, mode, patched, k);
    case PutDns(dns) => DnsKeys(s, dns, k);
    case _ =>
  }

  lemma RestartingRequestKeys(s: State, r: Request, k: Key)
    requires s.config.Some? && k !in Touched(r) && (r.ApplyPorts? || r.ApplyTun? || r.StartService?)
    ensures StorePart(s, r).0.config.Some? && StorePart(s, r).0.config.value.Get(k) == s.config.value.Get(k)
  {
    match r
    case ApplyPorts(http, socks, host, port, _) => PortKeys(s, http, socks, host, port, k);
    case ApplyTun(enabled, section, port, _) => TunKeys(s, enabled, section, port, k);
    case _ =>
  }

  lemma ModeKeys(s: State, mode: string, patched: bool, k: Key)
    requires s.config.Some? && k != Mode
    ensures var t := AfterSetMode(s, mode, patched).0;
            t.config.Some? && t.config.value.Get(k) == s.config.value.Get(k)
  {}

  lemma TunKeys(s: State, enabled: bool, section: Value, port: nat, k: Key)
    requires s.config.Some? && k != Tun
    ensures var t := AfterApplyTun(s, enabled, section, port).0;
            t.config.Some? && t.config.value.Get(k) == s.config.value.Get(k)
  {}

  lemma DnsKeys(s: State, dns: DnsSettings, k: Key)
    requires s.config.Some? && k != Dns
    ensures var t := AfterPutDns(s, dns).0;
            t.config.Some? && t.config.value.Get(k) == s.config.value.Get(k)
  {}

  lemma PortKeys(s: State, http: nat, socks: nat, host: string, port: nat, k: Key)
    requires s.config.Some? && k != MixedPort && k != SocksPort && k != ExternalController
    ensures var t := AfterApplyPorts(s, http, socks, host, port).0;
            t.config.Some? && t.config.value.Get(k) == s.config.value.Get(k)
  {}

  /** Each key that a request writes on purpose holds the new value. */
  lemma WrittenKeys(s: State, r: Request)
    requires s.config.Some? && s.config.value.Mapping?
    ensures r.SetMode? && r.mode in ["rule", "global", "direct"] ==>
              Step(s, r).0.config.value.Get(Mode) == Some(Str(r.mode)) && Step(s, r).0.settings.mode == Some(r.mode)
    ensures r.ApplyTun? ==> Step(s, r).0.config.value.Get(Tun) == if r.enabled then Some(r.section) else None
    ensures r.PutDns? ==> Step(s, r).0.config.value.Get(Dns) == if r.dns.enable then Some(r.dns.section) else None
    ensures r.ApplyPorts? ==> var doc := Step(s, r).0.config.value;
                              && doc.Get(MixedPort) == Some(Num(r.httpPort))
                              && doc.Get(SocksPort) == Some(Num(r.socksPort))
                              && doc.Get(ExternalController) == Some(Str(Endpoint(r.apiHost, r.apiPort)))
  {
    match r
    case SetMode(mode, patched) => if mode in ["rule", "global", "direct"] { WrittenMode(s, mode, patched); }
    case ApplyPorts(http, socks, host, port, restart) => WrittenPorts(s, http, socks, host, port, restart);
    case ApplyTun(enabled, section, port, restart) => WrittenTun(s, enabled, section, port, restart);
    case PutDns(dns) => WrittenDns(s, dns);
    case _ =>
  }

  lemma WrittenMode(s: State, mode: string, patched: bool)
    requires s.config.Some? && s.config.value.Mapping? && mode in ["rule", "global", "direct"]
    ensures var t := AfterSetMode(s, mode, patched).0;
            t.config.Some? && t.config.value.Get(Mode) == Some(Str(mode)) && t.settings.mode == Some(mode)
  {}

  lemma WrittenTun(s: State, enabled: bool, section: Value, port: nat, restart: Restart)
    requires s.config.Some? && s.config.value.Mapping?
    ensures Step(s, ApplyTun(enabled, section, port, restart)).0.config.value.Get(Tun)
            == if enabled then Some(section) else None
  {
    StepKey(s, ApplyTun(enabled, section, port, restart), Tun);
  }

  lemma WrittenDns(s: State, dns: DnsSettings)
    requires s.config.Some? && s.config.value.Mapping?
    ensures AfterPutDns(s, dns).0.config.value.Get(Dns) == if dns.enable then Some(dns.section) else None
  {}

  lemma WrittenPorts(s: State, http: nat, socks: nat, host: string, port: nat, restart: Restart)
    requires s.config.Some? && s.config.value.Mapping?
    ensures var doc := Step(s, ApplyPorts(http, socks, host, port, restart)).0.config.value;
            && doc.Get(MixedPort) == Some(Num(http)) && doc.Get(SocksPort) == Some(Num(socks))
            && doc.Get(ExternalController) == Some(Str(Endpoint(host, port)))
  {
    StepKey(s, ApplyPorts(http, socks, host, port, restart), MixedPort);
    StepKey(s, ApplyPorts(http, socks, host, port, restart), SocksPort);
    StepKey(s, ApplyPorts(http, socks, host, port, restart), ExternalController);
  }

  /** Whatever a request does, it never leaves a config.yaml that is no YAML. */
  lemma ConfigStaysYaml(s: State, r: Request)
    requires s.config.Some? ==> !s.config.value.Unparsable?
    ensures Step(s, r).0.config.Some? ==> !Step(s, r).0.config.value.Unparsable?
  {
    StepIsStorePart(s, r);
    if Switches(r) {
      SwitchStaysYaml(s, r);
    } else if r.AddRule? || r.DeleteRule? || r.ClearRules? || r.AddProvider? || r.UpdateProvider? || r.DeleteProvider? {
      RuleRequestStaysYaml(s, r);
    }
  }

  lemma RuleRequestStaysYaml(s: State, r: Request)
    requires r.AddRule? || r.DeleteRule? || r.ClearRules? || r.AddProvider? || r.UpdateProvider? || r.DeleteProvider?
    requires s.config.Some? ==> !s.config.value.Unparsable?
    ensures Step(s, r).0.config.Some? ==> !Step(s, r).0.config.value.Unparsable?
  {
    match r
    case AddRule(rule, proxy, names) =>
    case DeleteRule(source, index) =>
    case ClearRules(source) =>
    case AddProvider(p) =>
    case UpdateProvider(name, interval) =>
    case DeleteProvider(name) =>
  }

  lemma SwitchStaysYaml(s: State, r: Request)
    requires Switches(r) && (s.config.Some? ==> !s.config.value.Unparsable?)
    ensures StorePart(s, r).0.config.Some? ==> !StorePart(s, r).0.config.value.Unparsable?
  {
    match r
    case Activate(uid, script, _) =>
    case UpdateProfile(uid, edit, download, _) =>
    case RefreshProfile(uid, download, _) =>
  }

  // ----- Sticky values -----

  /**
    * The request replaces the config by a document that is no mapping: a refresh or a new URL of the
    * current profile that brings, say, a line of plain text. Neither is checked for the shape of a config.
    */
  predicate BringsNoMapping(s: State, r: Request) {
    match r
    case RefreshProfile(uid, download, _) =>
      && s.profiles.Some? && s.profiles.value.current == Some(uid)
      && FindItem(s.profiles.value.items, uid).Some? && FindItem(s.profiles.value.items, uid).value.url.Some?
      && Resolve(s.files, uid, FindItem(s.profiles.value.items, uid).value.file) in s.files
      && download.Some? && download.value.Bare?
    case UpdateProfile(uid, edit, download, _) =>
      EditSwitches(s, uid, edit) && download.Some? && download.value.Bare?
    case _ => false
  }

  lemma SwitchedKeepsSticky(s: State, doc: Document, providers: Option<seq<RuleProvider>>, k: Key)
    requires IsSticky(k) && OldEntry(s.config, k).Some?
    ensures doc.Mapping? ==>
              && SwitchConfig(s, doc).Get(k) == OldEntry(s.config, k)
              && OldEntry(Injected(Some(SwitchConfig(s, doc)), providers), k) == OldEntry(s.config, k)
    ensures doc.Bare? ==>
              && SwitchConfig(s, doc).Bare?
              && Injected(Some(SwitchConfig(s, doc)), providers) == Some(SwitchConfig(s, doc))
    ensures OldEntry(Injected(s.config, providers), k) == OldEntry(s.config, k)
  {
    if doc.Mapping? {
      StickyStep(s.config, Switch(doc, CustomRules(s.settings), PortsFrom(s.settings)), k);
    }
  }

  lemma ActivateKeepsSticky(s: State, uid: string, script: Option<Document>, k: Key)
    requires IsSticky(k) && OldEntry(s.config, k).Some?
    ensures OldEntry(AfterActivate(s, uid, script).0.config, k) == OldEntry(s.config, k)
  {
    if AfterActivate(s, uid, script).1 == Done {
      var item := FindItem(s.profiles.value.items, uid).value;
      var path := Resolve(s.files, uid, item.file);
      var doc := ActivationContent(item, path, s.files, s.profiles.value, script).value;
      SwitchedKeepsSticky(s, doc, s.settings.ruleProviders, k);
    }
  }

  lemma UpdateKeepsStickyIff(s: State, uid: string, edit: Edit, download: Option<Document>, restart: Restart, k: Key)
    requires IsSticky(k) && OldEntry(s.config, k).Some?
    ensures var after := OldEntry(AfterUpdateProfile(s, uid, edit, download).0.config, k);
            if BringsNoMapping(s, UpdateProfile(uid, edit, download, restart)) then after.None?
            else after == OldEntry(s.config, k)
  {
    if download.Some? {
      SwitchedKeepsSticky(s, download.value, None, k);
    }
  }

  lemma RefreshKeepsStickyIff(s: State, uid: string, download: Option<Document>, restart: Restart, k: Key)
    requires IsSticky(k) && OldEntry(s.config, k).Some?
    ensures var after := OldEntry(AfterRefreshProfile(s, uid, download).0.config, k);
            if BringsNoMapping(s, RefreshProfile(uid, download, restart)) then after.None?
            else after == OldEntry(s.config, k)
  {
    if download.Some? {
      SwitchedKeepsSticky(s, download.value, s.settings.ruleProviders, k);
    }
  }

  /** Up to the restart a profile switch keeps every sticky value, the mode included, or wipes out them all. */
  lemma SwitchKeepsStickyIff(s: State, r: Request, k: Key)
    requires IsSticky(k) && OldEntry(s.config, k).Some? && Switches(r)
    ensures var after := OldEntry(StorePart(s, r).0.config, k);
            if BringsNoMapping(s, r) then after.None? else after == OldEntry(s.config, k)
  {
    match r
    case Activate(uid, script, _) => ActivateKeepsSticky(s, uid, script, k);
    case UpdateProfile(uid, edit, download, restart) => UpdateKeepsStickyIff(s, uid, edit, download, restart, k);
    case RefreshProfile(uid, download, restart) => RefreshKeepsStickyIff(s, uid, download, restart, k);
  }

  /**
    * A sticky value survives a request that is not about its own key, profile switches included, if and
    * only if the request does not bring a document that is no mapping. To start a process is about the mode.
    */
  lemma StickySurvives(s: State, r: Request, k: Key)
    requires IsSticky(k) && OldEntry(s.config, k).Some? && k !in Touched(r)
    ensures OldEntry(Step(s, r).0.config, k) == OldEntry(s.config, k) <==> !BringsNoMapping(s, r)
  {
    if Switches(r) {
      SwitchKeepsStickyIff(s, r, k);
      StepKey(s, r, k);
    } else {
      OtherKeysUnchanged(s, r, k);
    }
  }

  predicate LeavesAlone(requests: seq<Request>, k: Key) {
    forall r :: r in requests ==> k !in Touched(r)
  }

  /** No request of the run replaces the config by a document that is no mapping. */
  predicate BringsMappings(s: State, requests: seq<Request>)
    decreases |requests|
  {
    requests == [] || (!BringsNoMapping(s, requests[0]) && BringsMappings(Step(s, requests[0]).0, requests[1..]))
  }

  /** The value is in the config at every moment of the run. */
  ghost predicate Throughout(s: State, requests: seq<Request>, k: Key, v: Option<Value>)
    decreases |requests|
  {
    && OldEntry(s.config, k) == v
    && (requests != [] ==> Throughout(Step(s, requests[0]).0, requests[1..], k, v))
  }

  /** That is, after each of its prefixes. */
  lemma {:induction false} ThroughoutMeans(s: State, requests: seq<Request>, k: Key, v: Option<Value>, n: nat)
    requires Throughout(s, requests, k, v) && n <= |requests|
    ensures OldEntry(Run(s, requests[..n]).config, k) == v
    decreases |requests|
  {
    if n > 0 {
      ThroughoutMeans(Step(s, requests[0]).0, requests[1..], k, v, n - 1);
      assert requests[..n][1..] == requests[1..][..n - 1];
    }
  }

  /**
    * A log level, DNS or TUN value, once it is in the config, stays there throughout a run of requests that
    * do not write that key themselves, however often profiles are activated, edited and refreshed, if and
    * only if none of them brings a document that is no mapping.
    */
  lemma {:induction false} StickySurvivesRun(s: State, requests: seq<Request>, k: Key)
    requires IsSticky(k) && OldEntry(s.config, k).Some? && LeavesAlone(requests, k)
    ensures Throughout(s, requests, k, OldEntry(s.config, k)) <==> BringsMappings(s, requests)
    ensures BringsMappings(s, requests) ==> OldEntry(Run(s, requests).config, k) == OldEntry(s.config, k)
    decreases |requests|
  {
    if requests != [] {
      assert requests[0] in requests;
      StickySurvives(s, requests[0], k);
      if !BringsNoMapping(s, requests[0]) {
        assert forall r :: r in requests[1..] ==> r in requests;
        StickySurvivesRun(Step(s, requests[0]).0, requests[1..], k);
      }
    }
  }

  // ----- The mode -----

  /** Until its restart, a request that sets no mode leaves a mode of the config alone, or wipes it out. */
  lemma StorePartKeepsMode(s: State, r: Request)
    requires OldEntry(s.config, Mode).Some? && !r.SetMode?
    ensures var after := OldEntry(StorePart(s, r).0.config, Mode);
            if BringsNoMapping(s, r) then after.None? else after == OldEntry(s.config, Mode)
  {
    if Switches(r) {
      SwitchKeepsStickyIff(s, r, Mode);
    } else if RestartOf(s, r) == Started {
      assert r.ApplyPorts? || r.ApplyTun? || r.StartService?;
    } else {
      OtherKeysUnchanged(s, r, Mode);
      StepKey(s, r, Mode);
    }
  }

  /** No request but a mode change or the settings form changes the stored mode before its restart. */
  lemma StorePartKeepsStoredMode(s: State, r: Request)
    ensures !r.SetMode? && !r.PutSettings? ==> StorePart(s, r).0.settings.mode == s.settings.mode
    ensures r.PutSettings? ==> StorePart(s, r).0.settings.mode == r.body.mode.Or(s.settings.mode)
  {
    match r
    case Activate(uid, script, _) =>
    case UpdateProfile(uid, edit, download, _) =>
    case ApplyPorts(_, _, _, _, _) =>
    case ApplyTun(_, _, _, _) =>
    case PutSettings(body) =>
    case SetMode(_, _) =>
    case _ => PlainKeepsStoredMode(s, r);
  }

  lemma PlainKeepsStoredMode(s: State, r: Request)
    requires !Switches(r) || r.RefreshProfile?
    requires !r.ApplyPorts? && !r.ApplyTun? && !r.PutSettings? && !r.SetMode?
    ensures StorePart(s, r).0.settings.mode == s.settings.mode
  {
    match r
    case AddRule(rule, proxy, names) =>
    case DeleteRule(source, index) =>
    case ClearRules(source) =>
    case AddProvider(p) =>
    case UpdateProvider(name, interval) =>
    case DeleteProvider(name) =>
    case PutDns(dns) =>
    case _ =>
  }

  /** Starting a process puts the stored mode into the config, whatever the config said. */
  lemma StartRestoresMode(s: State, r: Request)
    requires StartsProcess(s, r) && s.settings.mode.Some?
    requires StorePart(s, r).0.config.Some? && StorePart(s, r).0.config.value.Mapping?
    ensures OldEntry(Step(s, r).0.config, Mode) == Some(Str(s.settings.mode.value))
    ensures Step(s, r).0.settings.mode == s.settings.mode
  {
    StepIsStorePart(s, r);
    StorePartKeepsStoredMode(s, r);
  }

  /** A request that wipes out the mode leaves a document in which no restart can put it back. */
  lemma WipedMode(s: State, r: Request)
    requires OldEntry(s.config, Mode).Some? && BringsNoMapping(s, r)
    ensures OldEntry(Step(s, r).0.config, Mode).None? && Step(s, r).0.settings.mode == s.settings.mode
  {
    SwitchKeepsStickyIff(s, r, Mode);
    StorePartKeepsStoredMode(s, r);
    StepIsStorePart(s, r);
    NoMappingStays(s, r);
  }

  lemma NoMappingStays(s: State, r: Request)
    requires BringsNoMapping(s, r)
    ensures StorePart(s, r).0.config.Some? && StorePart(s, r).0.config.value.Bare?
  {}

  /**
    * A mode in the config survives a request that sets none if and only if the request brings no document
    * without keys, and no process is started, or settings.yaml holds no mode, or the same one.
    */
  lemma ModeSurvivesIff(s: State, r: Request)
    requires OldEntry(s.config, Mode).Some? && !r.SetMode?
    ensures OldEntry(Step(s, r).0.config, Mode) == OldEntry(s.config, Mode)
       <==> && !BringsNoMapping(s, r)
            && (|| !StartsProcess(s, r) || s.settings.mode.None?
                || OldEntry(s.config, Mode) == Some(Str(s.settings.mode.value)))
  {
    if BringsNoMapping(s, r) {
      WipedMode(s, r);
    } else {
      StorePartKeepsMode(s, r);
      StepIsStorePart(s, r);
      if StartsProcess(s, r) && s.settings.mode.Some? {
        StartRestoresMode(s, r);
      } else {
        StorePartKeepsStoredMode(s, r);
      }
    }
  }

  /** Config and settings agree on this mode. */
  ghost predicate ModeSettled(s: State, mode: string) {
    OldEntry(s.config, Mode) == Some(Str(mode)) && s.settings.mode == Some(mode)
  }

  /** No request of the run sets another mode, be it by a mode change or through the settings form. */
  ghost predicate KeepsMode(requests: seq<Request>, mode: string) {
    forall r :: r in requests ==>
                  && (r.SetMode? ==> r.mode == mode)
                  && (r.PutSettings? ==> r.body.mode.None? || r.body.mode == Some(mode))
  }

  lemma ModeStep(s: State, r: Request, mode: string)
    requires ModeSettled(s, mode) && KeepsMode([r], mode)
    ensures ModeSettled(Step(s, r).0, mode) <==> !BringsNoMapping(s, r)
  {
    assert r in [r];
    if !r.SetMode? {
      ModeSurvivesIff(s, r);
      StepIsStorePart(s, r);
      StorePartKeepsStoredMode(s, r);
    }
  }

  /** Config and settings agree on the mode at every moment of the run. */
  ghost predicate SettledThroughout(s: State, requests: seq<Request>, mode: string)
    decreases |requests|
  {
    ModeSettled(s, mode) && (requests != [] ==> SettledThroughout(Step(s, requests[0]).0, requests[1..], mode))
  }

  lemma {:induction false} ModeStaysSettled(s: State, requests: seq<Request>, mode: string)
    requires ModeSettled(s, mode) && KeepsMode(requests, mode)
    ensures SettledThroughout(s, requests, mode) <==> BringsMappings(s, requests)
    ensures BringsMappings(s, requests) ==> ModeSettled(Run(s, requests), mode)
    decreases |requests|
  {
    if requests != [] {
      assert requests[0] in requests;
      ModeStep(s, requests[0], mode);
      if !BringsNoMapping(s, requests[0]) {
        assert forall r :: r in requests[1..] ==> r in requests;
        ModeStaysSettled(Step(s, requests[0]).0, requests[1..], mode);
      }
    }
  }

  /**
    * The mode a user sets stays in config and settings throughout every run in which neither another mode
    * change nor the settings form submits a different one, however often profiles switch and processes
    * start, and even when the running proxy could not be told, if and only if no refresh or new URL of the
    * run brings a document that is no mapping.
    */
  lemma SetModeSticks(s: State, mode: string, patched: bool, requests: seq<Request>)
    requires s.config.Some? && s.config.value.Mapping? && mode in ["rule", "global", "direct"]
    requires KeepsMode(requests, mode)
    ensures var t := Step(s, SetMode(mode, patched)).0;
            && (SettledThroughout(t, requests, mode) <==> BringsMappings(t, requests))
            && (BringsMappings(t, requests) ==> ModeSettled(Run(s, [SetMode(mode, patched)] + requests), mode))
  {
    RunTail(s, SetMode(mode, patched), requests);
    ModeStaysSettled(Step(s, SetMode(mode, patched)).0, requests, mode);
  }

  /**
    * A refresh of the current profile that returns plain text leaves a config without mode and rules,
    * while settings.yaml still holds the mode the user set before.
    */
  lemma PlainTextWipesMode(s: State, uid: string, mode: string, text: string, restart: Restart)
    requires s.config.Some? && s.config.value.Mapping? && mode in ["rule", "global", "direct"]
    requires BringsNoMapping(s, RefreshProfile(uid, Some(Bare(Str(text))), restart))
    ensures var t := Run(s, [SetMode(mode, true), RefreshProfile(uid, Some(Bare(Str(text))), restart)]);
            OldEntry(t.config, Mode).None? && ConfigRules(t.config) == [] && t.settings.mode == Some(mode)
  {
    var refresh := RefreshProfile(uid, Some(Bare(Str(text))), restart);
    var s1 := AfterSetMode(s, mode, true).0;
    RunTail(s, SetMode(mode, true), [refresh]);
    RunTail(s1, refresh, []);
    assert [SetMode(mode, true)] + [refresh] == [SetMode(mode, true), refresh] && [refresh] + [] == [refresh];
    WrittenMode(s, mode, true);
    WipedMode(s1, refresh);
    StepIsStorePart(s1, refresh);
    NoMappingStays(s1, refresh);
  }

  /**
    * A mode saved through the settings form lies dormant until the next process start, which then
    * overrides the mode change.
    */
  lemma FormOverridesMode(s: State, mode: string, body: SettingsData, section: Value, port: nat, restart: Restart)
    requires s.config.Some? && s.config.value.Mapping? && mode in ["rule", "global", "direct"] && body.mode.Some?
    ensures var requests := [SetMode(mode, true), PutSettings(body), ApplyTun(true, section, port, restart)];
            OldEntry(Run(s, requests).config, Mode) == Some(Str(if restart == Started then body.mode.value else mode))
  {
    var s1 := Step(s, SetMode(mode, true)).0;
    var s2 := Step(s1, PutSettings(body)).0;
    RunThree(s, SetMode(mode, true), PutSettings(body), ApplyTun(true, section, port, restart));
    WrittenMode(s, mode, true);
    FormStep(s1, body);
    TunStep(s2, section, port, restart);
  }

  lemma FormStep(s: State, body: SettingsData)
    requires body.mode.Some?
    ensures var t := Step(s, PutSettings(body)).0;
            t.config == s.config && t.settings.mode == body.mode
  {}

  lemma TunStep(s: State, section: Value, port: nat, restart: Restart)
    requires OldEntry(s.config, Mode).Some? && s.settings.mode.Some?
    ensures OldEntry(Step(s, ApplyTun(true, section, port, restart)).0.config, Mode)
         == if restart == Started then Some(Str(s.settings.mode.value)) else OldEntry(s.config, Mode)
  {
    var tun := ApplyTun(true, section, port, restart);
    ModeSurvivesIff(s, tun);
    if restart == Started {
      assert StorePart(s, tun) == AfterApplyTun(s, true, section, port);
      StartRestoresMode(s, tun);
    }
  }

  lemma RunThree(s: State, a: Request, b: Request, c: Request)
    ensures Run(s, [a, b, c]) == Step(Step(Step(s, a).0, b).0, c).0
  {
    RunTail(s, a, [b, c]);
    RunTail(Step(s, a).0, b, [c]);
    RunTail(Step(Step(s, a).0, b).0, c, []);
    assert [a] + [b, c] == [a, b, c] && [b] + [c] == [b, c] && [c] + [] == [c];
  }

  lemma RunTail(s: State, r: Request, rest: seq<Request>)
    ensures Run(s, [r] + rest) == Run(Step(s, r).0, rest)
  {
    assert ([r] + rest)[1..] == rest;
  }

  /**
    * The user chooses "rule", the form submits "global", and the TUN switch starts a process: the config
    * says "global".
    */
  lemma SampleFormOverridesMode(s: State, section: Value)
    requires s.config.Some? && s.config.value.Mapping?
    ensures var requests := [SetMode("rule", true), PutSettings(UNSET.(mode := Some("global"))),
                             ApplyTun(true, section, 9090, Started)];
            OldEntry(Run(s, requests).config, Mode) == Some(Str("global"))
  {
    FormOverridesMode(s, "rule", UNSET.(mode := Some("global")), section, 9090, Started);
  }

  /**
    * On a fresh installation a profile's own mode does not outlive the first start: the mode that was
    * written at startup replaces it.
    */
  lemma FirstStartDropsMode(uid: string, file: string, mode: string, rule: string, restart: Restart)
    ensures var doc := Mapping(map[Mode := Str(mode), Proxies := Seq([]), Rules := Seq(FromStrings([rule]))]);
            OldEntry(Step(Fresh(uid, file, doc), Activate(uid, None, restart)).0.config, Mode)
              == Some(Str(if restart == Started then "rule" else mode))
  {
    var doc := Mapping(map[Mode := Str(mode), Proxies := Seq([]), Rules := Seq(FromStrings([rule]))]);
    HasRulesReads(doc, [rule]);
    assert Activatable(doc) by {
      assert doc.Get(Proxies).Some?;
    }
    FirstActivation(uid, file, doc, restart);
  }

  // ----- The ports -----

  /** A port that the port form writes does not stick: the next activation takes the settings' or the profile's. */
  lemma PortsDoNotStick(s: State, uid: string, script: Option<Document>, k: Key)
    requires IsPort(k) && AfterActivate(s, uid, script).1 == Done
    ensures var item := FindItem(s.profiles.value.items, uid).value;
            var path := Resolve(s.files, uid, item.file);
            var t := AfterActivate(s, uid, script).0;
            t.config.value.Get(k) == PortValue(PortsFrom(s.settings), k).Or(t.files[path].Get(k))
  {
    var item := FindItem(s.profiles.value.items, uid).value;
    var path := Resolve(s.files, uid, item.file);
    var doc := ActivationContent(item, path, s.files, s.profiles.value, script).value;
    ReplacedGet(s.config, doc, CustomRules(s.settings), PortsFrom(s.settings), k);
  }

  /**
    * The ports after an activation: the mixed port falls back to the HTTP port, the controller address
    * needs both host and port, and the profile's own value remains where the settings say nothing.
    */
  lemma PortsAfterActivation(s: State, uid: string, script: Option<Document>)
    requires AfterActivate(s, uid, script).1 == Done
    ensures var doc := AfterActivate(s, uid, script).0.config.value;
            var stored := s.settings;
            && (stored.mixedPort.Some? ==> doc.Get(MixedPort) == Some(Num(stored.mixedPort.value)))
            && (stored.mixedPort.None? && stored.httpPort.Some? ==>
                  doc.Get(MixedPort) == Some(Num(stored.httpPort.value)))
            && (stored.httpPort.Some? ==> doc.Get(HttpPort) == Some(Num(stored.httpPort.value)))
            && (stored.socksPort.Some? ==> doc.Get(SocksPort) == Some(Num(stored.socksPort.value)))
            && (stored.apiHost.Some? && stored.apiPort.Some? ==>
                  doc.Get(ExternalController) == Some(Str(Endpoint(stored.apiHost.value, stored.apiPort.value))))
  {
    PortsDoNotStick(s, uid, script, MixedPort);
    PortsDoNotStick(s, uid, script, HttpPort);
    PortsDoNotStick(s, uid, script, SocksPort);
    PortsDoNotStick(s, uid, script, ExternalController);
  }
}
