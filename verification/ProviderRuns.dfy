/** Rule providers across the stores: what a config defines for each stored provider, over whole runs. */
module ProviderRuns {
  import opened Prelude
  import opened Documents
  import opened Settings
  import opened ActiveConfig
  import opened Profiles
  import opened RuleState
  import opened RuleLimits
  import opened OverrideRuns

  // ----- Reading a definition back -----

  /** A text field of a definition. */
  function TextField(fields: map<string, Value>, name: string): Option<string> {
    if name in fields && fields[name].Str? then Some(fields[name].s) else None
  }

  /** The provider that a definition in config.yaml describes. */
  function ProviderOf(v: Value): Option<RuleProvider> {
    match v
    case Dict(f) =>
      if TextField(f, "name").Some? && TextField(f, "type").Some? && TextField(f, "behavior").Some?
         && "interval" in f && f["interval"].Num? && f["interval"].n >= 0
         && "enabled" in f && f["enabled"].Bool? && "lazy" in f && f["lazy"].Bool?
      then Some(RuleProvider(TextField(f, "name").value, TextField(f, "type").value, TextField(f, "behavior").value,
                             TextField(f, "url"), TextField(f, "path"), f["interval"].n, f["enabled"].b, f["lazy"].b,
                             TextField(f, "filter")))
      else None
    case _ => None
  }

  /** Six different names find six values. */
  lemma SixEntries<K>(n: K, k: K, b: K, i: K, e: K, l: K, v: seq<Value>)
    requires |v| == 6
    requires n != k && n != b && n != i && n != e && n != l && k != b && k != i && k != e && k != l
    requires b != i && b != e && b != l && i != e && i != l && e != l
    ensures var m := map[n := v[0], k := v[1], b := v[2], i := v[3], e := v[4], l := v[5]];
            && n in m && k in m && b in m && i in m && e in m && l in m
            && m[n] == v[0] && m[k] == v[1] && m[b] == v[2] && m[i] == v[3] && m[e] == v[4] && m[l] == v[5]
            && forall x :: x in m ==> x == n || x == k || x == b || x == i || x == e || x == l
  {}

  /** An optional field is found under its name and hides no other. */
  lemma AddField(fields: map<string, Value>, name: string, value: Option<string>)
    requires name !in fields
    ensures TextField(fields + Field(name, value), name) == value
    ensures forall x :: x != name ==>
              && (x in fields + Field(name, value) <==> x in fields)
              && (x in fields ==> (fields + Field(name, value))[x] == fields[x])
  {}

  lemma DifferentStart(a: string, b: string)
    requires |a| > 0 && |b| > 0 && a[0] != b[0]
    ensures a != b
  {}

  /** The nine field names begin with nine different letters. */
  lemma NamesDiffer(names: seq<string>)
    requires |names| == 9 && forall j :: 0 <= j < 9 ==> |names[j]| > 0 && names[j][0] == "ntbielupf"[j]
    ensures forall j, k :: 0 <= j < k < 9 ==> names[j] != names[k]
  {
    forall j, k | 0 <= j < k < 9 ensures names[j] != names[k] {
      assert "ntbielupf"[j] != "ntbielupf"[k];
      DifferentStart(names[j], names[k]);
    }
  }

  lemma ReadsBack(names: seq<string>, v: seq<Value>, p: RuleProvider)
    requires |names| == 9 && |v| == 6 && forall j, k :: 0 <= j < k < 9 ==> names[j] != names[k]
    ensures var base := map[names[0] := v[0], names[1] := v[1], names[2] := v[2], names[3] := v[3], names[4] := v[4],
                            names[5] := v[5]];
            var fields := base + Field(names[6], p.url) + Field(names[7], p.path) + Field(names[8], p.filter);
            && (forall j :: 0 <= j < 6 ==> names[j] in fields && fields[names[j]] == v[j])
            && TextField(fields, names[6]) == p.url && TextField(fields, names[7]) == p.path
            && TextField(fields, names[8]) == p.filter
  {
    var base := map[names[0] := v[0], names[1] := v[1], names[2] := v[2], names[3] := v[3], names[4] := v[4],
                    names[5] := v[5]];
    SixEntries(names[0], names[1], names[2], names[3], names[4], names[5], v);
    AddField(base, names[6], p.url);
    AddField(base + Field(names[6], p.url), names[7], p.path);
    AddField(base + Field(names[6], p.url) + Field(names[7], p.path), names[8], p.filter);
  }

  /** What is written for a provider reads back as that provider. */
  lemma ProviderRoundTrip(p: RuleProvider)
    ensures ProviderOf(ProviderEntry(p)) == Some(p)
  {
    var names := ["name", "type", "behavior", "interval", "enabled", "lazy", "url", "path", "filter"];
    var v := [Str(p.name), Str(p.kind), Str(p.behavior), Num(p.interval), Bool(p.enabled), Bool(p.lazy)];
    NamesDiffer(names);
    ReadsBack(names, v, p);
    var f := ProviderEntry(p).fields;
    assert f[names[0]] == v[0] && f[names[1]] == v[1] && f[names[2]] == v[2];
    assert f[names[3]] == v[3] && f[names[4]] == v[4] && f[names[5]] == v[5];
  }

  /** The last provider of that name. */
  function LastNamed(providers: seq<RuleProvider>, name: string): Option<RuleProvider> {
    if providers == [] then None
    else if providers[|providers| - 1].name == name then Some(providers[|providers| - 1])
    else LastNamed(providers[..|providers| - 1], name)
  }

  /** The provider that the config defines under that name. */
  function Defined(config: Option<Document>, name: string): Option<RuleProvider> {
    match OldEntry(config, RuleProviders)
    case Some(Dict(fields)) => if name in fields then ProviderOf(fields[name]) else None
    case _ => None
  }

  /** A written section reads back, name by name, as the list it was written from. */
  lemma {:induction false} SectionReadsBack(providers: seq<RuleProvider>, name: string)
    ensures var section := ProviderSection(providers);
            LastNamed(providers, name) == if name in section then ProviderOf(section[name]) else None
    decreases |providers|
  {
    if providers != [] {
      var n := |providers| - 1;
      SectionReadsBack(providers[..n], name);
      ProviderRoundTrip(providers[n]);
    }
  }

  lemma WrittenReadsBack(config: Option<Document>, providers: seq<RuleProvider>, name: string)
    requires config.Some? && config.value.Mapping?
    ensures Defined(Some(WithProviders(config, providers)), name) == LastNamed(providers, name)
  {
    SectionReadsBack(providers, name);
  }

  lemma {:induction false} LastAfterRemoval(providers: seq<RuleProvider>, gone: string, name: string)
    ensures LastNamed(WithoutNamed(providers, gone), name) == if name == gone then None else LastNamed(providers, name)
    decreases |providers|
  {
    if providers != [] {
      var n := |providers| - 1;
      LastAfterRemoval(providers[..n], gone, name);
      RemovalLast(providers, gone);
      var kept := WithoutNamed(providers[..n], gone);
      if providers[n].name != gone {
        assert (kept + [providers[n]])[..|kept|] == kept;
      } else {
        assert kept + [] == kept;
      }
    }
  }

  lemma {:induction false} RemovalLast(providers: seq<RuleProvider>, gone: string)
    requires providers != []
    ensures var n := |providers| - 1;
            WithoutNamed(providers, gone)
              == WithoutNamed(providers[..n], gone) + if providers[n].name == gone then [] else [providers[n]]
    decreases |providers|
  {
    var n := |providers| - 1;
    if n > 0 {
      RemovalLast(providers[1..], gone);
      assert providers[1..][..n - 1] == providers[..n][1..];
    }
  }

  // ----- What single requests define -----

  /** The stored providers. */
  function Stored(s: State): seq<RuleProvider> {
    s.settings.ruleProviders.GetOr([])
  }

  /** The config is a mapping that defines every stored provider as it is stored. */
  ghost predicate StoredDefined(s: State) {
    && s.config.Some? && s.config.value.Mapping?
    && forall name :: LastNamed(Stored(s), name).Some? ==> Defined(s.config, name) == LastNamed(Stored(s), name)
  }

  /** A valid provider that is added is stored and defined exactly as given; the others stay as they were stored. */
  lemma AddedIsDefined(s: State, p: RuleProvider, name: string)
    requires ValidProvider(p) && s.config.Some? && s.config.value.Mapping?
    ensures var t := AfterAddProvider(s, p).0;
            && t.config.Some? && t.config.value.Mapping?
            && Defined(t.config, name) == LastNamed(Stored(t), name)
            && LastNamed(Stored(t), name) == if name == p.name then Some(p) else LastNamed(Stored(s), name)
  {
    var t := AfterAddProvider(s, p).0;
    var before := Stored(s);
    var kept := WithoutNamed(before, p.name);
    LastAfterRemoval(before, p.name, name);
    assert (kept + [p])[..|kept|] == kept;
    WrittenReadsBack(s.config, kept + [p], name);
    assert OldEntry(t.config, RuleProviders) == OldEntry(Some(WithProviders(s.config, kept + [p])), RuleProviders);
  }

  /** A new interval reaches the definition: afterwards every stored provider is defined as stored. */
  lemma UpdatedIsDefined(s: State, name: string, interval: Option<nat>, other: string)
    requires AfterUpdateProvider(s, name, interval).1 == Done && s.config.Some? && s.config.value.Mapping?
    ensures var t := AfterUpdateProvider(s, name, interval).0;
            && t.config.Some? && t.config.value.Mapping?
            && Defined(t.config, other) == LastNamed(Stored(t), other)
  {
    WrittenReadsBack(s.config, WithInterval(Stored(s), name, interval).value, other);
  }

  /** A deleted provider is neither stored nor defined; every other definition stays. */
  lemma DeletedIsUndefined(s: State, name: string, other: string)
    requires AfterDeleteProvider(s, name).1 == Done && s.config.Some? && s.config.value.Mapping?
    ensures var t := AfterDeleteProvider(s, name).0;
            && t.config.Some? && t.config.value.Mapping?
            && LastNamed(Stored(t), other) == (if other == name then None else LastNamed(Stored(s), other))
            && Defined(t.config, other) == (if other == name then None else Defined(s.config, other))
  {
    LastAfterRemoval(Stored(s), name, other);
    DeletedSection(s, name);
  }

  lemma DeletedSection(s: State, name: string)
    requires AfterDeleteProvider(s, name).1 == Done && s.config.Some? && s.config.value.Mapping?
    ensures var t := AfterDeleteProvider(s, name).0;
            && t.config.Some? && t.config.value.Mapping?
            && t.config.value.Get(RuleProviders) == WithoutProvider(s.config.value, name).Get(RuleProviders)
  {}

  /** An activation or refresh that switches to a mapping defines exactly the stored providers, if there are any. */
  lemma InjectedIsDefined(doc: Document, stored: Option<seq<RuleProvider>>, name: string)
    requires doc.Mapping? && stored.Some? && stored.value != []
    ensures var config := Injected(Some(doc), stored);
            config.Some? && config.value.Mapping? && Defined(config, name) == LastNamed(stored.value, name)
  {
    WrittenReadsBack(Some(doc), stored.value, name);
  }

  /** With no provider stored, or an empty list, the definitions after an activation are the profile's own. */
  lemma ActivationWithoutStored(s: State, uid: string, script: Option<Document>, name: string)
    requires AfterActivate(s, uid, script).1 == Done && Stored(s) == []
    ensures var t := AfterActivate(s, uid, script).0;
            var path := Resolve(s.files, uid, FindItem(s.profiles.value.items, uid).value.file);
            && path in t.files && Defined(t.config, name) == Defined(Some(t.files[path]), name)
            && (t.config.value.Get(RuleProviders).None? <==> t.files[path].Get(RuleProviders).None?)
  {
    var item := FindItem(s.profiles.value.items, uid).value;
    var path := Resolve(s.files, uid, item.file);
    var doc := ActivationContent(item, path, s.files, s.profiles.value, script).value;
    OwnDefinitions(s, doc, name);
  }

  lemma OwnDefinitions(s: State, doc: Document, name: string)
    requires doc.Mapping? && Stored(s) == []
    ensures var config := Injected(Some(SwitchConfig(s, doc)), s.settings.ruleProviders);
            && config.Some? && config.value.Get(RuleProviders) == doc.Get(RuleProviders)
            && Defined(config, name) == Defined(Some(doc), name)
  {
    ReplacedGet(s.config, doc, CustomRules(s.settings), PortsFrom(s.settings), RuleProviders);
  }

  // ----- Runs -----

  /** A new URL of the current profile whose download is a mapping: the one switch that forgets the stored providers. */
  predicate SwitchesBare(s: State, r: Request) {
    r.UpdateProfile? && EditSwitches(s, r.uid, r.edit) && r.download.Some? && r.download.value.Mapping?
  }

  /**
    * A served activation defines the stored providers, whatever the config was before.
    */
  lemma ActivationDefines(s: State, uid: string, script: Option<Document>)
    requires AfterActivate(s, uid, script).1 == Done
    ensures StoredDefined(AfterActivate(s, uid, script).0)
  {
    var item := FindItem(s.profiles.value.items, uid).value;
    var path := Resolve(s.files, uid, item.file);
    var doc := ActivationContent(item, path, s.files, s.profiles.value, script).value;
    if Stored(s) != [] {
      forall name ensures Defined(Injected(Some(SwitchConfig(s, doc)), s.settings.ruleProviders), name)
                       == LastNamed(Stored(s), name) {
        InjectedIsDefined(SwitchConfig(s, doc), s.settings.ruleProviders, name);
      }
      InjectedIsDefined(SwitchConfig(s, doc), s.settings.ruleProviders, "");
    }
  }

  lemma RefreshDefines(s: State, uid: string, download: Option<Document>, restart: Restart)
    requires StoredDefined(s) && !BringsNoMapping(s, RefreshProfile(uid, download, restart))
    ensures StoredDefined(AfterRefreshProfile(s, uid, download).0)
  {
    var t := AfterRefreshProfile(s, uid, download).0;
    if t.config != s.config && Stored(s) != [] {
      var doc := if download.value.Unparsable? then s.config.value else SwitchConfig(s, download.value);
      forall name ensures Defined(Injected(Some(doc), s.settings.ruleProviders), name) == LastNamed(Stored(s), name) {
        InjectedIsDefined(doc, s.settings.ruleProviders, name);
      }
      InjectedIsDefined(doc, s.settings.ruleProviders, "");
    }
  }

  /**
    * A new URL keeps the definitions if and only if the download is a mapping that defines the stored
    * providers alike.
    */
  lemma UrlEditDefinesIff(s: State, uid: string, edit: Edit, download: Document)
    requires StoredDefined(s) && EditSwitches(s, uid, edit) && !download.Unparsable?
    ensures StoredDefined(AfterUpdateProfile(s, uid, edit, Some(download)).0)
       <==> && download.Mapping?
            && forall name :: LastNamed(Stored(s), name).Some? ==>
                 Defined(Some(download), name) == LastNamed(Stored(s), name)
  {
    var t := AfterUpdateProfile(s, uid, edit, Some(download)).0;
    assert t.config == Some(SwitchConfig(s, download)) && Stored(t) == Stored(s);
    if download.Mapping? {
      ReplacedGet(s.config, download, CustomRules(s.settings), PortsFrom(s.settings), RuleProviders);
      assert forall name :: Defined(t.config, name) == Defined(Some(download), name);
    }
  }

  /** The requests that neither concern providers nor switch the config. */
  predicate LeavesProviders(r: Request) {
    !Switches(r) && !r.AddProvider? && !r.UpdateProvider? && !r.DeleteProvider?
  }

  lemma OthersKeepDefinitions(s: State, r: Request)
    requires StoredDefined(s) && LeavesProviders(r)
    ensures StoredDefined(Step(s, r).0)
  {
    OtherKeysUnchanged(s, r, RuleProviders);
    OthersKeepList(s, r);
    assert forall name :: Defined(Step(s, r).0.config, name) == Defined(s.config, name);
  }

  lemma OthersKeepList(s: State, r: Request)
    requires LeavesProviders(r) && s.config.Some? && s.config.value.Mapping?
    ensures Step(s, r).0.settings.ruleProviders == s.settings.ruleProviders
    ensures Step(s, r).0.config.Some? && Step(s, r).0.config.value.Mapping?
  {
    StepIsStorePart(s, r);
    match r
    case AddRule(rule, proxy, names) =>
    case DeleteRule(source, index) =>
    case ClearRules(source) =>
    case SetMode(mode, patched) =>
    case ApplyPorts(http, socks, host, port, restart) =>
    case ApplyTun(enabled, section, port, restart) =>
    case PutDns(dns) =>
    case _ =>
  }

  /**
    * No request but a new URL of the current profile, or plain text in its place, takes a stored provider's
    * definition out of the config or changes it.
    */
  lemma StepDefines(s: State, r: Request)
    requires StoredDefined(s) && !BringsNoMapping(s, r) && !SwitchesBare(s, r)
    ensures StoredDefined(Step(s, r).0)
  {
    match r
    case AddProvider(p) => AddStepDefines(s, p);
    case UpdateProvider(name, interval) => UpdateStepDefines(s, name, interval);
    case DeleteProvider(name) => DeleteStepDefines(s, name);
    case Activate(uid, script, restart) =>
      if AfterActivate(s, uid, script).1 == Done { ActivationDefines(s, uid, script); }
      RestartKeepsDefinitions(s, r);
    case RefreshProfile(uid, download, restart) =>
      RefreshDefines(s, uid, download, restart);
      RestartKeepsDefinitions(s, r);
    case UpdateProfile(uid, edit, download, restart) =>
      UpdateKeepsConfig(s, uid, edit, download, restart);
      RestartKeepsDefinitions(s, r);
    case _ => OthersKeepDefinitions(s, r);
  }

  /** The restart behind a request writes the mode only. */
  lemma RestartKeepsDefinitions(s: State, r: Request)
    requires Switches(r) && StoredDefined(StorePart(s, r).0)
    ensures StoredDefined(Step(s, r).0)
  {
    StepIsStorePart(s, r);
    StepKey(s, r, RuleProviders);
    assert forall name :: Defined(Step(s, r).0.config, name) == Defined(StorePart(s, r).0.config, name);
  }

  lemma UpdateKeepsConfig(s: State, uid: string, edit: Edit, download: Option<Document>, restart: Restart)
    requires var r := UpdateProfile(uid, edit, download, restart); !BringsNoMapping(s, r) && !SwitchesBare(s, r)
    ensures var t := AfterUpdateProfile(s, uid, edit, download).0;
            t.config == s.config && t.settings == s.settings
  {}

  lemma AddStepDefines(s: State, p: RuleProvider)
    requires StoredDefined(s)
    ensures StoredDefined(AfterAddProvider(s, p).0)
  {
    if ValidProvider(p) {
      var t := AfterAddProvider(s, p).0;
      forall name ensures Defined(t.config, name) == LastNamed(Stored(t), name) {
        AddedIsDefined(s, p, name);
      }
      AddedIsDefined(s, p, p.name);
    }
  }

  lemma UpdateStepDefines(s: State, name: string, interval: Option<nat>)
    requires StoredDefined(s)
    ensures StoredDefined(AfterUpdateProvider(s, name, interval).0)
  {
    var t := AfterUpdateProvider(s, name, interval).0;
    if AfterUpdateProvider(s, name, interval).1 == Done {
      forall other ensures Defined(t.config, other) == LastNamed(Stored(t), other) {
        UpdatedIsDefined(s, name, interval, other);
      }
      UpdatedIsDefined(s, name, interval, name);
    }
  }

  lemma DeleteStepDefines(s: State, name: string)
    requires StoredDefined(s)
    ensures StoredDefined(AfterDeleteProvider(s, name).0)
  {
    var t := AfterDeleteProvider(s, name).0;
    if AfterDeleteProvider(s, name).1 == Done {
      forall other
        ensures LastNamed(Stored(t), other).Some? ==> Defined(t.config, other) == LastNamed(Stored(t), other)
      {
        DeletedIsUndefined(s, name, other);
      }
      DeletedIsUndefined(s, name, name);
    }
  }

  /** No request of the run switches to a new URL's mapping. */
  predicate NeverSwitchesBare(s: State, requests: seq<Request>)
    decreases |requests|
  {
    requests == [] || (!SwitchesBare(s, requests[0]) && NeverSwitchesBare(Step(s, requests[0]).0, requests[1..]))
  }

  /**
    * Over every run whose refreshes bring mappings and that gives the current profile no new URL, the config
    * defines every stored provider exactly as it is stored, however often providers are added, changed and
    * deleted and profiles are switched.
    */
  lemma {:induction false} RunDefinesProviders(s: State, requests: seq<Request>)
    requires StoredDefined(s) && BringsMappings(s, requests) && NeverSwitchesBare(s, requests)
    ensures StoredDefined(Run(s, requests))
    decreases |requests|
  {
    if requests != [] {
      StepDefines(s, requests[0]);
      RunDefinesProviders(Step(s, requests[0]).0, requests[1..]);
    }
  }
}
