/** config.yaml: the store through which the service rewrites the active Mihomo config. */
module ActiveConfig {
  import opened Prelude
  import opened Documents
  import opened Settings

  /** Port settings that override the profile. */
  datatype PortOverrides = PortOverrides(
    mixedPort: Option<nat>, socksPort: Option<nat>, httpPort: Option<nat>,
    externalController: Option<(string, nat)>)

  // ----- What each operation leaves in the file -----

  /** The list that rules are inserted into: created when absent, `None` when the entry is no list. */
  function RulesArray(doc: Document): Option<seq<Value>> {
    match doc.Get(Rules)
    case Some(Seq(items)) => Some(items)
    case Some(_) => None
    case None => if doc.Mapping? then Some([]) else None
  }

  /** Custom rules in front of the last `n` existing rules. */
  function MergedRules(existing: seq<string>, n: nat, customRules: seq<string>): seq<string> {
    customRules + Suffix(existing, n)
  }

  /** The config after a merge. */
  function Merged(config: Option<Document>, n: nat, customRules: seq<string>): Document {
    var doc := config.GetOr(DEFAULT_CONFIG);
    doc.With(Rules, Seq(FromStrings(MergedRules(RulesOf(doc), n, customRules))))
  }

  /** The config after one rule went in front, or the reason why nothing was written. */
  function Prepended(config: Option<Document>, rule: string): Result<Document> {
    match config
    case None => Err("config.yaml not found")
    case Some(doc) =>
      match RulesArray(doc)
      case None => Err("rules is not an array")
      case Some(items) => Ok(doc.With(Rules, Seq([Str(rule)] + items)))
  }

  /** The config after rules were added at the end. */
  function Appended(doc: Document, rules: seq<string>): Result<Document> {
    match RulesArray(doc)
    case None => Err("rules is not an array")
    case Some(items) => Ok(doc.With(Rules, Seq(items + FromStrings(rules))))
  }

  /** `items` without the string entries equal to `rule`. */
  function Retained(items: seq<Value>, rule: string): seq<Value> {
    Without(items, Str(rule))
  }

  /** The config after every entry equal to `rule` was removed. */
  function RemovedByContent(config: Option<Document>, rule: string): Result<Document> {
    match config
    case None => Err("config.yaml not found")
    case Some(doc) =>
      match doc.Get(Rules)
      case Some(Seq(items)) =>
        if |Retained(items, rule)| == |items| then Err("Rule not found")
        else Ok(doc.With(Rules, Seq(Retained(items, rule))))
      case _ => Err("No rules found in config")
  }

  /** The value settings.yaml dictates for a port key. */
  function PortValue(ports: PortOverrides, k: Key): Option<Value> {
    match k
    case MixedPort => AsNumber(ports.mixedPort)
    case SocksPort => AsNumber(ports.socksPort)
    case HttpPort => AsNumber(ports.httpPort)
    case ExternalController =>
      (match ports.externalController
       case Some((host, port)) => Some(Str(Endpoint(host, port)))
       case None => None)
    case _ => None
  }

  function AsNumber(port: Option<nat>): Option<Value> {
    match port
    case Some(p) => Some(Num(p))
    case None => None
  }

  function Endpoint(host: string, port: nat): string {
    host + ":" + Decimal(port)
  }

  function Decimal(n: nat): string {
    if n < 10 then ["0123456789"[n]] else Decimal(n / 10) + ["0123456789"[n % 10]]
  }

  /** The keys that carry a port of the proxy core. */
  predicate IsPort(k: Key) {
    k.MixedPort? || k.SocksPort? || k.HttpPort? || k.ExternalController?
  }

  /** The keys read out of the old config when a profile replaces it. */
  const OVERRIDE_KEYS: seq<Key> :=
    [Mode, MixedPort, RedirPort, TproxyPort, LogLevel, Dns, SocksPort, HttpPort, ExternalController, Tun]

  /** The keys whose old value survives a profile switch. */
  predicate IsSticky(k: Key) {
    k.Mode? || k.RedirPort? || k.TproxyPort? || k.LogLevel? || k.Dns? || k.Tun?
  }

  /** The keys that a switch can define although the profile does not. */
  const SPECIAL_KEYS: set<Key> :=
    {Mode, RedirPort, TproxyPort, LogLevel, Dns, Tun, MixedPort, SocksPort, HttpPort, ExternalController, Rules}

  /** Which value a key has after a profile replaced the config. */
  function ReplacedEntry(
    previous: Option<Document>, profile: Document, customRules: seq<string>, ports: PortOverrides,
    k: Key): Option<Value>
  {
    if k == Rules then
      match profile.Get(Rules)
      case None => Some(Seq(FromStrings(customRules)))
      case Some(Seq(items)) => Some(Seq(FromStrings(customRules) + items))
      case Some(other) => Some(other)
    else if IsPort(k) then PortValue(ports, k).Or(profile.Get(k))
    else if IsSticky(k) then OldEntry(previous, k).Or(profile.Get(k))
    else profile.Get(k)
  }

  function OldEntry(previous: Option<Document>, k: Key): Option<Value> {
    if previous.Some? then previous.value.Get(k) else None
  }

  /** The config after a profile replaced it; a profile that is no mapping is copied as it is. */
  function Replaced(
    previous: Option<Document>, profile: Document, customRules: seq<string>, ports: PortOverrides): Document {
    if profile.Mapping? then
      Mapping(map k | k in profile.entries.Keys + SPECIAL_KEYS
                      && ReplacedEntry(previous, profile, customRules, ports, k).Some?
                :: ReplacedEntry(previous, profile, customRules, ports, k).value)
    else profile
  }

  /** The `rule-providers` section: one entry per provider name, the last one with a name wins. */
  function ProviderSection(providers: seq<RuleProvider>): map<string, Value> {
    if providers == [] then map[]
    else
      var p := providers[|providers| - 1];
      ProviderSection(providers[..|providers| - 1])[p.name := ProviderEntry(p)]
  }

  function ProviderEntry(p: RuleProvider): Value {
    Dict(map["name" := Str(p.name), "type" := Str(p.kind), "behavior" := Str(p.behavior),
             "interval" := Num(p.interval), "enabled" := Bool(p.enabled), "lazy" := Bool(p.lazy)]
         + Field("url", p.url) + Field("path", p.path) + Field("filter", p.filter))
  }

  function Field(name: string, value: Option<string>): map<string, Value> {
    if value.Some? then map[name := Str(value.value)] else map[]
  }

  /** The config after the provider section was replaced; a missing file is written as an empty document. */
  function WithProviders(config: Option<Document>, providers: seq<RuleProvider>): Document {
    config.GetOr(Bare(Null)).With(RuleProviders, Dict(ProviderSection(providers)))
  }

  /** The document after one provider was taken out of its section. */
  function WithoutProvider(doc: Document, name: string): Document {
    match doc.Get(RuleProviders)
    case Some(Dict(fields)) => doc.With(RuleProviders, Dict(fields - {name}))
    case _ => doc
  }

  /** The active config file; every operation reads it, changes the document and writes it back. */
  class ActiveConfigStore {
    var file: Option<Document>

    constructor (file: Option<Document>)
      ensures this.file == file
    {
      this.file := file;
    }

    /** The old values that a profile switch looks at. */
    static method ExtractUserOverrides(doc: Document) returns (overrides: map<Key, Value>)
      ensures overrides.Keys == (set k | k in OVERRIDE_KEYS && doc.Get(k).Some?)
      ensures forall k :: k in overrides ==> doc.Get(k) == Some(overrides[k])
    {
      overrides := map[];
      if !doc.Mapping? {
        return;
      }
      for i := 0 to |OVERRIDE_KEYS|
        invariant overrides.Keys == (set k | k in OVERRIDE_KEYS[..i] && doc.Get(k).Some?)
        invariant forall k :: k in overrides ==> doc.Get(k) == Some(overrides[k])
      {
        var key := OVERRIDE_KEYS[i];
        assert OVERRIDE_KEYS[..i + 1] == OVERRIDE_KEYS[..i] + [key];
        if key in doc.entries {
          overrides := overrides[key := doc.entries[key]];
        }
      }
      assert OVERRIDE_KEYS[..|OVERRIDE_KEYS|] == OVERRIDE_KEYS;
    }

    /** Write the ports of settings.yaml into a document. */
    static method ApplyPorts(doc: Document, ports: PortOverrides) returns (r: Document)
      ensures r.Mapping? <==> doc.Mapping?
      ensures !doc.Mapping? ==> r == doc
      ensures doc.Mapping? ==> forall k :: r.Get(k) == PortValue(ports, k).Or(doc.Get(k))
    {
      r := doc;
      if ports.mixedPort.Some? { r := r.With(MixedPort, Num(ports.mixedPort.value)); }
      if ports.socksPort.Some? { r := r.With(SocksPort, Num(ports.socksPort.value)); }
      if ports.httpPort.Some? { r := r.With(HttpPort, Num(ports.httpPort.value)); }
      if ports.externalController.Some? {
        var (host, port) := ports.externalController.value;
        r := r.With(ExternalController, Str(Endpoint(host, port)));
      }
    }

    /** Lay the old values over a document, ports and rules excepted. */
    static method ApplyOverrides(doc: Document, overrides: map<Key, Value>) returns (r: Document)
      requires doc.Mapping?
      ensures r.Mapping?
      ensures forall k :: r.Get(k) ==
                if k in overrides && k != Rules && !IsPort(k) then Some(overrides[k]) else doc.Get(k)
    {
      r := doc;
      var pending := overrides.Keys;
      while pending != {}
        invariant pending <= overrides.Keys && r.Mapping?
        invariant forall k :: r.Get(k) ==
                    if k in overrides && k !in pending && k != Rules && !IsPort(k)
                    then Some(overrides[k]) else doc.Get(k)
        decreases |pending|
      {
        var key :| key in pending;
        pending := pending - {key};
        if key == Rules || IsPort(key) {
          continue;
        }
        r := r.With(key, overrides[key]);
      }
    }

    /** Insert the custom rules at position 0, last one first, so that their order is kept. */
    static method PrependAll(items: seq<Value>, customRules: seq<string>) returns (r: seq<Value>)
      ensures r == FromStrings(customRules) + items
    {
      r := items;
      var i := |customRules|;
      while i > 0
        invariant 0 <= i <= |customRules|
        invariant r == FromStrings(customRules)[i..] + items
      {
        i := i - 1;
        r := [Str(customRules[i])] + r;
        assert FromStrings(customRules)[i..] == [Str(customRules[i])] + FromStrings(customRules)[i + 1..];
      }
    }

    /**
      * Make `profile` the active config; the result is the number of its own rules. A text that is no YAML
      * changes nothing.
      */
    method ReplaceFromProfile(profile: Document, customRules: seq<string>, ports: PortOverrides)
      returns (r: Result<nat>)
      modifies this
      ensures r.Err? <==> profile.Unparsable?
      ensures r.Ok? ==> file == Some(Replaced(old(file), profile, customRules, ports))
      ensures r.Ok? ==> r.value == |RuleEntries(profile)|
      ensures r.Err? ==> file == old(file)
    {
      var overrides: map<Key, Value> := map[];
      if file.Some? {
        overrides := ExtractUserOverrides(file.value);
      }
      if profile.Unparsable? {
        return Err("invalid YAML");
      }
      var count := |RuleEntries(profile)|;
      var doc := ApplyPorts(profile, ports);
      if doc.Mapping? {
        doc := ApplyOverrides(doc, overrides);
        AppliedEntries(file, profile, ports, overrides, doc, customRules);
      }
      ghost var overlaid := doc;
      doc := InsertCustomRules(doc, customRules);
      if profile.Mapping? {
        RulesInserted(file, profile, customRules, ports, overlaid, doc);
      }
      file := Some(doc);
      r := Ok(count);
    }

    /** Put the custom rules in front of the rules of a document; a `rules` entry that is no list stays. */
    static method InsertCustomRules(doc: Document, customRules: seq<string>) returns (r: Document)
      ensures r == match RulesArray(doc)
                   case Some(items) => doc.With(Rules, Seq(FromStrings(customRules) + items))
                   case None => doc
    {
      r := doc;
      var rules := RulesArray(doc);
      if rules.Some? {
        var items := PrependAll(rules.value, customRules);
        r := doc.With(Rules, Seq(items));
      }
    }

    /** Keep the last `profileRulesCount` rules and put the custom rules in front of them. */
    method MergeRulesWithCustom(profileRulesCount: nat, customRules: seq<string>)
      modifies this
      ensures file == Some(Merged(old(file), profileRulesCount, customRules))
    {
      var doc := if file.Some? then file.value else DEFAULT_CONFIG;
      var existing := RulesOf(doc);
      var customCount := if |existing| >= profileRulesCount then |existing| - profileRulesCount else 0;
      var profileRules := existing[customCount..];
      assert profileRules == Suffix(existing, profileRulesCount);
      var newRules := ConcatRules(customRules, profileRules);
      assert newRules == FromStrings(MergedRules(existing, profileRulesCount, customRules));
      file := Some(doc.With(Rules, Seq(newRules)));
    }

    /** The custom rules as list entries, and each profile rule pushed behind them. */
    static method ConcatRules(customRules: seq<string>, profileRules: seq<string>) returns (newRules: seq<Value>)
      ensures newRules == FromStrings(customRules + profileRules)
    {
      newRules := FromStrings(customRules);
      for i := 0 to |profileRules|
        invariant newRules == FromStrings(customRules) + FromStrings(profileRules[..i])
      {
        newRules := newRules + [Str(profileRules[i])];
      }
      assert profileRules[..|profileRules|] == profileRules;
      FromStringsConcat(customRules, profileRules);
    }

    method PrependRule(rule: string) returns (r: Result<()>)
      modifies this
      ensures match Prepended(old(file), rule)
              case Ok(doc) => r == Ok(()) && file == Some(doc)
              case Err(e) => r == Err(e) && file == old(file)
    {
      if file.None? {
        return Err("config.yaml not found");
      }
      var rules := RulesArray(file.value);
      if rules.None? {
        return Err("rules is not an array");
      }
      file := Some(file.value.With(Rules, Seq([Str(rule)] + rules.value)));
      r := Ok(());
    }

    /** Add one rule at the end; a missing file counts as the default config. */
    method AppendRule(rule: string) returns (r: Result<()>)
      modifies this
      ensures match Appended(old(file).GetOr(DEFAULT_CONFIG), [rule])
              case Ok(doc) => r == Ok(()) && file == Some(doc)
              case Err(e) => r == Err(e) && file == old(file)
    {
      var doc := if file.Some? then file.value else DEFAULT_CONFIG;
      var rules := RulesArray(doc);
      if rules.None? {
        return Err("rules is not an array");
      }
      assert FromStrings([rule]) == [Str(rule)];
      file := Some(doc.With(Rules, Seq(rules.value + [Str(rule)])));
      r := Ok(());
    }

    /** Add a list of rules at the end; the file must exist. */
    method ImportRules(newRules: seq<string>) returns (r: Result<()>)
      modifies this
      ensures newRules == [] ==> r == Ok(()) && file == old(file)
      ensures newRules != [] && old(file).None? ==> r == Err("config.yaml not found") && file == old(file)
      ensures newRules != [] && old(file).Some? ==>
                match Appended(old(file).value, newRules)
                case Ok(doc) => r == Ok(()) && file == Some(doc)
                case Err(e) => r == Err(e) && file == old(file)
    {
      if newRules == [] {
        return Ok(());
      }
      if file.None? {
        return Err("config.yaml not found");
      }
      var rules := RulesArray(file.value);
      if rules.None? {
        return Err("rules is not an array");
      }
      var items := rules.value;
      for i := 0 to |newRules|
        invariant items == rules.value + FromStrings(newRules[..i])
      {
        assert newRules[..i + 1] == newRules[..i] + [newRules[i]];
        items := items + [Str(newRules[i])];
      }
      assert newRules[..|newRules|] == newRules;
      file := Some(file.value.With(Rules, Seq(items)));
      r := Ok(());
    }

    method RemoveRuleByContent(rule: string) returns (r: Result<()>)
      modifies this
      ensures match RemovedByContent(old(file), rule)
              case Ok(doc) => r == Ok(()) && file == Some(doc)
              case Err(e) => r == Err(e) && file == old(file)
    {
      if file.None? {
        return Err("config.yaml not found");
      }
      var entry := file.value.Get(Rules);
      if entry.None? || !entry.value.Seq? {
        return Err("No rules found in config");
      }
      var items := entry.value.items;
      var kept := Retained(items, rule);
      if |kept| == |items| {
        return Err("Rule not found");
      }
      file := Some(file.value.With(Rules, Seq(kept)));
      r := Ok(());
    }

    method SetRuleProviders(providers: seq<RuleProvider>)
      modifies this
      ensures file == Some(WithProviders(old(file), providers))
    {
      var doc := if file.Some? then file.value else Bare(Null);
      var section: map<string, Value> := map[];
      for i := 0 to |providers|
        invariant section == ProviderSection(providers[..i])
      {
        assert providers[..i + 1][..i] == providers[..i];
        section := section[providers[i].name := ProviderEntry(providers[i])];
      }
      assert providers[..|providers|] == providers;
      file := Some(doc.With(RuleProviders, Dict(section)));
    }

    method RemoveRuleProvider(name: string) returns (r: Result<()>)
      modifies this
      ensures old(file).None? ==> r.Err? && file == old(file)
      ensures old(file).Some? ==> r == Ok(()) && file == Some(WithoutProvider(old(file).value, name))
    {
      if file.None? {
        return Err("config.yaml not found");
      }
      file := Some(WithoutProvider(file.value, name));
      r := Ok(());
    }
  }

  // ----- Lemmas that tie the steps of a replacement to its per-key description -----

  /** After ports and old values went in, every key but `rules` has its final value. */
  lemma AppliedEntries(
    previous: Option<Document>, profile: Document, ports: PortOverrides, overrides: map<Key, Value>, doc: Document,
    customRules: seq<string>)
    requires profile.Mapping?
    requires overrides.Keys == (if previous.Some? then (set k | k in OVERRIDE_KEYS && previous.value.Get(k).Some?)
                                else {})
    requires forall k :: k in overrides ==> OldEntry(previous, k) == Some(overrides[k])
    requires forall k :: doc.Get(k) == if k in overrides && k != Rules && !IsPort(k) then Some(overrides[k])
                                       else PortValue(ports, k).Or(profile.Get(k))
    ensures forall k :: k != Rules ==> doc.Get(k) == ReplacedEntry(previous, profile, customRules, ports, k)
    ensures doc.Get(Rules) == profile.Get(Rules)
  {
    forall k | k != Rules ensures doc.Get(k) == ReplacedEntry(previous, profile, customRules, ports, k) {
      assert IsSticky(k) ==> k in OVERRIDE_KEYS by { OverrideKeysCover(k); }
      assert k in OVERRIDE_KEYS ==> IsSticky(k) || IsPort(k);
    }
  }

  /** The extracted keys are the sticky keys and the port keys. */
  lemma OverrideKeysCover(k: Key)
    ensures k in OVERRIDE_KEYS <==> IsSticky(k) || IsPort(k)
  {
    if IsSticky(k) || IsPort(k) {
      var i := if k == Mode then 0 else if k == MixedPort then 1 else if k == RedirPort then 2
               else if k == TproxyPort then 3 else if k == LogLevel then 4 else if k == Dns then 5
               else if k == SocksPort then 6 else if k == HttpPort then 7
               else if k == ExternalController then 8 else 9;
      assert OVERRIDE_KEYS[i] == k;
    }
  }

  /** Each key of a replaced config has the value its description gives. */
  lemma ReplacedGet(
    previous: Option<Document>, profile: Document, customRules: seq<string>, ports: PortOverrides, k: Key)
    requires profile.Mapping?
    ensures Replaced(previous, profile, customRules, ports).Get(k)
            == ReplacedEntry(previous, profile, customRules, ports, k)
  {}

  /** A mapping whose every key has the described value is the replaced config. */
  lemma ReplacedByEntries(
    previous: Option<Document>, profile: Document, customRules: seq<string>, ports: PortOverrides, doc: Document)
    requires profile.Mapping? && doc.Mapping?
    requires forall k :: doc.Get(k) == ReplacedEntry(previous, profile, customRules, ports, k)
    ensures doc == Replaced(previous, profile, customRules, ports)
  {
    SameEntries(doc, Replaced(previous, profile, customRules, ports));
  }

  /** Inserting the custom rules is the last step of a replacement. */
  lemma RulesInserted(
    previous: Option<Document>, profile: Document, customRules: seq<string>, ports: PortOverrides,
    overlaid: Document, doc: Document)
    requires profile.Mapping? && overlaid.Mapping? && overlaid.Get(Rules) == profile.Get(Rules)
    requires forall k :: k != Rules ==> overlaid.Get(k) == ReplacedEntry(previous, profile, customRules, ports, k)
    requires doc == match RulesArray(overlaid)
                    case Some(items) => overlaid.With(Rules, Seq(FromStrings(customRules) + items))
                    case None => overlaid
    ensures doc == Replaced(previous, profile, customRules, ports)
  {
    assert FromStrings(customRules) + [] == FromStrings(customRules);
    assert doc.Get(Rules) == ReplacedEntry(previous, profile, customRules, ports, Rules);
    assert forall k :: k != Rules ==> doc.Get(k) == overlaid.Get(k);
    ReplacedByEntries(previous, profile, customRules, ports, doc);
  }

  /** Two mappings that agree on every key are equal. */
  lemma SameEntries(a: Document, b: Document)
    requires a.Mapping? && b.Mapping? && forall k :: a.Get(k) == b.Get(k)
    ensures a == b
  {
    forall k ensures k in a.entries <==> k in b.entries {
      assert a.Get(k) == b.Get(k);
    }
    forall k | k in a.entries ensures a.entries[k] == b.entries[k] {
      assert a.Get(k) == b.Get(k);
    }
    assert a.entries == b.entries;
  }
}
