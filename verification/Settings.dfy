/** settings.yaml: the record, the overlay performed by every save, and the store around it. */
module Settings {
  import opened Prelude
  import opened Documents

  /** One external rule set, stored in settings.yaml and written to config.yaml. */
  datatype RuleProvider = RuleProvider(
    name: string, kind: string, behavior: string, url: Option<string>, path: Option<string>,
    interval: nat, enabled: bool, lazy: bool, filter: Option<string>)

  datatype AutoTest = AutoTest(enabled: bool, intervalMinutes: nat, latencyTestMode: Option<string>)

  /** DNS settings: the switch and the section that is written to config.yaml when it is on. */
  datatype DnsSettings = DnsSettings(enable: bool, section: Value)

  datatype ConnectionHistory = ConnectionHistory(enabled: bool, maxCount: nat)

  datatype HttpsConfig = HttpsConfig(enabled: bool, certPath: Option<string>, keyPath: Option<string>)

  datatype AuthConfig = AuthConfig(enabled: bool, password: Option<string>)

  /** A closed connection kept for the history. */
  datatype ClosedConnection = ClosedConnection(
    id: string, sourceIp: string, destination: string, chains: seq<string>,
    upload: nat, download: nat, closedAt: nat)

  datatype SettingsData = SettingsData(
    apiHost: Option<string>, apiPort: Option<nat>, httpPort: Option<nat>, socksPort: Option<nat>,
    mixedPort: Option<nat>, servicePort: Option<nat>, tunEnabled: Option<bool>, logLevel: Option<string>,
    allowLan: Option<bool>, ipv6: Option<bool>, tcpConcurrent: Option<bool>, mode: Option<string>,
    latencyTestMode: Option<string>, autoTest: Option<AutoTest>, customRules: Option<seq<string>>,
    profileRulesCount: Option<nat>, autoUpdateOnStartup: Option<bool>,
    ruleProviders: Option<seq<RuleProvider>>, dns: Option<DnsSettings>,
    connectionHistory: Option<ConnectionHistory>, closedConnections: seq<ClosedConnection>,
    https: Option<HttpsConfig>, auth: Option<AuthConfig>)

  /** A settings record with every field unset. */
  const UNSET := SettingsData(
    None, None, None, None, None, None, None, None, None, None, None, None,
    None, None, None, None, None, None, None, None, [], None, None)

  /** The record written when the service first runs and finds no settings.yaml. */
  const INITIAL_SETTINGS := UNSET.(
    apiHost := Some("127.0.0.1"), apiPort := Some(9090), httpPort := Some(7890), socksPort := Some(7891),
    servicePort := Some(8080), tunEnabled := Some(false), logLevel := Some("info"), allowLan := Some(true),
    ipv6 := Some(true), tcpConcurrent := Some(false), mode := Some("rule"), latencyTestMode := Some("http"))

  /** What a missing or unreadable settings.yaml stands for. */
  const DEFAULT_SETTINGS := UNSET.(autoTest := Some(AutoTest(false, 15, None)))

  /** The record stored by saving `b` over `s`: set fields of `b` win, mixed port and https stay. */
  function Overlay(s: SettingsData, b: SettingsData): SettingsData {
    SettingsData(
      b.apiHost.Or(s.apiHost), b.apiPort.Or(s.apiPort), b.httpPort.Or(s.httpPort), b.socksPort.Or(s.socksPort),
      s.mixedPort, b.servicePort.Or(s.servicePort), b.tunEnabled.Or(s.tunEnabled), b.logLevel.Or(s.logLevel),
      b.allowLan.Or(s.allowLan), b.ipv6.Or(s.ipv6), b.tcpConcurrent.Or(s.tcpConcurrent), b.mode.Or(s.mode),
      b.latencyTestMode.Or(s.latencyTestMode), b.autoTest.Or(s.autoTest), b.customRules.Or(s.customRules),
      b.profileRulesCount.Or(s.profileRulesCount), b.autoUpdateOnStartup.Or(s.autoUpdateOnStartup),
      b.ruleProviders.Or(s.ruleProviders), b.dns.Or(s.dns),
      b.connectionHistory.Or(s.connectionHistory),
      if b.closedConnections != [] then b.closedConnections else s.closedConnections,
      s.https, b.auth.Or(s.auth))
  }

  // The field-by-field merge of one save, in five runs of consecutive assignments.

  method MergeEndpoints(stored: SettingsData, s: SettingsData) returns (merged: SettingsData)
    ensures merged == stored.(apiHost := s.apiHost.Or(stored.apiHost), apiPort := s.apiPort.Or(stored.apiPort),
                              httpPort := s.httpPort.Or(stored.httpPort), socksPort := s.socksPort.Or(stored.socksPort))
  {
    merged := stored;
    if s.apiHost.Some? { merged := merged.(apiHost := s.apiHost); }
    if s.apiPort.Some? { merged := merged.(apiPort := s.apiPort); }
    if s.httpPort.Some? { merged := merged.(httpPort := s.httpPort); }
    if s.socksPort.Some? { merged := merged.(socksPort := s.socksPort); }
  }

  method MergeRuntime(stored: SettingsData, s: SettingsData) returns (merged: SettingsData)
    ensures merged == stored.(servicePort := s.servicePort.Or(stored.servicePort),
                              tunEnabled := s.tunEnabled.Or(stored.tunEnabled),
                              logLevel := s.logLevel.Or(stored.logLevel),
                              allowLan := s.allowLan.Or(stored.allowLan))
  {
    merged := stored;
    if s.servicePort.Some? { merged := merged.(servicePort := s.servicePort); }
    if s.tunEnabled.Some? { merged := merged.(tunEnabled := s.tunEnabled); }
    if s.logLevel.Some? { merged := merged.(logLevel := s.logLevel); }
    if s.allowLan.Some? { merged := merged.(allowLan := s.allowLan); }
  }

  method MergeModes(stored: SettingsData, s: SettingsData) returns (merged: SettingsData)
    ensures merged == stored.(ipv6 := s.ipv6.Or(stored.ipv6), tcpConcurrent := s.tcpConcurrent.Or(stored.tcpConcurrent),
                              mode := s.mode.Or(stored.mode),
                              latencyTestMode := s.latencyTestMode.Or(stored.latencyTestMode))
  {
    merged := stored;
    if s.ipv6.Some? { merged := merged.(ipv6 := s.ipv6); }
    if s.tcpConcurrent.Some? { merged := merged.(tcpConcurrent := s.tcpConcurrent); }
    if s.mode.Some? { merged := merged.(mode := s.mode); }
    if s.latencyTestMode.Some? { merged := merged.(latencyTestMode := s.latencyTestMode); }
  }

  method MergeRuleFields(stored: SettingsData, s: SettingsData) returns (merged: SettingsData)
    ensures merged == stored.(autoTest := s.autoTest.Or(stored.autoTest),
                              customRules := s.customRules.Or(stored.customRules),
                              profileRulesCount := s.profileRulesCount.Or(stored.profileRulesCount),
                              autoUpdateOnStartup := s.autoUpdateOnStartup.Or(stored.autoUpdateOnStartup))
  {
    merged := stored;
    if s.autoTest.Some? { merged := merged.(autoTest := s.autoTest); }
    if s.customRules.Some? { merged := merged.(customRules := s.customRules); }
    if s.profileRulesCount.Some? { merged := merged.(profileRulesCount := s.profileRulesCount); }
    if s.autoUpdateOnStartup.Some? { merged := merged.(autoUpdateOnStartup := s.autoUpdateOnStartup); }
  }

  method MergeRecords(stored: SettingsData, s: SettingsData) returns (merged: SettingsData)
    ensures merged == stored.(ruleProviders := s.ruleProviders.Or(stored.ruleProviders), dns := s.dns.Or(stored.dns),
                              connectionHistory := s.connectionHistory.Or(stored.connectionHistory),
                              auth := s.auth.Or(stored.auth),
                              closedConnections := if s.closedConnections != [] then s.closedConnections
                                                   else stored.closedConnections)
  {
    merged := stored;
    if s.ruleProviders.Some? { merged := merged.(ruleProviders := s.ruleProviders); }
    if s.dns.Some? { merged := merged.(dns := s.dns); }
    if s.connectionHistory.Some? { merged := merged.(connectionHistory := s.connectionHistory); }
    if s.auth.Some? { merged := merged.(auth := s.auth); }
    if s.closedConnections != [] { merged := merged.(closedConnections := s.closedConnections); }
  }

  /** The settings file and the operations that rewrite it. */
  class SettingsStore {
    var file: Option<SettingsData>

    /**
      * A `connection_history` entry, underscore spelling, that someone wrote into the file by hand. The
      * service itself writes the entry with a hyphen and drops keys it does not know.
      */
    var handWritten: Option<ConnectionHistory>

    /** The settings a reader sees; a missing file reads as the defaults. */
    function Current(): SettingsData
      reads this
    {
      file.GetOr(DEFAULT_SETTINGS)
    }

    constructor (file: Option<SettingsData>, handWritten: Option<ConnectionHistory>)
      ensures this.file == file && this.handWritten == handWritten
      ensures HistoryMaximum() == if handWritten.Some? then handWritten.value.maxCount else 500
    {
      this.file, this.handWritten := file, handWritten;
    }

    /** The maximum that recording a closed connection reads: only the underscore spelling counts. */
    function HistoryMaximum(): nat
      reads this
    {
      if handWritten.Some? then handWritten.value.maxCount else DEFAULT_HISTORY_MAXIMUM
    }

    /** Merge the set fields of `s` into the stored record and write it back. */
    method SaveSettings(s: SettingsData)
      modifies this
      ensures file == Some(Overlay(old(Current()), s))
      ensures HistoryMaximum() == 500
    {
      var merged := if file.Some? then file.value else DEFAULT_SETTINGS;
      merged := MergeEndpoints(merged, s);
      merged := MergeRuntime(merged, s);
      merged := MergeModes(merged, s);
      merged := MergeRuleFields(merged, s);
      merged := MergeRecords(merged, s);
      file, handWritten := Some(merged), None;
    }

    /** Store the custom rules; an empty list is stored as "unset". */
    method WriteCustomRules(customRules: seq<string>)
      modifies this
      ensures file == Some(old(Current()).(customRules := StoredRules(customRules)))
      ensures HistoryMaximum() == 500
    {
      var settings := Current();
      if customRules == [] {
        settings := settings.(customRules := None);
      } else {
        settings := settings.(customRules := Some(customRules));
      }
      file, handWritten := Some(settings), None;
    }

    /** Record how many rules the active profile has. */
    method UpdateProfileRulesCount(count: nat)
      modifies this
      ensures file == Some(old(Current()).(profileRulesCount := Some(count)))
      ensures HistoryMaximum() == 500
    {
      file, handWritten := Some(Current().(profileRulesCount := Some(count))), None;
    }
  }

  const DEFAULT_HISTORY_MAXIMUM: nat := 500

  /** How a custom-rule list is represented in the file. */
  function StoredRules(customRules: seq<string>): Option<seq<string>> {
    if customRules == [] then None else Some(customRules)
  }

  // ----- Laws of the overlay -----

  /** The record left after a sequence of saves. */
  function SaveAll(s: SettingsData, saves: seq<SettingsData>): SettingsData
    decreases |saves|
  {
    if saves == [] then s else SaveAll(Overlay(s, saves[0]), saves[1..])
  }

  /** Saving `a` and then `b` is saving `b` over `a` once. */
  lemma OverlayTwice(s: SettingsData, a: SettingsData, b: SettingsData)
    ensures Overlay(Overlay(s, a), b) == Overlay(s, Overlay(a, b))
  {}

  /** Any sequence of saves equals one save of the saves laid over each other. */
  lemma {:induction false} SaveAllIsOneSave(s: SettingsData, first: SettingsData, saves: seq<SettingsData>)
    ensures SaveAll(s, [first] + saves) == Overlay(s, SaveAll(first, saves))
    decreases |saves|
  {
    assert ([first] + saves)[1..] == saves;
    if saves != [] {
      OverlayTwice(s, first, saves[0]);
      assert saves == [saves[0]] + saves[1..];
      SaveAllIsOneSave(s, Overlay(first, saves[0]), saves[1..]);
      SaveAllTail(s, first, saves);
    }
  }

  lemma SaveAllTail(s: SettingsData, first: SettingsData, saves: seq<SettingsData>)
    requires saves != []
    ensures SaveAll(s, [first] + saves) == SaveAll(s, [Overlay(first, saves[0])] + saves[1..])
  {
    var folded := [Overlay(first, saves[0])] + saves[1..];
    assert ([first] + saves)[1..] == saves && folded[1..] == saves[1..];
    OverlayTwice(s, first, saves[0]);
  }

  /** Every field set in `s` is set in `t`, and the history list does not become empty. */
  ghost predicate NothingLost(s: SettingsData, t: SettingsData) {
    && (s.apiHost.Some? ==> t.apiHost.Some?) && (s.apiPort.Some? ==> t.apiPort.Some?)
    && (s.httpPort.Some? ==> t.httpPort.Some?) && (s.socksPort.Some? ==> t.socksPort.Some?)
    && (s.mixedPort.Some? ==> t.mixedPort.Some?) && (s.servicePort.Some? ==> t.servicePort.Some?)
    && (s.tunEnabled.Some? ==> t.tunEnabled.Some?) && (s.logLevel.Some? ==> t.logLevel.Some?)
    && (s.allowLan.Some? ==> t.allowLan.Some?) && (s.ipv6.Some? ==> t.ipv6.Some?)
    && (s.tcpConcurrent.Some? ==> t.tcpConcurrent.Some?) && (s.mode.Some? ==> t.mode.Some?)
    && (s.latencyTestMode.Some? ==> t.latencyTestMode.Some?) && (s.autoTest.Some? ==> t.autoTest.Some?)
    && (s.customRules.Some? ==> t.customRules.Some?)
    && (s.profileRulesCount.Some? ==> t.profileRulesCount.Some?)
    && (s.autoUpdateOnStartup.Some? ==> t.autoUpdateOnStartup.Some?)
    && (s.ruleProviders.Some? ==> t.ruleProviders.Some?) && (s.dns.Some? ==> t.dns.Some?)
    && (s.connectionHistory.Some? ==> t.connectionHistory.Some?)
    && (s.closedConnections != [] ==> t.closedConnections != [])
    && (s.https.Some? ==> t.https.Some?) && (s.auth.Some? ==> t.auth.Some?)
  }

  /** Over any run of saves no field is lost, and the mixed port and https never change. */
  lemma {:induction false} SavesNeverLose(s: SettingsData, saves: seq<SettingsData>)
    ensures NothingLost(s, SaveAll(s, saves))
    ensures SaveAll(s, saves).mixedPort == s.mixedPort && SaveAll(s, saves).https == s.https
    decreases |saves|
  {
    if saves != [] {
      var rest := SaveAll(Overlay(s, saves[0]), saves[1..]);
      SavesNeverLose(Overlay(s, saves[0]), saves[1..]);
      OverlayLosesNothing(s, saves[0]);
      NothingLostTransitive(s, Overlay(s, saves[0]), rest);
    }
  }

  lemma OverlayLosesNothing(s: SettingsData, b: SettingsData)
    ensures NothingLost(s, Overlay(s, b))
  {}

  lemma NothingLostTransitive(s: SettingsData, t: SettingsData, u: SettingsData)
    requires NothingLost(s, t) && NothingLost(t, u)
    ensures NothingLost(s, u)
  {}

  /** The value a field has after a run of saves: the last set one, else the stored one. */
  function LastSet<T>(stored: Option<T>, values: seq<Option<T>>): Option<T> {
    if values == [] then stored else values[|values| - 1].Or(LastSet(stored, values[..|values| - 1]))
  }

  /** The values that a run of saves submits for one field. */
  function Submitted<T>(field: SettingsData -> Option<T>, saves: seq<SettingsData>): seq<Option<T>> {
    if saves == [] then [] else Submitted(field, saves[..|saves| - 1]) + [field(saves[|saves| - 1])]
  }

  /** A field that the overlay merges holds, after any run of saves, the last value that was set. */
  lemma {:induction false} SavesKeepLast<T>(field: SettingsData -> Option<T>, s: SettingsData, saves: seq<SettingsData>)
    requires forall x, y :: field(Overlay(x, y)) == field(y).Or(field(x))
    ensures field(SaveAll(s, saves)) == LastSet(field(s), Submitted(field, saves))
    decreases |saves|
  {
    if saves != [] {
      var n := |saves| - 1;
      SavesKeepLast(field, s, saves[..n]);
      SaveAllLast(s, saves);
      var values := Submitted(field, saves);
      assert values[..|values| - 1] == Submitted(field, saves[..n]);
      var before := SaveAll(s, saves[..n]);
      assert field(Overlay(before, saves[n])) == field(saves[n]).Or(field(before));
    }
  }

  lemma {:induction false} SaveAllLast(s: SettingsData, saves: seq<SettingsData>)
    requires saves != []
    ensures SaveAll(s, saves) == Overlay(SaveAll(s, saves[..|saves| - 1]), saves[|saves| - 1])
    decreases |saves|
  {
    if |saves| > 1 {
      SaveAllLast(Overlay(s, saves[0]), saves[1..]);
      assert saves[..|saves| - 1][1..] == saves[1..][..|saves| - 2];
    }
  }

  /** In particular the rule fields hold what the last save that set them submitted, else what was stored. */
  lemma RuleFieldsKeepLast(s: SettingsData, saves: seq<SettingsData>)
    ensures var t := SaveAll(s, saves);
            && t.customRules == LastSet(s.customRules, Submitted((x: SettingsData) => x.customRules, saves))
            && t.profileRulesCount
               == LastSet(s.profileRulesCount, Submitted((x: SettingsData) => x.profileRulesCount, saves))
            && t.ruleProviders == LastSet(s.ruleProviders, Submitted((x: SettingsData) => x.ruleProviders, saves))
            && t.mode == LastSet(s.mode, Submitted((x: SettingsData) => x.mode, saves))
            && t.dns == LastSet(s.dns, Submitted((x: SettingsData) => x.dns, saves))
  {
    SavesKeepLast((x: SettingsData) => x.customRules, s, saves);
    SavesKeepLast((x: SettingsData) => x.profileRulesCount, s, saves);
    SavesKeepLast((x: SettingsData) => x.ruleProviders, s, saves);
    SavesKeepLast((x: SettingsData) => x.mode, s, saves);
    SavesKeepLast((x: SettingsData) => x.dns, s, saves);
  }

  /** Addresses, ports, the TUN switch and the log level: each field holds the last value submitted for it. */
  lemma EndpointsKeepLast(s: SettingsData, saves: seq<SettingsData>)
    ensures var t := SaveAll(s, saves);
            && t.apiHost == LastSet(s.apiHost, Submitted((x: SettingsData) => x.apiHost, saves))
            && t.apiPort == LastSet(s.apiPort, Submitted((x: SettingsData) => x.apiPort, saves))
            && t.httpPort == LastSet(s.httpPort, Submitted((x: SettingsData) => x.httpPort, saves))
            && t.socksPort == LastSet(s.socksPort, Submitted((x: SettingsData) => x.socksPort, saves))
            && t.servicePort == LastSet(s.servicePort, Submitted((x: SettingsData) => x.servicePort, saves))
            && t.tunEnabled == LastSet(s.tunEnabled, Submitted((x: SettingsData) => x.tunEnabled, saves))
            && t.logLevel == LastSet(s.logLevel, Submitted((x: SettingsData) => x.logLevel, saves))
  {
    SavesKeepLast((x: SettingsData) => x.apiHost, s, saves);
    SavesKeepLast((x: SettingsData) => x.apiPort, s, saves);
    SavesKeepLast((x: SettingsData) => x.httpPort, s, saves);
    SavesKeepLast((x: SettingsData) => x.socksPort, s, saves);
    SavesKeepLast((x: SettingsData) => x.servicePort, s, saves);
    SavesKeepLast((x: SettingsData) => x.tunEnabled, s, saves);
    SavesKeepLast((x: SettingsData) => x.logLevel, s, saves);
  }

  /** The runtime switches, the modes and the latency test. */
  lemma RuntimeKeepsLast(s: SettingsData, saves: seq<SettingsData>)
    ensures var t := SaveAll(s, saves);
            && t.allowLan == LastSet(s.allowLan, Submitted((x: SettingsData) => x.allowLan, saves))
            && t.ipv6 == LastSet(s.ipv6, Submitted((x: SettingsData) => x.ipv6, saves))
            && t.tcpConcurrent == LastSet(s.tcpConcurrent, Submitted((x: SettingsData) => x.tcpConcurrent, saves))
            && t.mode == LastSet(s.mode, Submitted((x: SettingsData) => x.mode, saves))
            && t.latencyTestMode == LastSet(s.latencyTestMode, Submitted((x: SettingsData) => x.latencyTestMode, saves))
            && t.autoTest == LastSet(s.autoTest, Submitted((x: SettingsData) => x.autoTest, saves))
  {
    SavesKeepLast((x: SettingsData) => x.allowLan, s, saves);
    SavesKeepLast((x: SettingsData) => x.ipv6, s, saves);
    SavesKeepLast((x: SettingsData) => x.tcpConcurrent, s, saves);
    SavesKeepLast((x: SettingsData) => x.mode, s, saves);
    SavesKeepLast((x: SettingsData) => x.latencyTestMode, s, saves);
    SavesKeepLast((x: SettingsData) => x.autoTest, s, saves);
  }

  /** The fields of the rule subsystem, the remaining records and the login. */
  lemma RecordsKeepLast(s: SettingsData, saves: seq<SettingsData>)
    ensures var t := SaveAll(s, saves);
            && t.customRules == LastSet(s.customRules, Submitted((x: SettingsData) => x.customRules, saves))
            && t.profileRulesCount
               == LastSet(s.profileRulesCount, Submitted((x: SettingsData) => x.profileRulesCount, saves))
            && t.autoUpdateOnStartup
               == LastSet(s.autoUpdateOnStartup, Submitted((x: SettingsData) => x.autoUpdateOnStartup, saves))
            && t.ruleProviders == LastSet(s.ruleProviders, Submitted((x: SettingsData) => x.ruleProviders, saves))
            && t.dns == LastSet(s.dns, Submitted((x: SettingsData) => x.dns, saves))
            && t.connectionHistory
               == LastSet(s.connectionHistory, Submitted((x: SettingsData) => x.connectionHistory, saves))
            && t.auth == LastSet(s.auth, Submitted((x: SettingsData) => x.auth, saves))
  {
    SavesKeepLast((x: SettingsData) => x.customRules, s, saves);
    SavesKeepLast((x: SettingsData) => x.profileRulesCount, s, saves);
    SavesKeepLast((x: SettingsData) => x.autoUpdateOnStartup, s, saves);
    SavesKeepLast((x: SettingsData) => x.ruleProviders, s, saves);
    SavesKeepLast((x: SettingsData) => x.dns, s, saves);
    SavesKeepLast((x: SettingsData) => x.connectionHistory, s, saves);
    SavesKeepLast((x: SettingsData) => x.auth, s, saves);
  }

  /** The list of closed connections in the record holds the last non-empty list that was submitted. */
  lemma ClosedListKeepsLast(s: SettingsData, b: SettingsData)
    ensures Overlay(s, b).closedConnections
         == if b.closedConnections == [] then s.closedConnections else b.closedConnections
  {}
}
