# Control Tower: rule boundary, config overlay, lifecycle and trackers

A Dafny model of the stateful core of `ctsvc`, the service that manages a Mihomo proxy. The service
keeps several stores that have to agree over long runs: config.yaml, settings.yaml, the profile files,
the cron table, the child process with its circuit breaker, and the table of active connections.

- **Rule boundary** (`RuleState`, `RuleInvariant`, `RuleDisplay`, `RuleLimits`, `RuleSamples`,
  `InvariantSamples`, `RequestLaws`, `ProviderRuns`, `Handlers`).
  config.yaml's `rules` is meant to be the custom rules followed by the active profile's rules. The
  split point is recovered from a count in settings.yaml or by looking for the first rule of the
  profile file. `RuleState.Step` gives the effect of every request on the stores, the class
  `Handlers.ControlTower` carries the requests out step by step and is proved against it, and
  `RuleInvariant` proves what every run keeps. `RuleLimits` says, for each unsafe path, exactly when
  it goes wrong; `RuleSamples` and `InvariantSamples` show states and requests on which it does.
  `RequestLaws` says when each request is refused, what it stores and what it leaves alone, and
  `ProviderRuns` what the config defines for the stored rule providers over whole runs.
- **Config and settings** (`ActiveConfig`, `ConfigLaws`, `OverrideRuns`, `Settings`, `Profiles`,
  `MergedActivation`, `Routing`, `AtomicWrite`). Profile switches, merges, the overlay of settings,
  merging of profiles, first-match routing, and replacement of the file under crashes.
- **Timed lifecycle** (`CircuitBreakers`, `Lifecycle`, `Scheduler`, `CronRuns`).
- **Connections** (`ConnectionTracker`, `TrackerRuns`).

## How to read it

Documents are finite maps from keys to YAML values; the top-level keys the service names are the
constructors of `Documents.Key`. A file may also hold a bare YAML value, such as a line of plain text, or
no YAML at all. Files are values, and reading and writing succeed unless a property is about failure.
Clocks, downloads, script output, process outcomes and hash-set order are parameters. Store writers are serialised: the repository has no lock across handlers, and this is an assumption.
Both settings paths used by the handlers are taken to be one file. A rule's policy is the text after its
last comma.

Each class method states its whole new state by a function of the old one; the laws are proved about
those functions. The functions keep odd branches of the code as they are: a deletion whose index is past
the stored list panics (`Panicked`), clearing forgets the stored rules before it finds out that there is
no config, and adding a provider without a config leaves an empty document behind.

A request that ends in a start of the proxy carries how that turned out: a new process, nothing to
start, or a failure. A new process writes the mode of settings.yaml into config.yaml once more, and that
is part of the request.

The side conditions of a run are `RuleInvariant.Admissible`, one clause per request. `RuleLimits` has an
if-and-only-if for each of them: added rules and providers, deleted providers, activations, refreshes of
the current and of another profile, edits with and without a new URL, fetched, created and deleted
profiles, and refused activations. One served activation restores the boundary after any run at all
(`RuleInvariant.ActivationHeals`).

## Where code and documentation disagree

The model follows the code.

- `crates/control-tower-service-core/src/active_config.rs:3-5` says that all writes to config.yaml go
  through the atomic store. Mode, port, TUN and DNS changes open config.yaml itself
  (`crates/control-tower-service/src/service/config_ops.rs:123`); `AtomicWrite.CommittedUnlessTorn`
  states exactly when the file is then still a complete version.
- The comment on `save_settings` promises to keep values for unset fields and the form submits a mixed
  port, but a save never stores it (`Settings.SavesNeverLose`).
- `refresh_profile` discards the rule count that `replace_from_profile` asks its caller to store
  (`RuleLimits.RefreshThenAddIff`).
- The test at `crates/control-tower-service-core/src/active_config.rs:441-463` expects an old
  `mixed-port` to survive a profile switch; it does not (`ConfigLaws.PortsFollowSettings`).
- `connection_history.enabled` is never consulted when a connection is recorded. The maximum is read under
  the key `connection_history` (`crates/control-tower-service/src/service/settings_ops.rs:218`), but the
  settings record writes it as `connection-history` (`crates/control-tower-service/src/settings.rs:173`):
  a maximum that the service saves is never read, and 500 holds unless someone adds the other key by hand,
  which lasts until the next save (`Settings.SettingsStore.HistoryMaximum`).
- Choosing a mode is meant to last, but a mode that the settings form saves stays dormant until the next
  start of the proxy and then overrides it (`OverrideRuns.FormOverridesMode`); on a fresh installation the
  same happens to a profile's own mode (`OverrideRuns.FirstStartDropsMode`).
- `crates/control-tower-service-core/src/active_config.rs:43-45` promises that user overrides survive a
  profile switch. A refresh or a new URL of the current profile that brings a bare value, such as a line of
  plain text, is written over config.yaml as it is, and every override is gone
  (`OverrideRuns.StickySurvives`, `InvariantSamples.SamplePlainTextWipesMode`).
- The status report has a "CircuitBroken" state that no run can show (`Lifecycle.StatusNeverBroken`).

## Model

| member | source | states |
|---|---|---|
| RuleInvariant.RunKeepsBoundary | crates/control-tower-service/src/api/rules_handlers.rs:221-449 | Over every admissible sequence of requests the config's rules end with exactly the active profile's rules, in order, and the stored count is their number |
| RuleInvariant.RunKeepsInv | crates/control-tower-service/src/api/rules_handlers.rs:1-7 | Every admissible sequence of requests keeps the alignment of config, settings and profile file |
| RuleInvariant.RunKeepsSync | crates/control-tower-service/src/api/rules_handlers.rs:292-298 | If no provider is added twice, the config is after every run exactly the stored custom rules followed by the active profile's rules |
| RuleInvariant.ActivationHeals | crates/control-tower-service/src/api/profile_handlers.rs:466-513 | After any run of requests, admissible or not, one served activation of a good profile puts config, settings and profile in order, and every admissible run from there ends with exactly the active profile's rules |
| RuleInvariant.StepKeeps | crates/control-tower-service/src/api/rules_handlers.rs:1-7 | Each single request keeps the alignment, changes the custom rules only by the one addition, removal or clearing it asks for, and desynchronises settings and config only by adding an existing provider |
| RuleInvariant.ActivateEstablishes | crates/control-tower-service/src/api/profile_handlers.rs:384-502 | Activating a good profile establishes the alignment from any state of config, count and providers, and keeps the custom rules; a refused activation leaves config, settings and the active rules alone |
| RuleInvariant.FirstActivation | crates/control-tower-service/src/api/profile_handlers.rs:336-513 | From the settings written at startup the first activation of a good profile reaches the invariant; it takes the stored ports, and the stored mode exactly when a process is started |
| RuleInvariant.FirstEndpoints | crates/control-tower-service/src/service/settings_ops.rs:73-97 | The HTTP port and the controller address of the first config are those of the startup settings |
| RuleInvariant.AddRuleKeeps | crates/control-tower-service/src/api/rules_handlers.rs:243-304 | An accepted rule is appended to the custom rules and config and settings agree again; a refused one changes nothing |
| RuleInvariant.DeleteRuleKeeps | crates/control-tower-service/src/api/rules_handlers.rs:310-383 | A deletion succeeds exactly for indices of the stored custom rules of a non-profile source, removes that one rule, and otherwise changes nothing |
| RuleInvariant.ClearRulesKeeps | crates/control-tower-service/src/api/rules_handlers.rs:389-449 | Clearing removes all custom rules and leaves the profile part |
| RuleInvariant.AddProviderKeeps | crates/control-tower-service/src/api/rule_provider_handlers.rs:133-162 | The provider's rule goes in front of the config; stored custom rules are all kept, although an existing provider submits none |
| RuleInvariant.DeleteProviderKeeps | crates/control-tower-service/src/api/rule_provider_handlers.rs:279-311 | Deleting a provider takes its rule out of settings and config and leaves the profile part whole |
| RuleInvariant.UpdateProfileKeeps | crates/control-tower-service/src/api/profile_handlers.rs:519-786 | Editing a profile, with or without a new download, keeps the alignment and the custom rules, the canonical file name stored on the way, refusals and downloads that are no YAML included |
| RuleInvariant.RefreshKeeps | crates/control-tower-service/src/api/profile_handlers.rs:848-937 | A refresh that does not change the number of rules keeps the alignment |
| RuleInvariant.AddProfileKeeps | crates/control-tower-service/src/api/profile_handlers.rs:164-333 | Creating a profile keeps the alignment unless its content changes the active file |
| RuleInvariant.DeleteProfileKeeps | crates/control-tower-service/src/api/profile_handlers.rs:985-1047 | Deleting a profile that is not current and does not share the active file keeps the alignment |
| RuleInvariant.FetchProfilesKeeps | crates/control-tower-service/src/scheduler.rs:352-437 | Fetching profile files keeps the alignment when the active file keeps its rules |
| RuleInvariant.SwitchStepKeeps | crates/control-tower-service/src/service/lifecycle.rs:11-45 | Activation, edit and refresh keep alignment and custom rules whether or not the restart at their end succeeds |
| RuleInvariant.NetworkRequestKeeps | crates/control-tower-service/src/service/config_ops.rs:60-400 | Mode, port, TUN, DNS, settings-form, password and provider-interval writes and restarts touch neither the rules nor the count nor the custom rules |
| RuleInvariant.BoundaryIff | crates/control-tower-service/src/api/rules_handlers.rs:132-218 | Detection finds the number of custom rules if and only if there are none, or the profile is not empty and shares no text with them |
| RuleInvariant.StutterElements | crates/control-tower-service/src/api/rule_provider_handlers.rs:142-159 | The config's custom part holds the same rules as the settings, with extra copies only; equal lengths mean equal lists |
| RuleDisplay.DeleteShownItemIff | crates/control-tower-service/ui/index.html:2444-2449 | Deleting the item shown as custom number n through index n-1 removes exactly that entry of the config if and only if config and settings are in sync |
| RuleDisplay.ShownIsStored | crates/control-tower-service/src/api/rules_handlers.rs:78-100 | The listing marks exactly as many rules custom as the settings store |
| RuleDisplay.ShownIsDetected | crates/control-tower-service/src/api/rules_handlers.rs:78-100 | Without stored custom rules the listing shows what stands in front of the profile's rules as custom, if and only if none of it repeats a profile rule |
| RuleDisplay.RunRouting | crates/control-tower-service-core/src/active_config.rs:290-338 | After any admissible run, hand-made provider rules included, the config routes every packet as the stored custom rules followed by the active profile do, if and only if rules of different policies first occur in the same order in both |
| RuleDisplay.RunRoutesAsStored | crates/control-tower-service/src/api/rule_provider_handlers.rs:133-162 | Over every run in which provider rules only come from adding providers, config.yaml sends each packet exactly where the stored custom rules followed by the active profile send it |
| RuleDisplay.FreshLeads | crates/control-tower-service/src/api/profile_handlers.rs:336-513 | The first activation on a fresh installation reaches the starting point of that law |
| RuleDisplay.FreshRunRoutesAsStored | crates/control-tower-service/src/api/rule_provider_handlers.rs:133-162 | From a fresh installation and its first activation on, config.yaml routes every packet as stored |
| RuleDisplay.StutterRoutes | crates/control-tower-service/src/api/rule_provider_handlers.rs:142-159 | Extra copies of leading provider rules change no packet's policy |
| RuleDisplay.ReAddRoutingIff | crates/control-tower-service/src/api/rule_provider_handlers.rs:142-159 | Adding an existing provider changes no packet's policy, whatever rules match, if and only if its rule lies in the leading block of its own policy |
| RuleDisplay.ReAddsNeverReroute | crates/control-tower-service/src/api/rule_provider_handlers.rs:133-162 | Over every run in which provider rules only come from adding providers, adding an existing one never changes a packet's policy |
| RuleDisplay.ProvidersReject | crates/control-tower-service/src/api/rule_provider_handlers.rs:142-143 | The rule of every provider has policy "REJECT", which is the condition of the routing laws above |
| RuleDisplay.AddedProviderBlocks | crates/control-tower-service/src/api/rule_provider_handlers.rs:133-162 | A served request puts the literal rule "RULE-SET,<name>,REJECT" first in config and stored rules, keeps the rest, and every packet it hits is rejected |
| RuleDisplay.FreshRunBlocks | crates/control-tower-service/src/api/rule_provider_handlers.rs:133-162 | Over every run from a fresh installation without hand-made provider rules a packet hit by a stored provider's rule is rejected, and all others go as stored |
| Routing.DuplicateInFrontIff | crates/control-tower-service/src/api/rule_provider_handlers.rs:157-159 | A second copy of a rule in front is invisible to routing if and only if the first copy is in the leading block of its policy |
| Routing.RoutesAgreeIff | crates/control-tower-service-core/src/active_config.rs:290-293 | Two rule lists send every packet to the same policy, whatever the rules match, if and only if they hold the same rules and rules of different policies first occur in the same order |
| RuleLimits.RefreshThenAddIff | crates/control-tower-service/src/api/profile_handlers.rs:921-925 | After a refresh, whatever it brought, the next added rule gives the intended list if and only if the download is a mapping with an unchanged number of rules, or fewer with no custom rules, or an entry in their place that is no list |
| RuleLimits.StaleCountIff | crates/control-tower-service-core/src/active_config.rs:317-334 | A merge with count n is right if and only if n is the number of profile rules, or is larger with nothing in front |
| RuleLimits.SmallCountCutsProfile | crates/control-tower-service-core/src/active_config.rs:320-325 | A count that is too small cuts exactly the first profile rules |
| RuleLimits.AppendThenMerge | crates/control-tower-service-core/src/active_config.rs:178-192 | Appended rules displace as many rules from the front of the profile at the next merge |
| RuleLimits.AppendThenAddIff | crates/control-tower-service-core/src/active_config.rs:274-288 | Appending to an aligned config and then adding a rule keeps every rule if and only if nothing was appended |
| RuleLimits.DeleteProviderKeepsProfileIff | crates/control-tower-service-core/src/active_config.rs:206-223 | Deleting a provider leaves the profile part whole if and only if no profile rule has the provider rule's text |
| RuleLimits.AddRuleKeepsIff | crates/control-tower-service/src/api/rules_handlers.rs:243-304 | A new rule is detected as custom, and the invariant kept, if and only if no profile rule has its text |
| RuleLimits.AddProviderKeepsIff | crates/control-tower-service/src/api/rule_provider_handlers.rs:133-162 | Adding a provider keeps the invariant if and only if no profile rule has the text of its rule |
| RuleLimits.ClearLeavesProfileIff | crates/control-tower-service/src/api/rules_handlers.rs:429-446 | Clearing leaves exactly the profile rules if and only if there were no custom rules, or the profile is not empty and shares no text with them |
| RuleLimits.ActivationFoundIff | crates/control-tower-service/src/api/profile_handlers.rs:19-33 | The rules of an activated profile are found again if and only if its item names the file that activation resolved; otherwise every deletion is refused |
| RuleLimits.ActivationKeepsIff | crates/control-tower-service/src/api/profile_handlers.rs:336-502 | A served activation reaches the invariant if and only if the item names the file that was used and its rules are a non-empty list of texts, none of them a custom rule |
| RuleLimits.RefreshKeepsIff | crates/control-tower-service/src/api/profile_handlers.rs:896-941 | A served refresh of the current profile keeps the invariant if and only if the download is such a profile with as many rules as before |
| RuleLimits.SwitchKeepsIff | crates/control-tower-service-core/src/active_config.rs:60-126 | A switch reaches the invariant if and only if the profile is good, the lookup finds its rules and their number is stored |
| RuleLimits.StaleFileDeleteIff | crates/control-tower-service/src/scheduler.rs:588-592 | After the scheduler rewrote the active profile's file, a deletion keeps the profile part whole if and only if its first rule is still in the file and no stored custom rule is |
| RuleLimits.StaleFileDeletesProfileRule | crates/control-tower-service/src/api/rules_handlers.rs:346-366 | With no stored custom rules a deletion after such a rewrite is served exactly below the first rule still in the file, and removes a rule of the profile |
| RuleLimits.AddedProviderListed | crates/control-tower-service/src/api/rule_provider_handlers.rs:134-140 | An accepted provider is afterwards the only one of its name, and all others are kept |
| RuleLimits.DeletedProviderUnlisted | crates/control-tower-service/src/api/rule_provider_handlers.rs:280-290 | A deletion takes out every provider of the name and no other, and is refused exactly when there is none |
| RuleLimits.ActivateDefinesProviders | crates/control-tower-service/src/api/profile_handlers.rs:493-502 | An activation defines exactly the stored providers, once there are any |
| RuleLimits.RefreshDefinesProviders | crates/control-tower-service/src/api/profile_handlers.rs:926-935 | A refresh of the current profile that brings a mapping defines exactly the stored providers; one that is no YAML rewrites that section of the old config only |
| ProviderRuns.ProviderRoundTrip | crates/control-tower-service-core/src/profiles.rs:86-106 | The definition written for a provider reads back as that provider, field by field |
| ProviderRuns.SectionReadsBack | crates/control-tower-service-core/src/active_config.rs:369-394 | A written section reads back, name by name, as the list it came from, the last provider of a name winning |
| ProviderRuns.AddedIsDefined | crates/control-tower-service/src/api/rule_provider_handlers.rs:133-159 | An added provider is stored and defined exactly as given; others stay as stored |
| ProviderRuns.UpdatedIsDefined | crates/control-tower-service/src/api/rule_provider_handlers.rs:195-264 | After a new interval every provider is defined as it is stored |
| ProviderRuns.DeletedIsUndefined | crates/control-tower-service/src/api/rule_provider_handlers.rs:279-311 | A deleted provider is neither stored nor defined; every other definition stays |
| ProviderRuns.ActivationDefines | crates/control-tower-service/src/api/profile_handlers.rs:493-502 | A served activation defines every stored provider, whatever the config was |
| ProviderRuns.ActivationWithoutStored | crates/control-tower-service/src/api/profile_handlers.rs:493-502 | With no provider stored the definitions after an activation are the profile's own |
| ProviderRuns.UrlEditDefinesIff | crates/control-tower-service/src/api/profile_handlers.rs:737-764 | A new URL keeps the definitions if and only if the download is a mapping that defines the stored providers alike |
| ProviderRuns.StepDefines | crates/control-tower-service/src/api/mod.rs:60-115 | No other request takes a stored provider's definition out of the config or changes it |
| ProviderRuns.RunDefinesProviders | crates/control-tower-service/src/api/profile_handlers.rs:493-502 | Over every run without a new URL of the current profile, and whose refreshes bring mappings, the config defines every stored provider exactly as it is stored |
| RuleLimits.UpdateDropsProviders | crates/control-tower-service/src/api/profile_handlers.rs:737-764 | Editing the active profile's URL leaves exactly the providers that the download defines |
| RuleLimits.AddProviderWithoutConfig | crates/control-tower-service/src/api/rule_provider_handlers.rs:150-159 | Without a config file the provider is stored, the request fails, and the file becomes an empty document that takes no rules |
| RuleLimits.LookupKeptIff | crates/control-tower-service/src/api/rules_handlers.rs:132-218 | With config and settings unchanged the boundary survives if and only if the lookup still finds the same profile rules |
| RuleLimits.EditKeepsIff | crates/control-tower-service/src/api/profile_handlers.rs:608-616 | An edit of the current profile keeps the boundary if and only if the short file name it stores finds the same rules |
| RuleLimits.UrlEditKeepsIff | crates/control-tower-service/src/api/profile_handlers.rs:608-764 | A new URL for the current profile establishes the invariant if and only if the download is a good profile and the file written is the one the stored name finds, or that one holds the same rules |
| RuleLimits.UnparsableEditKeepsIff | crates/control-tower-service/src/api/profile_handlers.rs:737-755 | A new URL whose download is no YAML fails, leaves the config, and keeps the invariant if and only if the overwritten file is not the active one |
| RuleLimits.FetchKeepsIff | crates/control-tower-service/src/scheduler.rs:352-437 | Fetching files keeps the boundary if and only if the active file, if fetched, keeps its rules |
| RuleLimits.OtherRefreshKeepsIff | crates/control-tower-service/src/api/profile_handlers.rs:902-903 | Refreshing another profile keeps the boundary if and only if it does not share the active file or brings the same rules |
| RuleLimits.RefusedActivationKeepsIff | crates/control-tower-service/src/api/profile_handlers.rs:376-448 | A refused script or merge activation keeps the boundary if and only if the file it has already written is not the active one or has its rules |
| RuleLimits.DeleteProfileKeepsIff | crates/control-tower-service/src/api/profile_handlers.rs:985-1047 | Deleting a profile keeps the boundary if and only if it is not current and does not share the active file |
| RuleLimits.AddProfileKeepsIff | crates/control-tower-service/src/api/profile_handlers.rs:164-333 | Creating a profile keeps the boundary if and only if its short file name is not the active one or its content has the same rules |
| RuleSamples.SampleRefreshLosesRule | crates/control-tower-service/src/api/profile_handlers.rs:921-925 | A state and a refresh after which the next added rule loses the first profile rule |
| RuleSamples.SampleAppendLosesRule | crates/control-tower-service-core/src/active_config.rs:178-192 | A state in which an appended rule makes the next added rule lose the first profile rule |
| RuleSamples.SampleProviderDeletionLosesRule | crates/control-tower-service/src/api/rule_provider_handlers.rs:292-311 | A state in which deleting a provider removes the same rule from the profile part |
| RuleSamples.SampleClearLeavesRules | crates/control-tower-service/src/api/rules_handlers.rs:389-449 | A state with an empty profile in which clearing forgets a custom rule and leaves it in the config |
| RuleSamples.SampleActivationNotFound | crates/control-tower-service/src/api/profile_handlers.rs:19-33 | A state and an activation after which the custom rule in the config cannot be deleted |
| RuleSamples.SampleStaleFileLosesRule | crates/control-tower-service/src/scheduler.rs:588-592 | A state and a fetch after which deleting the custom rule also loses the first profile rule |
| RuleSamples.SampleStaleFileUnsetCustom | crates/control-tower-service/src/api/rules_handlers.rs:346-366 | A state without custom rules and a fetch after which a deletion removes the first profile rule |
| InvariantSamples.SampleAddedRuleRepeats | crates/control-tower-service/src/api/rules_handlers.rs:243-304 | A new rule with the text of a profile rule leaves the invariant |
| InvariantSamples.SampleAddedProviderRepeats | crates/control-tower-service/src/api/rule_provider_handlers.rs:133-162 | So does a new provider whose rule the profile has |
| InvariantSamples.SampleDeleteCurrent | crates/control-tower-service/src/api/profile_handlers.rs:985-1047 | So does deleting the current profile |
| InvariantSamples.SampleShortNameClash | crates/control-tower-service/src/api/profile_handlers.rs:164-333 | So does creating a profile whose uid begins with the eight characters that name the active file |
| InvariantSamples.SampleTwoNames | crates/control-tower-service/src/api/profile_handlers.rs:608-764 | So do an edit and a new URL when the stored name is the full uid and a file of the short name exists |
| InvariantSamples.SampleSharedRefresh | crates/control-tower-service/src/api/profile_handlers.rs:902-903 | So does refreshing another profile that names the active file |
| InvariantSamples.SampleSharedScript | crates/control-tower-service/src/api/profile_handlers.rs:378-448 | So does activating a script profile of that file, although it is refused |
| InvariantSamples.SampleActivateEmpty | crates/control-tower-service/src/api/profile_handlers.rs:336-502 | A served activation of a profile without rules does not reach the invariant |
| InvariantSamples.SampleRefreshGrows | crates/control-tower-service/src/api/profile_handlers.rs:896-941 | A refresh that brings one rule more leaves the invariant |
| Handlers.ControlTower.DetectCustomCount | crates/control-tower-service/src/api/rules_handlers.rs:132-218 | The loop finds the position of the first rule that the current profile's file holds, and 0 whenever a lookup step fails |
| Handlers.ControlTower.GetRules | crates/control-tower-service/src/api/rules_handlers.rs:43-127 | Listed items are numbered 1..n, concatenate back to the config rules, and the two counts add up |
| Handlers.ControlTower.AddRule | crates/control-tower-service/src/api/rules_handlers.rs:221-304 | Custom rules, stored count and config after adding a rule, or nothing changed for an unknown proxy |
| Handlers.ControlTower.DeleteRule | crates/control-tower-service/src/api/rules_handlers.rs:310-383 | Stores and outcome of a deletion, including refusal and panic |
| Handlers.ControlTower.ClearRules | crates/control-tower-service/src/api/rules_handlers.rs:389-449 | Stores and outcome of clearing, including the settings already cleared when the config is missing |
| Handlers.ControlTower.AddProvider | crates/control-tower-service/src/api/rule_provider_handlers.rs:93-192 | Stores and outcome of adding a provider, with the existing rule left in place |
| Handlers.ControlTower.UpdateProvider | crates/control-tower-service/src/api/rule_provider_handlers.rs:195-264 | The first provider of that name gets the interval; unknown names change nothing |
| Handlers.WithIntervalAt | crates/control-tower-service/src/api/rule_provider_handlers.rs:213-220 | An update changes the interval of the provider of that name that no other of the name precedes, and nothing else |
| Handlers.ControlTower.DeleteProvider | crates/control-tower-service/src/api/rule_provider_handlers.rs:267-345 | Stores and outcome of deleting a provider, with a missing rule in the config tolerated |
| Handlers.ControlTower.Activate | crates/control-tower-service/src/api/profile_handlers.rs:336-514 | Stores and outcome of an activation, the restart and its mode write included |
| Handlers.ControlTower.UpdateProfile | crates/control-tower-service/src/api/profile_handlers.rs:519-793 | Stores and outcome of a profile edit: blank or null URL and invalid cron refused, a download that is no YAML failing after the file is written, the restart after a new URL of the active profile |
| Handlers.ControlTower.RefreshProfile | crates/control-tower-service/src/api/profile_handlers.rs:796-982 | Stores and outcome of a refresh: whatever came back is the new file, the config follows if it is YAML, providers are defined either way, the count is left alone, and a restart follows when the hot reload failed |
| Handlers.ControlTower.AddProfile | crates/control-tower-service/src/api/profile_handlers.rs:164-333 | Stores and outcome of creating a profile under its short file name |
| Handlers.ControlTower.DeleteProfile | crates/control-tower-service/src/api/profile_handlers.rs:985-1047 | The item, the file it resolves to and a current marker on it are gone; config, settings and count stay |
| Handlers.ControlTower.FetchProfiles | crates/control-tower-service/src/scheduler.rs:352-437 | Profile files are rewritten and nothing else is |
| Handlers.ControlTower.RestartProxy | crates/control-tower-service/src/service/lifecycle.rs:11-45 | A new process gets the stored mode written into the config; a failed or needless start writes nothing |
| Handlers.ControlTower.StartService | crates/control-tower-service/src/api/service_handlers.rs:26-41 | Stores and outcome of a start request |
| Handlers.ControlTower.PutSettings | crates/control-tower-service/src/api/settings_handlers.rs:22-70 | Saving the form keeps the fields of the rule subsystem |
| Handlers.ControlTower.SetMode | crates/control-tower-service/src/service/config_ops.rs:60-128 | Mode in config and settings, kept even when the running proxy cannot be told; an unknown mode or a missing config changes nothing |
| Handlers.ControlTower.ApplyPorts | crates/control-tower-service/src/service/config_ops.rs:131-206 | The three port keys of the config, the saved settings, and the restart with its mode write |
| Handlers.ControlTower.ApplyTun | crates/control-tower-service/src/service/config_ops.rs:230-400 | The TUN section is written or removed, the switch saved, and the restart writes the stored mode |
| Handlers.ControlTower.PutDns | crates/control-tower-service/src/api/settings_handlers.rs:123-181 | The DNS section is written or removed, and the settings saved |
| Handlers.ControlTower.SetPassword | crates/control-tower-service/src/api/auth_handlers.rs:156-192 | The key is stored, authentication is switched on when it was never set up, and a short password changes nothing |
| Handlers.ControlTower.Serve | crates/control-tower-service/src/api/mod.rs:60-115 | Whatever the request, the stores follow the step function, and an admissible request keeps the boundary invariant |
| RequestLaws.AddRuleAnswer | crates/control-tower-service/src/api/rules_handlers.rs:221-304 | A rule is refused exactly for an unknown proxy among known ones, and stored last otherwise |
| RequestLaws.FirstRuleCreatesConfig | crates/control-tower-service-core/src/active_config.rs:299-316 | Without a config the first rule creates one in mode "rule" with the custom rules |
| RequestLaws.DeleteRuleAnswer | crates/control-tower-service/src/api/rules_handlers.rs:310-383 | When a deletion is refused, panics or is served, which rule goes, and when the stored list becomes unset |
| RequestLaws.ClearAnswer | crates/control-tower-service/src/api/rules_handlers.rs:389-449 | Clearing forgets the stored rules unless it is about the profile's, and fails exactly without a config |
| RequestLaws.RuleRequestFrame | crates/control-tower-service/src/api/rules_handlers.rs:452-476 | Rule requests keep all other settings, the providers, the profiles and their files |
| RequestLaws.ProviderRequestFrame | crates/control-tower-service/src/api/rule_provider_handlers.rs:133-311 | Provider requests keep all settings but providers and custom rules, the profiles and their files |
| RequestLaws.AddProviderAnswer | crates/control-tower-service/src/api/rule_provider_handlers.rs:93-192 | Exactly which providers are invalid, and exactly when a valid one fails on the config |
| RequestLaws.UpdateProviderAnswer | crates/control-tower-service/src/api/rule_provider_handlers.rs:195-264 | A new interval is refused for unknown names only |
| RequestLaws.ActivateAnswer | crates/control-tower-service/src/api/profile_handlers.rs:336-502 | When an activation is refused, by kind of profile and by the keys of its content; what becomes current, which file is written and which count is stored |
| RequestLaws.UpdateAnswer | crates/control-tower-service/src/api/profile_handlers.rs:519-735 | When an edit is refused, in the order of the checks |
| RequestLaws.UpdateStoresItem | crates/control-tower-service/src/api/profile_handlers.rs:606-786 | An edit stores the new URL, or the short file name of a long uid, in that profile alone |
| RequestLaws.UpdateWritesFile | crates/control-tower-service/src/api/profile_handlers.rs:647-764 | A new URL writes its download to one file; config and count switch for the current profile only |
| RequestLaws.RefreshAnswer | crates/control-tower-service/src/api/profile_handlers.rs:796-941 | The refusals of a refresh in order, and what a served one leaves alone |
| RequestLaws.AddProfileAnswer | crates/control-tower-service/src/api/profile_handlers.rs:164-333 | A created profile is listed last under the first eight characters of its uid, with its content in that file; a remote one needs a URL and a download |
| RequestLaws.DeleteProfileAnswer | crates/control-tower-service/src/api/profile_handlers.rs:985-1047 | A deletion takes out exactly the profile, its file, and the marker if it was current |
| RequestLaws.FormKeeps | crates/control-tower-service/src/api/settings_handlers.rs:22-70 | The settings form cannot change rule, provider, DNS, history and login fields, the mixed port or https |
| RequestLaws.FormSets | crates/control-tower-service/src/api/settings_handlers.rs:35-57 | Every other field takes the submitted value, or stays when none is submitted |
| RequestLaws.PortsStored | crates/control-tower-service/src/service/config_ops.rs:131-196 | The port form stores each port under its own name, the local host and the service port, and nothing else |
| RequestLaws.TunStored | crates/control-tower-service/src/service/config_ops.rs:359-390 | The TUN form stores the switch, the local host and the service port, and nothing else |
| RequestLaws.DnsStored | crates/control-tower-service/src/api/settings_handlers.rs:123-181 | DNS settings are stored as submitted, on or off |
| RequestLaws.ModeAnswer | crates/control-tower-service/src/api/proxy_handlers.rs:70-96 | The three modes are accepted and stored; a proxy that cannot be told turns the reply into an error |
| RequestLaws.NoConfigNoChange | crates/control-tower-service/src/service/config_ops.rs:103-356 | The network forms change nothing without a config |
| RequestLaws.PasswordStored | crates/control-tower-service/src/api/auth_handlers.rs:156-192 | A password is stored when long enough, and the first one switches authentication on |
| RequestLaws.FailedRestart | crates/control-tower-service/src/service/lifecycle.rs:173-193 | A failed restart turns a served request into an error and keeps what it stored |
| ActiveConfig.ActiveConfigStore.ReplaceFromProfile | crates/control-tower-service-core/src/active_config.rs:60-126 | The per-key result of a profile switch and the number of profile rules; an error and an unchanged file for a text that is no YAML |
| ActiveConfig.ActiveConfigStore.ExtractUserOverrides | crates/control-tower-service-core/src/active_config.rs:135-165 | Exactly the listed keys that the old config defines are taken over |
| ActiveConfig.ActiveConfigStore.PrependAll | crates/control-tower-service-core/src/active_config.rs:117-122 | Inserting at position 0 from the last rule to the first keeps the custom order |
| ActiveConfig.ActiveConfigStore.MergeRulesWithCustom | crates/control-tower-service-core/src/active_config.rs:294-341 | The rules become the custom rules followed by the last n existing ones |
| ActiveConfig.ActiveConfigStore.PrependRule | crates/control-tower-service-core/src/active_config.rs:195-203 | One rule in front, or an error and an unchanged file |
| ActiveConfig.ActiveConfigStore.AppendRule | crates/control-tower-service-core/src/active_config.rs:178-192 | One rule at the end; a missing file starts from the default config |
| ActiveConfig.ActiveConfigStore.ImportRules | crates/control-tower-service-core/src/active_config.rs:274-288 | A list of rules at the end; nothing for an empty list |
| ActiveConfig.ActiveConfigStore.RemoveRuleByContent | crates/control-tower-service-core/src/active_config.rs:206-223 | Every entry with that text goes; an error and an unchanged file when there is none |
| ActiveConfig.ActiveConfigStore.SetRuleProviders | crates/control-tower-service-core/src/active_config.rs:369-394 | The section is replaced, the last provider of a name winning |
| ActiveConfig.ActiveConfigStore.RemoveRuleProvider | crates/control-tower-service-core/src/active_config.rs:397-406 | One provider leaves the section; an error without a file |
| ConfigLaws.StickyValue | crates/control-tower-service-core/src/active_config.rs:107-165 | After any run of switches a sticky key holds the old value, else that of the first profile that defined it, counted from the last switch to a document that is no mapping |
| ConfigLaws.StickyKeepsFirst | crates/control-tower-service-core/src/active_config.rs:107-165 | After a run of switches a sticky key holds the value of the first profile that defined it |
| ConfigLaws.StickyUnset | crates/control-tower-service-core/src/active_config.rs:107-165 | A sticky key that nobody defines stays undefined |
| ConfigLaws.StickyKeepsOld | crates/control-tower-service-core/src/active_config.rs:107-165 | A sticky key that the old config defines survives every run of switches to mappings |
| ConfigLaws.OtherKeysFollowLast | crates/control-tower-service-core/src/active_config.rs:43-48 | Every other key outside ports and rules, allow-lan and bind-address included, is the last profile's |
| ConfigLaws.PortsFollowSettings | crates/control-tower-service-core/src/active_config.rs:88-105 | Port keys are the settings' over the last profile's and never an older config's |
| ConfigLaws.OnlyStickyKeysMatter | crates/control-tower-service-core/src/active_config.rs:107-115 | Old configs that agree on the six sticky keys are replaced by the same document |
| ConfigLaws.SwitchByName | crates/control-tower-service-core/src/active_config.rs:107-165 | By name: mode, redirection ports, log level, DNS and TUN stay; allow-lan, bind-address, proxies, providers and all other keys are the profile's |
| ConfigLaws.SwitchPortsByName | crates/control-tower-service-core/src/active_config.rs:88-105 | By name: the listening ports are the settings', else the profile's |
| ConfigLaws.EndpointReadsBack | crates/control-tower-service-core/src/active_config.rs:99-104 | Host and port can be read back from the controller address |
| ConfigLaws.DecimalRoundTrip | crates/control-tower-service-core/src/active_config.rs:99-104 | A printed port is digits that denote the same number |
| ConfigLaws.SwitchIdempotent | crates/control-tower-service-core/src/active_config.rs:60-126 | The same switch twice equals once |
| ConfigLaws.SwitchRules | crates/control-tower-service-core/src/active_config.rs:117-122 | After a switch the rules are the custom rules in order, then the profile's |
| ConfigLaws.MergeRestores | crates/control-tower-service-core/src/active_config.rs:317-334 | One merge with the right count restores custom plus profile, whatever stood in front |
| ConfigLaws.MergeTwiceIff | crates/control-tower-service-core/src/active_config.rs:317-334 | Two merges act like the second alone if and only if the list held n rules or the first added none |
| ConfigLaws.MergeIdempotentIff | crates/control-tower-service-core/src/active_config.rs:317-334 | Repeating a merge is harmless under exactly that condition |
| ConfigLaws.MergeTwiceDocumentIff | crates/control-tower-service-core/src/active_config.rs:294-341 | The same for whole documents, those that are no mapping included |
| ConfigLaws.MergeDocument | crates/control-tower-service-core/src/active_config.rs:336-340 | A merge changes the rules entry and nothing else |
| ConfigLaws.CountFitsMergeIff | crates/control-tower-service-core/src/active_config.rs:81-86 | The count of a switch fits the next merge if and only if all entries are text or there were no custom rules |
| ConfigLaws.MergeRouting | crates/control-tower-service-core/src/active_config.rs:290-293 | After a merge each packet gets the first matching custom rule's policy, else the profile's |
| OverrideRuns.OtherKeysUnchanged | crates/control-tower-service/src/service/config_ops.rs:103-356 | A request that does not switch profiles changes no config key but the few it is about, the mode among them when it starts a process |
| OverrideRuns.WrittenKeys | crates/control-tower-service/src/service/config_ops.rs:103-356 | Mode, port, TUN and DNS writers leave exactly the requested value under their key, the controller address included, or no entry when switched off |
| OverrideRuns.StickySurvives | crates/control-tower-service/src/api/profile_handlers.rs:896-941 | A sticky value survives a request that does not write its key, profile switches included, if and only if the request does not replace the config by a document that is no mapping |
| OverrideRuns.StickySurvivesRun | crates/control-tower-service-core/src/active_config.rs:43-45 | A sticky value is in the config throughout a run of requests that leave its key alone if and only if no refresh or new URL of the current profile brings a document that is no mapping; to start a process is to write the mode |
| OverrideRuns.ThroughoutMeans | crates/control-tower-service-core/src/active_config.rs:43-45 | "Throughout" means after every prefix of the run |
| OverrideRuns.ModeSurvivesIff | crates/control-tower-service/src/service/lifecycle.rs:39-45 | A mode in the config survives a request that sets none if and only if no document without keys replaces the config, and no process is started, or settings.yaml holds no mode, or the same one |
| OverrideRuns.StartRestoresMode | crates/control-tower-service/src/service/lifecycle.rs:39-45 | A started process leaves the mode of settings.yaml in the config, whatever stood there |
| OverrideRuns.FormOverridesMode | crates/control-tower-service/src/api/settings_handlers.rs:22-70 | A mode change, a settings form with another mode and a TUN switch end in the form's mode exactly when the switch starts a process |
| OverrideRuns.SampleFormOverridesMode | crates/control-tower-service/src/service/config_ops.rs:359-400 | The run "rule", form "global", TUN on with a started process ends with "global" in the config |
| OverrideRuns.FirstStartDropsMode | crates/control-tower-service/src/service/settings_ops.rs:73-97 | On a fresh installation the first started activation replaces the profile's mode by "rule"; without a start the profile's mode stays |
| OverrideRuns.SetModeSticks | crates/control-tower-service/src/service/config_ops.rs:60-128 | The mode a user sets is in config and settings throughout a run in which neither a mode change nor a settings form submits another one, restarts and switches included, if and only if no refresh or new URL of the run brings a document that is no mapping |
| OverrideRuns.PlainTextWipesMode | crates/control-tower-service/src/api/profile_handlers.rs:896-923 | A mode change followed by a refresh of the current profile that returns plain text ends with no mode and no rules in the config |
| InvariantSamples.SamplePlainTextWipesMode | crates/control-tower-service/src/api/profile_handlers.rs:896-923 | A concrete state and run of that kind, ending with the mode "global" in settings.yaml only |
| OverrideRuns.ConfigStaysYaml | crates/control-tower-service/src/api/profile_handlers.rs:916-935 | No request leaves a config.yaml that is no YAML |
| OverrideRuns.PortsDoNotStick | crates/control-tower-service/src/service/config_ops.rs:131-151 | A port written into the config is replaced at the next activation by the settings' or the profile's |
| OverrideRuns.PortsAfterActivation | crates/control-tower-service/src/api/profile_handlers.rs:470-477 | After an activation the mixed port falls back to the HTTP port, and the controller address needs host and port |
| RequestLaws.PortsSurviveActivation | crates/control-tower-service/src/api/profile_handlers.rs:466-477 | Ports from the port form reach the config again at the next activation, each under its own name, with the controller on the local host |
| AtomicWrite.AtomicReplacement | crates/control-tower-service-core/src/active_config.rs:344-350 | With temporary file and rename, after any prefix of steps with crashes and retries, the active file is the last committed version, and readers see complete versions in commit order |
| AtomicWrite.RetryCommits | crates/control-tower-service-core/src/active_config.rs:344-350 | After any run, a writer that died half way included, the next write through a temporary file makes its version active and complete and leaves no temporary file |
| AtomicWrite.CommittedUnlessTorn | crates/control-tower-service/src/service/config_ops.rs:120-127 | With writers that open config.yaml itself, the file is the last committed version if and only if the last in-place write finished or was followed by a rename |
| AtomicWrite.SampleTornWrite | crates/control-tower-service/src/service/config_ops.rs:123-124 | A concrete run in which a reader sees half of a mode change |
| Settings.SettingsStore.SaveSettings | crates/control-tower-service/src/service/settings_ops.rs:136-194 | Set fields win over stored ones; mixed port and https are never written |
| Settings.SettingsStore.WriteCustomRules | crates/control-tower-service/src/api/rules_handlers.rs:452-476 | Only the custom rules change; an empty list is stored as unset |
| Settings.SettingsStore.UpdateProfileRulesCount | crates/control-tower-service/src/api/helpers.rs:69-89 | Only the count changes |
| Settings.SaveAllIsOneSave | crates/control-tower-service/src/service/settings_ops.rs:148-181 | Any sequence of saves equals one save of the saves laid over each other |
| Settings.SavesNeverLose | crates/control-tower-service/src/service/settings_ops.rs:158-181 | Over any run of saves no field goes from set to unset, and mixed port and https never change |
| Settings.SavesKeepLast | crates/control-tower-service/src/service/settings_ops.rs:158-177 | A merged field holds the last value that any save of the run set |
| Settings.RuleFieldsKeepLast | crates/control-tower-service/src/service/settings_ops.rs:168-175 | Custom rules, count, providers, mode and DNS hold what the last save that set them submitted, else what was stored |
| Settings.EndpointsKeepLast | crates/control-tower-service/src/service/settings_ops.rs:158-164 | Addresses, ports, TUN switch and log level each hold the last value submitted for them |
| Settings.RuntimeKeepsLast | crates/control-tower-service/src/service/settings_ops.rs:165-170 | So do the runtime switches, the modes and the latency test |
| Settings.RecordsKeepLast | crates/control-tower-service/src/service/settings_ops.rs:171-181 | So do the rule fields, DNS, history settings and login |
| Settings.ClosedListKeepsLast | crates/control-tower-service/src/service/settings_ops.rs:176-180 | The list of closed connections is replaced by a non-empty one only |
| Profiles.MergeProfiles | crates/control-tower-service/src/api/profile_handlers.rs:69-139 | The merge succeeds if and only if every listed profile loads, fails with the first that does not, and joins the three sections |
| Profiles.LoadedIff | crates/control-tower-service/src/api/profile_handlers.rs:75-91 | A profile loads for a merge if and only if it is listed and its file exists and parses |
| Profiles.ResolveFinds | crates/control-tower-service/src/api/profile_handlers.rs:19-33 | Which of the three candidate files a profile resolves to |
| Profiles.FindItemFirst | crates/control-tower-service/src/api/profile_handlers.rs:363-369 | A lookup finds the first item of the uid |
| Profiles.ProxiesJoined | crates/control-tower-service/src/api/profile_handlers.rs:93-105 | Merged proxies are always the in-order join of all proxy lists |
| Profiles.SectionJoined | crates/control-tower-service/src/api/profile_handlers.rs:107-133 | For groups and rules the first profile that defines the section decides: a list is extended by all later lists, anything else stays and silences them |
| Profiles.MergeHomomorphism | crates/control-tower-service/src/api/profile_handlers.rs:75-135 | With list-typed sections merging two groups of profiles appends the two merges |
| Profiles.NonListFirstDropsLater | crates/control-tower-service/src/api/profile_handlers.rs:121-133 | A first rules section that is no list leaves the merge without any rule |
| Profiles.LeftmostProfileDecides | crates/control-tower-service/src/api/profile_handlers.rs:121-133 | Under first match the left-most profile with a matching rule decides a packet |
| MergedActivation.MergeReachesFile | crates/control-tower-service/src/api/profile_handlers.rs:396-418 | A served activation of a merge profile: every part has loaded, the file holds their merge, and the config is switched to it |
| MergedActivation.MergeReachesConfig | crates/control-tower-service/src/api/profile_handlers.rs:93-133 | The config then has all proxies of the parts in order, their groups by the first part that has any, and mode "rule" unless the old config has another |
| MergedActivation.MergeRoutes | crates/control-tower-service/src/api/profile_handlers.rs:121-133 | A packet is decided by the stored custom rules, else by the left-most part with a rule that hits it |
| CircuitBreakers.StateIsHistory | crates/control-tower-service-core/src/state.rs:15-85 | The three fields are exactly what the failures since the last success dictate, and the count never exceeds three |
| CircuitBreakers.AllowedIffHistoryAdmits | crates/control-tower-service-core/src/state.rs:44-55 | A start is let through if and only if fewer than three failures followed the last success or 60 s passed since the third |
| CircuitBreakers.ThirdFailureCostsAMinute | crates/control-tower-service-core/src/state.rs:15-55 | In numbers: starts are held back for exactly 60 seconds from the third failure since the last success |
| CircuitBreakers.ReachableAgrees | crates/control-tower-service-core/src/state.rs:88-106 | In every reachable state broken, count three and a recorded time coincide, and the three queries agree |
| CircuitBreakers.QueriesAgreeIff | crates/control-tower-service-core/src/state.rs:44-101 | For arbitrary fields "allowed" and "nothing remaining" agree unless broken with no time recorded |
| CircuitBreakers.RemainingIsRoundedDown | crates/control-tower-service-core/src/state.rs:88-101 | The reported seconds are the wait rounded down, so 0 can be reported while starts are refused |
| CircuitBreakers.OneCooldownPerStreak | crates/control-tower-service-core/src/state.rs:58-63 | Once the cooldown is over, further failures never start another one before a success |
| CircuitBreakers.CircuitBreaker.IsAllowed | crates/control-tower-service-core/src/state.rs:44-55 | The query decides by the fields and the clock |
| CircuitBreakers.CircuitBreaker.RecordFailure | crates/control-tower-service-core/src/state.rs:58-75 | A failure is counted, trips the breaker at three, and is ignored once broken |
| CircuitBreakers.CircuitBreaker.RecordSuccess | crates/control-tower-service-core/src/state.rs:78-85 | A success closes the breaker |
| CircuitBreakers.CircuitBreaker.RemainingCooldownSecs | crates/control-tower-service-core/src/state.rs:88-101 | Whole seconds left, or none |
| Lifecycle.MihomoManager.Start | crates/control-tower-service-core/src/mihomo.rs:173-291 | Child, config path, breaker and result for every environment outcome of a start |
| Lifecycle.MihomoManager.Stop | crates/control-tower-service-core/src/mihomo.rs:309-316 | The child is gone, or nothing changed when killing failed |
| Lifecycle.ServiceState.Start | crates/control-tower-service/src/service/lifecycle.rs:11-28 | A running process is left alone; a started one gets a start time and a config path |
| Lifecycle.ServiceState.Stop | crates/control-tower-service/src/service/lifecycle.rs:117-124 | The start time is cleared only when the stop succeeded |
| Lifecycle.ServiceState.RestartMihomo | crates/control-tower-service/src/service/lifecycle.rs:173-184 | Stop and start with the last config, or an error without one |
| Lifecycle.ServiceState.RestartWithConfig | crates/control-tower-service/src/service/lifecycle.rs:187-193 | The config path is remembered before the stop and start |
| Lifecycle.ServiceState.Status | crates/control-tower-service/src/service/lifecycle.rs:127-165 | The report computed from child, start time and breaker |
| Lifecycle.StartOutcome | crates/control-tower-service-core/src/mihomo.rs:173-291 | When a start succeeds, is refused or fails, when the process runs afterwards, and what the breaker is told, the unopened log being the one failure it is not told of |
| Lifecycle.StartEffect | crates/control-tower-service/src/service/lifecycle.rs:11-28 | A start that brings up a process takes its id, the given config path and the time of the attempt; a failed one leaves start time and config path |
| Lifecycle.FailedStart | crates/control-tower-service-core/src/mihomo.rs:189-291 | What a failed start leaves: no process and no id when the new one died or the service cannot find itself, the old exited one otherwise, and the given config path exactly when a process was spawned |
| Lifecycle.StartOfRunning | crates/control-tower-service/src/service/lifecycle.rs:12-16 | A start of a running service changes nothing |
| Lifecycle.StopOutcome | crates/control-tower-service/src/service/lifecycle.rs:117-124 | A stop is served exactly without a process or when it can be killed; then process and start time are gone, otherwise nothing has changed |
| Lifecycle.RestartReplaces | crates/control-tower-service/src/service/lifecycle.rs:173-193 | A restart with a working kill in a favourable environment replaces the process by the spawned one on the last or the given config |
| Lifecycle.RestartWithoutKill | crates/control-tower-service/src/service/lifecycle.rs:173-193 | A restart whose kill fails keeps the old process and is served; another config given is remembered although the process never read it |
| Lifecycle.ReportShows | crates/control-tower-service/src/service/lifecycle.rs:127-165 | The report has the process id until the stop, also of an exited process, and the last config path |
| Lifecycle.RunningImpliesClosed | crates/control-tower-service-core/src/mihomo.rs:173-291 | In every reachable state a running child means a closed breaker and no failure since the last success |
| Lifecycle.StatusNeverBroken | crates/control-tower-service/src/service/lifecycle.rs:142-155 | The report never says CircuitBroken, never shows a cooldown, and shows the uptime exactly when running |
| Lifecycle.OpenBreakerIsHidden | crates/control-tower-service/src/service/lifecycle.rs:143-155 | While the breaker holds starts back the report says NotRunning with no cooldown |
| Lifecycle.StartRefusedIff | crates/control-tower-service-core/src/mihomo.rs:179-187 | A start of a stopped service is refused if and only if the history of the whole run does not admit it |
| Lifecycle.RestartOfRunningNotRefused | crates/control-tower-service/src/service/lifecycle.rs:173-184 | Restarting a running service is never refused by the breaker |
| Scheduler.ParseSchedule | crates/control-tower-service/src/scheduler.rs:58-63 | A schedule exists exactly for 1 to 10080 minutes |
| Scheduler.ClampInvisible | crates/control-tower-service/src/scheduler.rs:126-132 | The delay is min(base * 2^k, 21600) for every k, so the clamp at 20 never shows |
| Scheduler.NoOverflow | crates/control-tower-service/src/scheduler.rs:129-130 | The product before capping fits a signed 64-bit integer |
| Scheduler.BackoffMonotone | crates/control-tower-service/src/scheduler.rs:126-132 | More failures never shorten the delay |
| Scheduler.BackoffAtLeastGap | crates/control-tower-service/src/scheduler.rs:126-132 | A retry waits at least min(base, 21600), and that is at least a minute |
| Scheduler.NeverEarlierIff | crates/control-tower-service/src/scheduler.rs:87-88 | A failing job is never tried earlier than a healthy one if and only if its interval is at most 360 minutes |
| Scheduler.ProfileCronJob.MarkFailure | crates/control-tower-service/src/scheduler.rs:126-132 | Error, failure count and next run after a failure |
| Scheduler.ProfileCronJob.MarkSuccess | crates/control-tower-service/src/scheduler.rs:135-140 | Cleared error and count, last run and next run after a success |
| Scheduler.CronTable.LoadCronJobs | crates/control-tower-service/src/scheduler.rs:213-269 | The table is rebuilt from the profiles with a valid schedule, or unchanged without a readable file |
| Scheduler.LoadedExactly | crates/control-tower-service/src/scheduler.rs:240-268 | A load gives every profile with 1 to 10080 minutes one job with its uid, URL and next run, in order, and no other profile any |
| Scheduler.LoadedDue | crates/control-tower-service/src/scheduler.rs:145-148 | A loaded job is due exactly from that many minutes after the load on |
| Scheduler.ScheduledMeans | crates/control-tower-service/src/scheduler.rs:58-63 | Those profiles are exactly the ones with such a number, each once |
| Scheduler.CronTable.CollectDue | crates/control-tower-service/src/scheduler.rs:274-305 | Exactly the due jobs, with their positions |
| Scheduler.CronTable.ApplyResults | crates/control-tower-service/src/scheduler.rs:321-338 | Each outcome is applied at its position; positions out of range are skipped |
| Scheduler.NoReloadExact | crates/control-tower-service/src/scheduler.rs:272-339 | Without a reload in between every due job gets exactly its own outcome once, a missing URL counting as a failure, and every other job is unchanged |
| Scheduler.ReloadHitsIff | crates/control-tower-service/src/scheduler.rs:321-338 | With a reload in between a reloaded job shows the outcome of its own profile if and only if it stands where that profile was collected, or where another attempt with the same error in the same second was; unnamed positions are unchanged |
| Scheduler.OutcomeShowsIff | crates/control-tower-service/src/scheduler.rs:321-338 | Whatever table stands there by then, a different outcome shows at the collected position and nowhere else |
| Scheduler.SampleReloadHitsWrongJob | crates/control-tower-service/src/scheduler.rs:323-334 | Two profiles that change places: the failure of one is recorded for the other |
| Scheduler.StreakDelay | crates/control-tower-service/src/scheduler.rs:126-140 | Over any history a job counts exactly the failures since its last success and waits base * 2^count, six hours at most, or base after a success |
| CronRuns.TriggersAreSpaced | crates/control-tower-service/src/scheduler.rs:109-148 | Over every run with any outcomes and reloads, two triggers of a profile are at least min(base, 21600) >= 60 seconds apart |
| CronRuns.OneProfileRun | crates/control-tower-service/src/scheduler.rs:272-339 | A profile that is loaded, triggered, updated and triggered again, each an interval after the other |
| CronRuns.CollectionTriggers | crates/control-tower-service/src/scheduler.rs:274-305 | A collection triggers every job that is due and no other |
| CronRuns.TriggersAreDue | crates/control-tower-service/src/scheduler.rs:274-305 | Each trigger is one collected job at that moment, with the distance that its minutes allow, six hours at most |
| CronRuns.Observe | crates/control-tower-service/src/scheduler.rs:213-339 | Collecting, reloading and applying on the table object are the steps of such a run |
| CronRuns.RunGood | crates/control-tower-service/src/scheduler.rs:213-339 | The invariant behind it: outside the collection under way, every job waits its distance from every earlier trigger |
| ConnectionTracker.Tracker.TrackConnections | crates/control-tower-service/src/service/clash_api.rs:74-145 | Afterwards exactly the reported connections are active, and each one that is gone was recorded once with its last values |
| ConnectionTracker.Tracker.GetConnections | crates/control-tower-service/src/service/clash_api.rs:53-71 | A failed query changes nothing; any answer is tracked |
| ConnectionTracker.Tracker.GetConnectionInfo | crates/control-tower-service/src/service/clash_api.rs:148-188 | Tracks the answer, then returns the first connection with the id, nothing, or an error for a malformed answer; a failed query is an error and tracks nothing |
| ConnectionTracker.Tracker.CloseConnection | crates/control-tower-service/src/api/connection_handlers.rs:24-63 | Adds one further record exactly when the id was found, whether or not closing succeeds; a failed lookup leaves the tracker alone |
| ConnectionTracker.Tracker.RecordClosedConnection | crates/control-tower-service/src/service/settings_ops.rs:197-245 | The record goes in front and the list is cut to the maximum under the key that is read, which no save of the service writes, so 500 |
| ConnectionTracker.Tracker.ClearHistory | crates/control-tower-service/src/service/settings_ops.rs:261-269 | The history is empty, active connections stay |
| ConnectionTracker.MetasKeys | crates/control-tower-service/src/service/clash_api.rs:77-83 | Exactly the reported ids are remembered, each under its own id |
| TrackerRuns.LogIsExpected | crates/control-tower-service/src/service/clash_api.rs:74-145 | The log of an id is exactly the ordered list of its ended presences, with the values of the snapshot before, and of the manual closes that found it |
| TrackerRuns.LogShowsSightings | crates/control-tower-service/src/service/clash_api.rs:92-140 | Over every run each record of an id shows, field by field, the last entry of the snapshot before it ended, or the first entry of the snapshot in which a manual close found it |
| TrackerRuns.SampleRecord | crates/control-tower-service/src/service/clash_api.rs:92-140 | A connection with upload 10 and download 2000 that the next poll misses is recorded with exactly these values |
| TrackerRuns.FindIsFirst | crates/control-tower-service/src/service/clash_api.rs:148-160 | The lookup of a manual close takes the first entry with the id |
| TrackerRuns.Observe | crates/control-tower-service/src/service/clash_api.rs:53-71 | Every query of the tracker object is one event of its run, failed queries included |
| TrackerRuns.Conservation | crates/control-tower-service/src/service/clash_api.rs:74-145 | For every id, presences that started plus found manual closes equal its records plus one if it is active |
| TrackerRuns.LogCounts | crates/control-tower-service/src/service/clash_api.rs:85-109 | The records of an id are its ended presences plus the manual closes that found it |
| TrackerRuns.LogLength | crates/control-tower-service/src/api/connection_handlers.rs:35-56 | The log has one entry per disappeared connection and one per found manual close |
| TrackerRuns.LoggedWithLastSeen | crates/control-tower-service/src/service/clash_api.rs:92-107 | A connection that disappears is logged with the values of the last snapshot before |
| TrackerRuns.ManualCloseLogsTwice | crates/control-tower-service/src/api/connection_handlers.rs:42-56 | A found manual close followed by a poll without the connection leaves two records of it |
| TrackerRuns.RecordedIsStored | crates/control-tower-service/src/service/settings_ops.rs:197-245 | What the tracker stores for a list of records is the history that the following rows describe |
| TrackerRuns.HistoryIsNewest | crates/control-tower-service/src/service/settings_ops.rs:229-235 | With changing maxima and clears the stored history is a prefix of the newest-first log and within the last maximum |
| TrackerRuns.HistoryLength | crates/control-tower-service/src/service/settings_ops.rs:229-235 | Its exact length: all records, or what the tightest maximum left plus the records since |
| TrackerRuns.ConstantMaximum | crates/control-tower-service/src/service/settings_ops.rs:211-235 | With one maximum and no clear it is exactly the newest records that fit |

## Left out

- HTTP routing, authentication, TLS, the web UI and the command line's own commands.
- YAML and JSON parsing and printing, key order in mappings, and non-string mapping keys.
- Number parsing of cron texts: a profile carries the number its cron text denotes, if any.
- Upper-casing, trimming and formatting of a new rule: a request carries the finished rule text.
- Script execution, downloads and the outcome of a restart or hot reload are parameters; choosing the last proxy again after a start writes no store.
- The contents of the DNS and TUN sections: each is one value that is written or removed as a whole.
- Runtime patches of the proxy core, latency tests, log buffers, the installer and the updater.
- Removal of a rule by index and the store's own clearing of rules, which no handler calls.
- Name, cron and download-option values of a profile: only the file name that an edit stores and its refusals matter here.
- Request bodies that are no JSON object, and replies of a download that look like an HTML page, which count as failed downloads where the code rejects them.
- Concurrent writers of one file: the code has no lock and one temporary name; writers are serialised here.
- Loss of written data at power failure: a crash ends the writer, and what it wrote stays.
- Failures of `try_wait`, and 32-bit wrap-around of the cron failure count after 2^32 failures in a row.
- RuleInvariant.RunKeepsBoundary: needs the side conditions of `Admissible`, since each of the requests they concern can break the boundary, as the if-and-only-if lemmas of `RuleLimits` say and `InvariantSamples` shows.
- A config.yaml that is no YAML, damaged by hand: requests never leave one (`OverrideRuns.ConfigStaysYaml`).
- ConfigLaws.StickyKeepsFirst: needs every later profile to be a mapping; `ConfigLaws.StickyValue` is the law without that condition.
- Profiles.MergeHomomorphism: needs list-typed sections; `Profiles.SectionJoined` gives the merge without that condition.
