/** Activating a merge profile: which content reaches the config, and how packets are routed by it. */
module MergedActivation {
  import opened Prelude
  import opened Documents
  import opened ActiveConfig
  import opened ConfigLaws
  import opened Routing
  import opened Profiles
  import opened RuleState
  import opened RuleLimits

  /** The documents that a merge profile joins: the listed profiles' files, in order. */
  function Parts(s: State, item: ProfileItem): seq<Document>
    requires s.profiles.Some?
  {
    Loaded(item.merge, s.files, s.profiles.value)
  }

  /** When all of them load, there is one document for each uid. */
  lemma {:induction false} LoadedMeans(uids: seq<string>, files: Files, profiles: ProfilesYaml)
    requires forall i :: 0 <= i < |uids| ==> Load(uids[i], files, profiles).Ok?
    ensures |Loaded(uids, files, profiles)| == |uids|
    ensures forall i :: 0 <= i < |uids| ==> Loaded(uids, files, profiles)[i] == Load(uids[i], files, profiles).value
    decreases |uids|
  {
    if uids != [] {
      LoadedMeans(uids[..|uids| - 1], files, profiles);
    }
  }

  /** A served activation of a merge profile: every listed profile has loaded, and the file holds their merge. */
  lemma MergeReachesFile(s: State, uid: string, item: ProfileItem)
    requires s.profiles.Some? && FindItem(s.profiles.value.items, uid) == Some(item) && item.kind == Merge
    requires AfterActivate(s, uid, None).1 == Done
    ensures var t := AfterActivate(s, uid, None).0;
            var path := Resolve(s.files, uid, item.file);
            && item.merge != [] && |Parts(s, item)| == |item.merge|
            && (forall i :: 0 <= i < |item.merge| ==>
                  Load(item.merge[i], s.files, s.profiles.value) == Ok(Parts(s, item)[i]))
            && path in t.files && IsMergeOf(t.files[path], Parts(s, item))
            && t.config == Injected(Some(SwitchConfig(s, t.files[path])), s.settings.ruleProviders)
  {
    LoadedMeans(item.merge, s.files, s.profiles.value);
    MergeIsUnique(MergedDocument(Parts(s, item)), Parts(s, item));
  }

  /**
    * The config then has all proxies of the parts, in order; their proxy groups, if the first part that has
    * any lists them; and mode "rule" unless the old config has another.
    */
  lemma MergeReachesConfig(s: State, uid: string, item: ProfileItem)
    requires s.profiles.Some? && FindItem(s.profiles.value.items, uid) == Some(item) && item.kind == Merge
    requires AfterActivate(s, uid, None).1 == Done
    ensures var config := AfterActivate(s, uid, None).0.config.value;
            var docs := Parts(s, item);
            && config.Get(Proxies) == Some(Seq(Joined(docs, Proxies)))
            && config.Get(Mode) == OldEntry(s.config, Mode).Or(Some(Str("rule")))
            && var g := FirstDefining(docs, ProxyGroups);
               config.Get(ProxyGroups) == if g == |docs| then None
                                          else if docs[g].Get(ProxyGroups).value.Seq?
                                          then Some(Seq(Joined(docs, ProxyGroups)))
                                          else docs[g].Get(ProxyGroups)
  {
    MergeReachesFile(s, uid, item);
    MergeInConfig(s, Parts(s, item), AfterActivate(s, uid, None).0.files[Resolve(s.files, uid, item.file)]);
  }

  lemma MergeInConfig(s: State, docs: seq<Document>, merged: Document)
    requires IsMergeOf(merged, docs)
    ensures var config := Injected(Some(SwitchConfig(s, merged)), s.settings.ruleProviders);
            && config.Some? && config.value.Get(Proxies) == Some(Seq(Joined(docs, Proxies)))
            && config.value.Get(Mode) == OldEntry(s.config, Mode).Or(Some(Str("rule")))
            && config.value.Get(ProxyGroups) == MergedSection(docs, ProxyGroups)
    ensures var g := FirstDefining(docs, ProxyGroups);
            MergedSection(docs, ProxyGroups) == if g == |docs| then None
                                                else if docs[g].Get(ProxyGroups).value.Seq?
                                                then Some(Seq(Joined(docs, ProxyGroups)))
                                                else docs[g].Get(ProxyGroups)
  {
    MergeKeys(docs, merged);
    SectionJoined(docs, ProxyGroups);
    InjectedKeys(s, merged, Proxies);
    InjectedKeys(s, merged, ProxyGroups);
    InjectedKeys(s, merged, Mode);
  }

  lemma MergeKeys(docs: seq<Document>, merged: Document)
    requires IsMergeOf(merged, docs)
    ensures merged.Get(Mode) == Some(Str("rule")) && merged.Get(Proxies) == Some(Seq(Joined(docs, Proxies)))
    ensures merged.Get(ProxyGroups) == MergedSection(docs, ProxyGroups)
  {
    ProxiesJoined(docs);
  }

  lemma InjectedKeys(s: State, doc: Document, k: Key)
    requires doc.Mapping? && k != RuleProviders
    ensures var config := Injected(Some(SwitchConfig(s, doc)), s.settings.ruleProviders);
            && config.Some?
            && config.value.Get(k) == ReplacedEntry(s.config, doc, CustomRules(s.settings), PortsFrom(s.settings), k)
            && (k == Proxies || k == ProxyGroups ==> config.value.Get(k) == doc.Get(k))
            && (k == Mode ==> config.value.Get(k) == OldEntry(s.config, k).Or(doc.Get(k)))
  {
    ReplacedGet(s.config, doc, CustomRules(s.settings), PortsFrom(s.settings), k);
  }

  /**
    * Routing: with rule lists in all parts, a packet is decided by the stored custom rules, else by the
    * left-most part with a rule that hits it.
    */
  lemma MergeRoutes<P, Q>(
    hit: (string, P) -> bool, policy: string -> Q, s: State, uid: string, item: ProfileItem, j: nat, packet: P)
    requires s.profiles.Some? && FindItem(s.profiles.value.items, uid) == Some(item) && item.kind == Merge
    requires AfterActivate(s, uid, None).1 == Done
    requires ListTyped(Parts(s, item), Rules) && j < |Parts(s, item)|
    requires forall i :: 0 <= i < j ==> Route(hit, policy, RulesOf(Parts(s, item)[i]), packet).None?
    requires Route(hit, policy, RulesOf(Parts(s, item)[j]), packet).Some?
    ensures Route(hit, policy, ConfigRules(AfterActivate(s, uid, None).0.config), packet)
         == Route(hit, policy, CustomRules(s.settings), packet)
            .Or(Route(hit, policy, RulesOf(Parts(s, item)[j]), packet))
  {
    MergeReachesFile(s, uid, item);
    var merged := AfterActivate(s, uid, None).0.files[Resolve(s.files, uid, item.file)];
    LeftmostProfileDecides(hit, policy, Parts(s, item), merged, j, packet);
    MergedRulesAreListed(Parts(s, item), merged);
    SwitchedTexts(s, merged);
    InjectedKeys(s, merged, Rules);
    RouteConcat(hit, policy, CustomRules(s.settings), RulesOf(merged), packet);
    InjectedRules(s, merged);
  }

  lemma InjectedRules(s: State, doc: Document)
    requires doc.Mapping?
    ensures ConfigRules(Injected(Some(SwitchConfig(s, doc)), s.settings.ruleProviders)) == RulesOf(SwitchConfig(s, doc))
  {}

  /** A merge of lists has a list of rules or none. */
  lemma MergedRulesAreListed(docs: seq<Document>, merged: Document)
    requires ListTyped(docs, Rules) && IsMergeOf(merged, docs)
    ensures !NoRuleList(merged)
  {
    SectionJoined(docs, Rules);
    var i := FirstDefining(docs, Rules);
    assert i < |docs| ==> docs[i] in docs;
  }
}
