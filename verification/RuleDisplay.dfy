/** What the user sees and what a deletion removes; what adding a provider again does to routing. */
module RuleDisplay {
  import opened Prelude
  import opened Documents
  import opened Settings
  import opened ActiveConfig
  import opened Routing
  import opened RuleState
  import opened RuleInvariant
  import opened Handlers

  // ----- Listing and deletion -----

  /** In an aligned state the listing marks as many rules custom as the settings store. */
  lemma ShownIsStored(s: State, front: seq<string>)
    requires Aligned(s, front)
    ensures ShownCustom(s) == |CustomRules(s.settings)|
  {
    AlignedReads(s, front);
    StutterElements(front, CustomRules(s.settings));
  }

  /** Without stored custom rules the listing falls back to what it detects in front of the profile's rules. */
  lemma ShownIsDetected(s: State, front: seq<string>)
    requires CustomRules(s.settings) == [] && ConfigRules(s.config) == front + ActiveRules(s.profiles, s.files)
    requires ActiveRules(s.profiles, s.files) != []
    ensures ShownCustom(s) == |front| <==> Disjoint(front, ActiveRules(s.profiles, s.files))
  {
    BoundaryIff(front, ActiveRules(s.profiles, s.files));
  }

  /**
    * Deleting the item shown as custom number `n`, through index `n - 1`, removes that one entry of
    * the config and nothing else exactly when the config holds the stored custom rules in front.
    */
  lemma DeleteShownItemIff(s: State, front: seq<string>, n: nat)
    requires Aligned(s, front) && 1 <= n <= ShownCustom(s)
    ensures var (t, o) := AfterDeleteRule(s, "custom", n - 1);
            && o == Done && CustomRules(t.settings) == RemoveAt(CustomRules(s.settings), n - 1)
            && n - 1 < |ConfigRules(s.config)|
            && (ConfigRules(t.config) == RemoveAt(ConfigRules(s.config), n - 1) <==> front == CustomRules(s.settings))
  {
    var custom := CustomRules(s.settings);
    var profileRules := ActiveRules(s.profiles, s.files);
    ShownIsStored(s, front);
    StutterElements(front, custom);
    DeletedLists(s, front, n - 1);
    RemovalsAgreeIff(front, custom, profileRules, n - 1);
  }

  /** The lists before and after a deletion, in terms of the custom rules. */
  lemma DeletedLists(s: State, front: seq<string>, i: nat)
    requires Aligned(s, front) && i < |CustomRules(s.settings)|
    ensures var (t, o) := AfterDeleteRule(s, "custom", i);
            && o == Done && CustomRules(t.settings) == RemoveAt(CustomRules(s.settings), i)
            && ConfigRules(t.config) == RemoveAt(CustomRules(s.settings), i) + ActiveRules(s.profiles, s.files)
    ensures ConfigRules(s.config) == front + ActiveRules(s.profiles, s.files)
  {
    var t := AfterDeleteRule(s, "custom", i).0;
    assert t.profiles == s.profiles && t.files == s.files;
    DeleteRuleKeeps(s, front, "custom", i);
    AlignedReads(s, front);
    AlignedReads(t, CustomRules(t.settings));
  }

  /** Removing position `i` from both lists agrees exactly when neither holds extra copies. */
  lemma RemovalsAgreeIff(front: seq<string>, custom: seq<string>, tail: seq<string>, i: nat)
    requires i < |custom| <= |front|
    requires |front| == |custom| ==> front == custom
    ensures RemoveAt(custom, i) + tail == RemoveAt(front + tail, i) <==> front == custom
  {
    assert RemoveAt(front + tail, i) == RemoveAt(front, i) + tail;
    if |front| != |custom| {
      assert |RemoveAt(custom, i) + tail| != |RemoveAt(front, i) + tail|;
    }
  }

  // ----- Adding a provider again -----

  /** The rules of providers have policy `reject`. */
  ghost predicate RejectsProviders<Q>(policy: string -> Q, reject: Q) {
    forall name :: policy(ProviderRule(name)) == reject
  }

  /** Every provider rule of the list lies in its leading run of rules with policy `reject`. */
  ghost predicate ProvidersLead<Q>(policy: string -> Q, reject: Q, rules: seq<string>) {
    || (forall r :: r in rules ==> !OfProvider(r))
    || (policy(rules[0]) == reject && ProvidersLead(policy, reject, rules[1..]))
  }

  lemma {:induction false} LeadAppend<Q>(policy: string -> Q, reject: Q, rules: seq<string>, rule: string)
    requires ProvidersLead(policy, reject, rules) && !OfProvider(rule)
    ensures ProvidersLead(policy, reject, rules + [rule])
  {
    if exists r :: r in rules && OfProvider(r) {
      LeadAppend(policy, reject, rules[1..], rule);
      assert (rules + [rule])[1..] == rules[1..] + [rule];
    }
  }

  lemma {:induction false} LeadRemove<Q>(policy: string -> Q, reject: Q, rules: seq<string>, i: nat)
    requires ProvidersLead(policy, reject, rules) && i < |rules|
    ensures ProvidersLead(policy, reject, RemoveAt(rules, i))
  {
    if forall r :: r in rules ==> !OfProvider(r) {
      assert forall r :: r in RemoveAt(rules, i) ==> r in rules;
    } else if i == 0 {
      assert RemoveAt(rules, 0) == rules[1..];
    } else {
      LeadRemove(policy, reject, rules[1..], i - 1);
      assert RemoveAt(rules, i)[1..] == RemoveAt(rules[1..], i - 1);
    }
  }

  lemma {:induction false} LeadWithout<Q>(policy: string -> Q, reject: Q, rules: seq<string>, rule: string)
    requires ProvidersLead(policy, reject, rules)
    ensures ProvidersLead(policy, reject, Without(rules, rule))
  {
    if forall r :: r in rules ==> !OfProvider(r) {
      WithoutElements(rules, rule);
    } else {
      LeadWithout(policy, reject, rules[1..], rule);
      if rules[0] != rule {
        assert Without(rules, rule)[1..] == Without(rules[1..], rule);
      }
    }
  }

  lemma LeadPrepend<Q>(policy: string -> Q, reject: Q, rules: seq<string>, rule: string)
    requires ProvidersLead(policy, reject, rules) && policy(rule) == reject
    ensures ProvidersLead(policy, reject, [rule] + rules)
  {
    assert ([rule] + rules)[1..] == rules;
  }

  /** A provider rule of such a list lies in the leading block of its policy. */
  lemma {:induction false} LeadInBlock<Q>(
    policy: string -> Q, reject: Q, rules: seq<string>, tail: seq<string>, rule: string)
    requires ProvidersLead(policy, reject, rules) && rule in rules
    requires OfProvider(rule) && policy(rule) == reject
    ensures InLeadingBlock(policy, rules + tail, rule)
  {
    assert (rules + tail)[1..] == rules[1..] + tail;
    if rules[0] != rule {
      LeadInBlock(policy, reject, rules[1..], tail, rule);
    }
  }

  /**
    * Adding an existing provider again changes no packet's policy, whatever the rules match, if and
    * only if its rule lies in the leading block of rules with its own policy.
    */
  lemma ReAddRoutingIff<Q>(policy: string -> Q, s: State, front: seq<string>, p: RuleProvider)
    requires Aligned(s, front) && Admissible(s, AddProvider(p)) && ReAdds(s, AddProvider(p))
    ensures (forall hit: (string, ()) -> bool ::
               Route(hit, policy, ConfigRules(AfterAddProvider(s, p).0.config), ())
               == Route(hit, policy, ConfigRules(s.config), ()))
       <==> InLeadingBlock(policy, ConfigRules(s.config), ProviderRule(p.name))
  {
    ReAddRules(s, front, p);
    DuplicateInFrontIff(policy, ConfigRules(s.config), ProviderRule(p.name));
  }

  lemma ReAddRules(s: State, front: seq<string>, p: RuleProvider)
    requires Aligned(s, front) && Admissible(s, AddProvider(p)) && ValidProvider(p)
    ensures ConfigRules(AfterAddProvider(s, p).0.config) == [ProviderRule(p.name)] + ConfigRules(s.config)
  {
    var t := AfterAddProvider(s, p).0;
    var rule, profileRules := ProviderRule(p.name), ActiveRules(s.profiles, s.files);
    assert t.profiles == s.profiles && t.files == s.files;
    assert ConfigRules(t.config) == ([rule] + front) + profileRules by {
      AddProviderKeeps(s, front, p);
      AlignedReads(t, [rule] + front);
    }
    assert ConfigRules(s.config) == front + profileRules by {
      AlignedReads(s, front);
    }
    Associative([rule], front, profileRules);
  }

  lemma Associative(a: seq<string>, b: seq<string>, c: seq<string>)
    ensures (a + b) + c == a + (b + c)
  {}

  /** An aligned state in which provider rules lead, both in the settings and in the config. */
  ghost predicate LeadInv<Q>(policy: string -> Q, reject: Q, s: State) {
    exists front :: Aligned(s, front) && ProvidersLead(policy, reject, front)
                    && ProvidersLead(policy, reject, CustomRules(s.settings))
  }

  /** No request of the run adds the rule of a provider by hand. */
  ghost predicate NoHandMadeProviderRules(requests: seq<Request>) {
    forall r :: r in requests && r.AddRule? ==> !OfProvider(r.rule)
  }

  lemma LeadStep<Q>(policy: string -> Q, reject: Q, s: State, r: Request)
    requires RejectsProviders(policy, reject)
    requires LeadInv(policy, reject, s) && Admissible(s, r) && NoHandMadeProviderRules([r])
    ensures LeadInv(policy, reject, Step(s, r).0)
  {
    var front :| Aligned(s, front) && ProvidersLead(policy, reject, front)
                 && ProvidersLead(policy, reject, CustomRules(s.settings));
    var after := StepKeeps(s, front, r);
    assert r in [r];
    LeadCustomStep(policy, reject, CustomRules(s.settings), CustomRules(Step(s, r).0.settings), r);
    match r
    case AddProvider(p) => LeadPrepend(policy, reject, front, ProviderRule(p.name));
    case DeleteProvider(name) => LeadWithout(policy, reject, front, ProviderRule(name));
    case _ =>
  }

  /** No request breaks the leading run of the stored provider rules. */
  lemma LeadCustomStep<Q>(policy: string -> Q, reject: Q, before: seq<string>, after: seq<string>, r: Request)
    requires RejectsProviders(policy, reject)
    requires ProvidersLead(policy, reject, before) && CustomStep(before, after, r)
    requires r.AddRule? ==> !OfProvider(r.rule)
    ensures ProvidersLead(policy, reject, after)
  {
    match r
    case AddRule(rule, _, _) => LeadAppend(policy, reject, before, rule);
    case DeleteRule(_, index) => if index < |before| { LeadRemove(policy, reject, before, index); }
    case AddProvider(p) => LeadPrepend(policy, reject, before, ProviderRule(p.name));
    case DeleteProvider(name) => LeadWithout(policy, reject, before, ProviderRule(name));
    case _ =>
  }

  lemma ReAddKeepsRoute<P, Q>(
    hit: (string, P) -> bool, policy: string -> Q, reject: Q, s: State, p: RuleProvider, packet: P)
    requires RejectsProviders(policy, reject) && LeadInv(policy, reject, s)
    requires Admissible(s, AddProvider(p)) && ReAdds(s, AddProvider(p))
    ensures Route(hit, policy, ConfigRules(AfterAddProvider(s, p).0.config), packet)
         == Route(hit, policy, ConfigRules(s.config), packet)
  {
    var front :| Aligned(s, front) && ProvidersLead(policy, reject, front)
                 && ProvidersLead(policy, reject, CustomRules(s.settings));
    var rule := ProviderRule(p.name);
    StutterElements(front, CustomRules(s.settings));
    AlignedReads(s, front);
    ReAddRules(s, front, p);
    LeadInBlock(policy, reject, front, ActiveRules(s.profiles, s.files), rule);
    DuplicateHarmless(hit, policy, ConfigRules(s.config), rule, packet);
  }

  /**
    * Over every run in which provider rules come from adding providers only, adding a provider that
    * already exists never changes the policy of any packet.
    */
  lemma {:induction false} ReAddsNeverReroute<P, Q>(
    hit: (string, P) -> bool, policy: string -> Q, reject: Q, s: State, requests: seq<Request>, p: RuleProvider,
    packet: P)
    requires RejectsProviders(policy, reject)
    requires LeadInv(policy, reject, s) && AdmissibleRun(s, requests) && NoHandMadeProviderRules(requests)
    ensures var t := Run(s, requests);
            Admissible(t, AddProvider(p)) && ReAdds(t, AddProvider(p)) ==>
              Route(hit, policy, ConfigRules(AfterAddProvider(t, p).0.config), packet)
                == Route(hit, policy, ConfigRules(t.config), packet)
    decreases |requests|
  {
    if requests == [] {
      if Admissible(s, AddProvider(p)) && ReAdds(s, AddProvider(p)) {
        ReAddKeepsRoute(hit, policy, reject, s, p, packet);
      }
    } else {
      assert requests[0] in requests;
      assert forall r :: r in requests[1..] ==> r in requests;
      LeadStep(policy, reject, s, requests[0]);
      ReAddsNeverReroute(hit, policy, reject, Step(s, requests[0]).0, requests[1..], p, packet);
    }
  }

  /** After the first activation on a fresh installation there are no custom rules that could be out of place. */
  lemma FreshLeads<Q>(policy: string -> Q, reject: Q, uid: string, file: string, doc: Document, restart: Restart)
    requires Activatable(doc) && GoodProfile(doc, [])
    ensures LeadInv(policy, reject, Step(Fresh(uid, file, doc), Activate(uid, None, restart)).0)
  {
    FirstActivation(uid, file, doc, restart);
    FreshHasNoCustom(uid, file, doc, restart);
  }

  lemma FreshHasNoCustom(uid: string, file: string, doc: Document, restart: Restart)
    requires Activatable(doc) && GoodProfile(doc, [])
    ensures CustomRules(Step(Fresh(uid, file, doc), Activate(uid, None, restart)).0.settings) == []
  {
    FirstActivationStores(uid, file, doc);
    ServedActivation(Fresh(uid, file, doc), uid, None, restart);
  }

  // ----- Routing by what is stored -----

  lemma LeadTail<Q>(policy: string -> Q, reject: Q, rules: seq<string>)
    requires ProvidersLead(policy, reject, rules) && rules != []
    ensures ProvidersLead(policy, reject, rules[1..])
  {}

  /** The rule of a provider that leads decides every packet it hits, wherever it stands. */
  lemma LeadDecides<P, Q>(
    hit: (string, P) -> bool, policy: string -> Q, reject: Q, rules: seq<string>, rule: string, packet: P)
    requires RejectsProviders(policy, reject) && ProvidersLead(policy, reject, rules)
    requires OfProvider(rule) && rule in rules && hit(rule, packet)
    ensures Route(hit, policy, rules, packet) == Some(reject)
  {
    LeadInBlock(policy, reject, rules, [], rule);
    assert rules + [] == rules;
    DuplicateHarmless(hit, policy, rules, rule, packet);
  }

  /** Extra copies of provider rules change no packet's policy. */
  lemma {:induction false} StutterRoutes<P, Q>(
    hit: (string, P) -> bool, policy: string -> Q, reject: Q, front: seq<string>, custom: seq<string>, packet: P)
    requires Stutter(front, custom) && RejectsProviders(policy, reject)
    requires ProvidersLead(policy, reject, front) && ProvidersLead(policy, reject, custom)
    ensures Route(hit, policy, front, packet) == Route(hit, policy, custom, packet)
  {
    if front != [] {
      LeadTail(policy, reject, front);
      if custom != [] && front[0] == custom[0] && Stutter(front[1..], custom[1..]) {
        LeadTail(policy, reject, custom);
        StutterRoutes(hit, policy, reject, front[1..], custom[1..], packet);
      } else {
        StutterRoutes(hit, policy, reject, front[1..], custom, packet);
        if hit(front[0], packet) {
          LeadDecides(hit, policy, reject, custom, front[0], packet);
        }
      }
    }
  }

  /**
    * Over every run in which provider rules come from adding providers only, config.yaml sends every
    * packet exactly where the custom rules of settings.yaml followed by the active profile send it,
    * however often providers were added again.
    */
  lemma {:induction false} RunRoutesAsStored<P, Q>(
    hit: (string, P) -> bool, policy: string -> Q, reject: Q, s: State, requests: seq<Request>, packet: P)
    requires RejectsProviders(policy, reject)
    requires LeadInv(policy, reject, s) && AdmissibleRun(s, requests) && NoHandMadeProviderRules(requests)
    ensures var t := Run(s, requests);
            Route(hit, policy, ConfigRules(t.config), packet)
              == Route(hit, policy, CustomRules(t.settings) + ActiveRules(t.profiles, t.files), packet)
    decreases |requests|
  {
    if requests == [] {
      RoutesAsStored(hit, policy, reject, s, packet);
    } else {
      assert requests[0] in requests;
      assert forall r :: r in requests[1..] ==> r in requests;
      LeadStep(policy, reject, s, requests[0]);
      RunRoutesAsStored(hit, policy, reject, Step(s, requests[0]).0, requests[1..], packet);
    }
  }

  /** In particular from a fresh installation on, with its first activation. */
  lemma FreshRunRoutesAsStored<P, Q>(
    hit: (string, P) -> bool, policy: string -> Q, reject: Q, uid: string, file: string, doc: Document,
    restart: Restart, requests: seq<Request>, packet: P)
    requires Activatable(doc) && GoodProfile(doc, []) && RejectsProviders(policy, reject)
    requires AdmissibleRun(Step(Fresh(uid, file, doc), Activate(uid, None, restart)).0, requests)
    requires NoHandMadeProviderRules(requests)
    ensures var t := Run(Fresh(uid, file, doc), [Activate(uid, None, restart)] + requests);
            Route(hit, policy, ConfigRules(t.config), packet)
              == Route(hit, policy, CustomRules(t.settings) + ActiveRules(t.profiles, t.files), packet)
  {
    FreshLeads(policy, reject, uid, file, doc, restart);
    assert ([Activate(uid, None, restart)] + requests)[1..] == requests;
    RunRoutesAsStored(hit, policy, reject, Step(Fresh(uid, file, doc), Activate(uid, None, restart)).0, requests,
                      packet);
  }

  lemma RoutesAsStored<P, Q>(hit: (string, P) -> bool, policy: string -> Q, reject: Q, s: State, packet: P)
    requires RejectsProviders(policy, reject) && LeadInv(policy, reject, s)
    ensures Route(hit, policy, ConfigRules(s.config), packet)
         == Route(hit, policy, CustomRules(s.settings) + ActiveRules(s.profiles, s.files), packet)
  {
    var front :| Aligned(s, front) && ProvidersLead(policy, reject, front)
                 && ProvidersLead(policy, reject, CustomRules(s.settings));
    var profileRules := ActiveRules(s.profiles, s.files);
    AlignedReads(s, front);
    StutterRoutes(hit, policy, reject, front, CustomRules(s.settings), packet);
    RouteConcat(hit, policy, front, profileRules, packet);
    RouteConcat(hit, policy, CustomRules(s.settings), profileRules, packet);
  }

  /**
    * After any admissible run, hand-made provider rules included, a packet is routed by the leading custom
    * rules, else by the active profile. The config routes every packet as the stored custom rules followed
    * by the profile do, if and only if rules of different policies first occur in the same order in both.
    */
  lemma RunRouting<P, Q>(hit: (string, P) -> bool, policy: string -> Q, s: State, requests: seq<Request>, packet: P)
    returns (front: seq<string>)
    requires Inv(s) && AdmissibleRun(s, requests)
    ensures var t := Run(s, requests);
            && Stutter(front, CustomRules(t.settings))
            && Route(hit, policy, ConfigRules(t.config), packet)
               == Route(hit, policy, front, packet).Or(Route(hit, policy, ActiveRules(t.profiles, t.files), packet))
    ensures var t := Run(s, requests);
            var stored := CustomRules(t.settings) + ActiveRules(t.profiles, t.files);
            ((forall h: (string, ()) -> bool ::
                Route(h, policy, ConfigRules(t.config), ()) == Route(h, policy, stored, ()))
             <==> SameOrder(policy, ConfigRules(t.config), stored))
  {
    RunKeepsInv(s, requests);
    var t := Run(s, requests);
    front :| Aligned(t, front);
    AlignedReads(t, front);
    RouteConcat(hit, policy, front, ActiveRules(t.profiles, t.files), packet);
    RoutesAsStoredIff(policy, t, front);
  }

  /** An aligned config holds the rules that are stored, so only their order matters. */
  lemma RoutesAsStoredIff<Q>(policy: string -> Q, s: State, front: seq<string>)
    requires Aligned(s, front)
    ensures var stored := CustomRules(s.settings) + ActiveRules(s.profiles, s.files);
            ((forall h: (string, ()) -> bool ::
                Route(h, policy, ConfigRules(s.config), ()) == Route(h, policy, stored, ()))
             <==> SameOrder(policy, ConfigRules(s.config), stored))
  {
    var config, stored := ConfigRules(s.config), CustomRules(s.settings) + ActiveRules(s.profiles, s.files);
    AlignedReads(s, front);
    StutterElements(front, CustomRules(s.settings));
    assert forall r :: r in config <==> r in stored;
    RoutesAgreeIff(policy, config, stored);
  }

  // ----- The policy of a provider's rule -----

  /** The policy a rule ends with: the text after its last comma. */
  function PolicyOf(rule: string): string {
    if rule == [] || rule[|rule| - 1] == ',' then "" else PolicyOf(rule[..|rule| - 1]) + [rule[|rule| - 1]]
  }

  lemma {:induction false} PolicyAfterComma(front: string, policy: string)
    requires ',' !in policy
    ensures PolicyOf(front + "," + policy) == policy
    decreases |policy|
  {
    var rule := front + "," + policy;
    if policy == [] {
      assert rule == front + ",";
    } else {
      var n := |policy| - 1;
      assert rule[..|rule| - 1] == front + "," + policy[..n];
      PolicyAfterComma(front, policy[..n]);
      assert policy == policy[..n] + [policy[n]];
    }
  }

  /** The rules of providers reject. */
  lemma ProvidersReject()
    ensures RejectsProviders(PolicyOf, "REJECT")
  {
    forall name ensures PolicyOf(ProviderRule(name)) == "REJECT" {
      PolicyAfterComma("RULE-SET," + name, "REJECT");
      assert ProviderRule(name) == "RULE-SET," + name + "," + "REJECT";
    }
  }

  /**
    * A served request for a provider puts the literal rule first in the config and among the stored custom
    * rules. Every packet that this rule hits is rejected from then on, whatever the rest of the list says.
    */
  lemma AddedProviderBlocks<P>(hit: (string, P) -> bool, s: State, p: RuleProvider, packet: P)
    requires AfterAddProvider(s, p).1 == Done
    ensures var t := AfterAddProvider(s, p).0;
            var rule := "RULE-SET," + p.name + ",REJECT";
            && ConfigRules(t.config) != [] && ConfigRules(t.config)[0] == rule
            && ConfigRules(t.config)[1..] == ConfigRules(s.config)
            && rule in CustomRules(t.settings)
            && (hit(rule, packet) ==> Route(hit, PolicyOf, ConfigRules(t.config), packet) == Some("REJECT"))
  {
    var rule := ProviderRule(p.name);
    ProvidersReject();
    var t := AfterAddProvider(s, p).0;
    var providers := WithoutNamed(s.settings.ruleProviders.GetOr([]), p.name) + [p];
    var listed := WithProviders(s.config, providers);
    assert RuleEntries(t.config.value) == [Str(rule)] + RuleEntries(listed);
    assert ([Str(rule)] + RuleEntries(listed))[1..] == RuleEntries(listed);
    assert ConfigRules(s.config) == RulesOf(listed);
    assert ConfigRules(t.config) == [rule] + RulesOf(listed);
    assert ([rule] + CustomRules(s.settings))[0] == rule;
  }

  /**
    * Over every run without hand-made provider rules from a fresh installation: each packet that the rule
    * of a stored provider hits is rejected, and every other decision is that of the stored lists.
    */
  lemma FreshRunBlocks<P>(
    hit: (string, P) -> bool, uid: string, file: string, doc: Document, restart: Restart, requests: seq<Request>,
    name: string, packet: P)
    requires Activatable(doc) && GoodProfile(doc, [])
    requires AdmissibleRun(Step(Fresh(uid, file, doc), Activate(uid, None, restart)).0, requests)
    requires NoHandMadeProviderRules(requests)
    ensures var t := Run(Fresh(uid, file, doc), [Activate(uid, None, restart)] + requests);
            && Route(hit, PolicyOf, ConfigRules(t.config), packet)
               == Route(hit, PolicyOf, CustomRules(t.settings) + ActiveRules(t.profiles, t.files), packet)
            && ("RULE-SET," + name + ",REJECT" in CustomRules(t.settings)
                  && hit("RULE-SET," + name + ",REJECT", packet) ==>
                  Route(hit, PolicyOf, ConfigRules(t.config), packet) == Some("REJECT"))
  {
    var s := Step(Fresh(uid, file, doc), Activate(uid, None, restart)).0;
    ProvidersReject();
    FreshLeads(PolicyOf, "REJECT", uid, file, doc, restart);
    assert ([Activate(uid, None, restart)] + requests)[1..] == requests;
    RunRoutesAsStored(hit, PolicyOf, "REJECT", s, requests, packet);
    LeadRun(PolicyOf, "REJECT", s, requests);
    StoredRuleDecides(hit, Run(s, requests), name, packet);
  }

  lemma {:induction false} LeadRun<Q>(policy: string -> Q, reject: Q, s: State, requests: seq<Request>)
    requires RejectsProviders(policy, reject)
    requires LeadInv(policy, reject, s) && AdmissibleRun(s, requests) && NoHandMadeProviderRules(requests)
    ensures LeadInv(policy, reject, Run(s, requests))
    decreases |requests|
  {
    if requests != [] {
      assert requests[0] in requests;
      assert forall r :: r in requests[1..] ==> r in requests;
      LeadStep(policy, reject, s, requests[0]);
      LeadRun(policy, reject, Step(s, requests[0]).0, requests[1..]);
    }
  }

  /** In such a state a stored provider's rule decides every packet it hits. */
  lemma StoredRuleDecides<P>(hit: (string, P) -> bool, s: State, name: string, packet: P)
    requires LeadInv(PolicyOf, "REJECT", s) && RejectsProviders(PolicyOf, "REJECT")
    ensures var rule := "RULE-SET," + name + ",REJECT";
            rule in CustomRules(s.settings) && hit(rule, packet) ==>
              Route(hit, PolicyOf, ConfigRules(s.config), packet) == Some("REJECT")
  {
    var rule := ProviderRule(name);
    if rule in CustomRules(s.settings) && hit(rule, packet) {
      RoutesAsStored(hit, PolicyOf, "REJECT", s, packet);
      LeadDecides(hit, PolicyOf, "REJECT", CustomRules(s.settings), rule, packet);
      RouteConcat(hit, PolicyOf, CustomRules(s.settings), ActiveRules(s.profiles, s.files), packet);
    }
  }
}
