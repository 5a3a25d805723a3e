/** What a rule list means: Mihomo applies the first rule that matches a packet. */
module Routing {
  import opened Prelude

  /** The policy of the first rule in `rules` that `hit`s packet `p`. */
  function Route<P, Q>(hit: (string, P) -> bool, policy: string -> Q, rules: seq<string>, p: P): Option<Q> {
    if rules == [] then None
    else if hit(rules[0], p) then Some(policy(rules[0]))
    else Route(hit, policy, rules[1..], p)
  }

  /** Rules in front decide first; the rest only sees packets they leave unmatched. */
  lemma {:induction false} RouteConcat<P, Q>(
    hit: (string, P) -> bool, policy: string -> Q, a: seq<string>, b: seq<string>, p: P)
    ensures Route(hit, policy, a + b, p) == Route(hit, policy, a, p).Or(Route(hit, policy, b, p))
  {
    if a == [] {
      assert a + b == b;
    } else {
      assert (a + b)[1..] == a[1..] + b;
      RouteConcat(hit, policy, a[1..], b, p);
    }
  }

  // ----- When two rule lists mean the same -----

  /** Position of the first occurrence; the length when there is none. */
  function First(rules: seq<string>, rule: string): (i: nat)
    ensures i <= |rules| && (i < |rules| <==> rule in rules)
    ensures i < |rules| ==> rules[i] == rule
    ensures forall j :: 0 <= j < i ==> rules[j] != rule
  {
    if rules == [] || rules[0] == rule then 0 else 1 + First(rules[1..], rule)
  }

  /** Rules of different policies first occur in the same order. */
  ghost predicate SameOrder<Q>(policy: string -> Q, a: seq<string>, b: seq<string>) {
    forall x, y :: x in a && y in a && policy(x) != policy(y) && First(a, x) < First(a, y) ==> First(b, x) < First(b, y)
  }

  /** The lists hold the same rules, and rules of different policies first occur in the same order. */
  ghost predicate SameDecisions<Q>(policy: string -> Q, a: seq<string>, b: seq<string>) {
    (forall r :: r in a <==> r in b) && SameOrder(policy, a, b)
  }

  /** A packet that some rule hits gets the policy of the hitting rule that occurs first. */
  lemma {:induction false} RouteFirst<P, Q>(
    hit: (string, P) -> bool, policy: string -> Q, rules: seq<string>, p: P, some: string)
    returns (r: string)
    requires some in rules && hit(some, p)
    ensures r in rules && hit(r, p) && Route(hit, policy, rules, p) == Some(policy(r))
    ensures forall y :: y in rules && hit(y, p) ==> First(rules, r) <= First(rules, y)
  {
    if hit(rules[0], p) {
      r := rules[0];
    } else {
      r := RouteFirst(hit, policy, rules[1..], p, some);
    }
  }

  lemma {:induction false} RouteNone<P, Q>(hit: (string, P) -> bool, policy: string -> Q, rules: seq<string>, p: P)
    requires forall r :: r in rules ==> !hit(r, p)
    ensures Route(hit, policy, rules, p) == None
  {
    if rules != [] {
      RouteNone(hit, policy, rules[1..], p);
    }
  }

  lemma SameDecisionsAgree<P, Q>(hit: (string, P) -> bool, policy: string -> Q, a: seq<string>, b: seq<string>, p: P)
    requires SameDecisions(policy, a, b)
    ensures Route(hit, policy, a, p) == Route(hit, policy, b, p)
  {
    if some :| some in a && hit(some, p) {
      var x := RouteFirst(hit, policy, a, p, some);
      var y := RouteFirst(hit, policy, b, p, some);
      assert First(a, x) <= First(a, y) && First(b, y) <= First(b, x);
      assert a[First(a, x)] == x && a[First(a, y)] == y;
    } else {
      RouteNone(hit, policy, a, p);
      RouteNone(hit, policy, b, p);
    }
  }

  /** Hits these two rules and no other. */
  function Either(x: string, y: string): (string, ()) -> bool {
    (r: string, u: ()) => r == x || r == y
  }

  /** Of two rules, the one that occurs first decides a packet that only these two hit. */
  lemma PairDecides<Q>(policy: string -> Q, rules: seq<string>, x: string, y: string)
    ensures x in rules && First(rules, x) <= First(rules, y) ==>
            Route(Either(x, y), policy, rules, ()) == Some(policy(x))
    ensures y in rules && First(rules, y) <= First(rules, x) ==>
            Route(Either(x, y), policy, rules, ()) == Some(policy(y))
    ensures x !in rules && y !in rules ==> Route(Either(x, y), policy, rules, ()) == None
  {
    if x !in rules && y !in rules {
      RouteNone(Either(x, y), policy, rules, ());
    } else {
      var r := RouteFirst(Either(x, y), policy, rules, (), if x in rules then x else y);
      assert rules[First(rules, r)] == r;
    }
  }

  /** Lists that differ in their decisions are told apart by some matching behaviour. */
  lemma OtherDecisionsDiffer<Q>(policy: string -> Q, a: seq<string>, b: seq<string>) returns (hit: (string, ()) -> bool)
    requires !SameDecisions(policy, a, b)
    ensures Route(hit, policy, a, ()) != Route(hit, policy, b, ())
  {
    var x, y: string;
    if r :| (r in a) != (r in b) {
      x, y := r, r;
    } else {
      x, y :| x in a && y in a && policy(x) != policy(y) && First(a, x) < First(a, y) && First(b, x) >= First(b, y);
    }
    hit := Either(x, y);
    PairDecides(policy, a, x, y);
    PairDecides(policy, b, x, y);
  }

  /**
    * Two rule lists send every packet to the same policy, whatever the rules match, if and only if they
    * hold the same rules and rules of different policies first occur in the same order.
    */
  lemma RoutesAgreeIff<Q>(policy: string -> Q, a: seq<string>, b: seq<string>)
    ensures SameDecisions(policy, a, b)
       <==> forall hit: (string, ()) -> bool :: Route(hit, policy, a, ()) == Route(hit, policy, b, ())
  {
    if SameDecisions(policy, a, b) {
      forall hit: (string, ()) -> bool ensures Route(hit, policy, a, ()) == Route(hit, policy, b, ()) {
        SameDecisionsAgree(hit, policy, a, b, ());
      }
    } else {
      var hit := OtherDecisionsDiffer(policy, a, b);
    }
  }

  // ----- A second copy in front -----

  /** `rule` occurs in the leading run of rules that share its policy. */
  predicate InLeadingBlock<Q(==)>(policy: string -> Q, rules: seq<string>, rule: string) {
    rules != [] && policy(rules[0]) == policy(rule) && (rules[0] == rule || InLeadingBlock(policy, rules[1..], rule))
  }

  /** A second copy of `rule` in front changes no packet's policy when the first copy is in the leading block. */
  lemma {:induction false} DuplicateHarmless<P, Q>(
    hit: (string, P) -> bool, policy: string -> Q, rules: seq<string>, rule: string, p: P)
    requires InLeadingBlock(policy, rules, rule)
    ensures Route(hit, policy, [rule] + rules, p) == Route(hit, policy, rules, p)
  {
    assert ([rule] + rules)[1..] == rules;
    if hit(rule, p) && !hit(rules[0], p) {
      DuplicateHarmless(hit, policy, rules[1..], rule, p);
      assert ([rule] + rules[1..])[1..] == rules[1..];
    }
  }

  /** Outside the leading block some matching behaviour tells the two lists apart. */
  lemma {:induction false} DuplicateHarmful<Q>(policy: string -> Q, rules: seq<string>, rule: string)
    returns (hit: (string, ()) -> bool)
    requires !InLeadingBlock(policy, rules, rule)
    ensures Route(hit, policy, [rule] + rules, ()) != Route(hit, policy, rules, ())
  {
    hit := Outsider(policy, rule);
    assert ([rule] + rules)[1..] == rules;
    OutsiderDecides(policy, rules, rule);
  }

  /** Hits `rule`, and every rule whose policy differs from that of `rule`, and nothing else. */
  function Outsider<Q(==)>(policy: string -> Q, rule: string): (string, ()) -> bool {
    (r: string, u: ()) => r == rule || policy(r) != policy(rule)
  }

  lemma {:induction false} OutsiderDecides<Q>(policy: string -> Q, rules: seq<string>, rule: string)
    requires !InLeadingBlock(policy, rules, rule)
    ensures Route(Outsider(policy, rule), policy, rules, ()) != Some(policy(rule))
  {
    if rules != [] && policy(rules[0]) == policy(rule) {
      OutsiderDecides(policy, rules[1..], rule);
    }
  }

  /**
    * Putting a second copy of `rule` in front leaves every packet's policy as it was, whatever the
    * rules match, if and only if `rule` already lies in the leading block of its own policy.
    */
  lemma DuplicateInFrontIff<Q>(policy: string -> Q, rules: seq<string>, rule: string)
    ensures InLeadingBlock(policy, rules, rule)
       <==> forall hit: (string, ()) -> bool ::
              Route(hit, policy, [rule] + rules, ()) == Route(hit, policy, rules, ())
  {
    if InLeadingBlock(policy, rules, rule) {
      forall hit: (string, ()) -> bool
        ensures Route(hit, policy, [rule] + rules, ()) == Route(hit, policy, rules, ())
      {
        DuplicateHarmless(hit, policy, rules, rule, ());
      }
    } else {
      var hit := DuplicateHarmful(policy, rules, rule);
    }
  }
}
