/** The demo client's group acknowledgement (demo/client.cc). */
module GroupAcks {
  import opened Common
  import opened Protocol

  datatype FinalAction = FinalUnspecified | FinalAllow | FinalReportOnly | FinalWarn | FinalBlock

  /** The enumerators' numeric values. */
  function Severity(a: Action): nat {
    match a
    case ActionUnspecified => 0
    case ReportOnly => 1
    case Warn => 2
    case Block => 3
  }

  function FinalSeverity(a: FinalAction): nat {
    match a
    case FinalUnspecified => 0
    case FinalAllow => 1
    case FinalReportOnly => 2
    case FinalWarn => 3
    case FinalBlock => 4
  }

  function ToFinal(a: Action): FinalAction {
    match a
    case ActionUnspecified => FinalAllow
    case ReportOnly => FinalReportOnly
    case Warn => FinalWarn
    case Block => FinalBlock
  }

  /** `a` is the severest action of some rule of the results, or unspecified if none has an action. */
  ghost predicate MostSevere(a: Action, results: seq<Result>) {
    && (forall i, k :: 0 <= i < |results| && 0 <= k < |results[i].rules| && results[i].rules[k].action.Some? ==>
          Severity(results[i].rules[k].action.value) <= Severity(a))
    && (a == ActionUnspecified
        || exists i, k :: 0 <= i < |results| && 0 <= k < |results[i].rules| && results[i].rules[k].action == Some(a))
  }

  method GetActionFromResult(result: Result) returns (action: Action)
    ensures MostSevere(action, [result])
  {
    action := ActionUnspecified;
    var i := 0;
    while i < |result.rules|
      invariant i <= |result.rules|
      invariant forall k :: 0 <= k < i && result.rules[k].action.Some? ==> Severity(result.rules[k].action.value) <= Severity(action)
      invariant action == ActionUnspecified || exists k :: 0 <= k < i && result.rules[k].action == Some(action)
    {
      var rule := result.rules[i];
      if rule.action.Some? && Severity(rule.action.value) > Severity(action) {
        action := rule.action.value;
      }
      i := i + 1;
    }
    if action != ActionUnspecified {
      var k :| 0 <= k < |result.rules| && result.rules[k].action == Some(action);
      assert [result][0].rules[k].action == Some(action);
    }
  }

  method GetActionFromResponse(response: Response) returns (action: Action)
    ensures MostSevere(action, response.results)
  {
    action := ActionUnspecified;
    var i := 0;
    while i < |response.results|
      invariant i <= |response.results|
      invariant MostSevere(action, response.results[..i])
    {
      var result := response.results[i];
      var action2 := GetActionFromResult(result);
      ghost var before := action;
      if Severity(action2) > Severity(action) {
        action := action2;
      }
      OneMoreResult(before, action2, action, response.results[..i], result);
      assert response.results[..i + 1] == response.results[..i] + [result];
      i := i + 1;
    }
    assert response.results[..i] == response.results;
  }

  lemma OneMoreResult(a: Action, b: Action, c: Action, results: seq<Result>, result: Result)
    requires MostSevere(a, results) && MostSevere(b, [result])
    requires c == if Severity(b) > Severity(a) then b else a
    ensures MostSevere(c, results + [result])
  {
    var all := results + [result];
    forall i, k | 0 <= i < |all| && 0 <= k < |all[i].rules| && all[i].rules[k].action.Some?
      ensures Severity(all[i].rules[k].action.value) <= Severity(c)
    {
      if i < |results| {
        assert results[i].rules[k] == all[i].rules[k];
      } else {
        assert [result][0].rules[k] == all[i].rules[k];
      }
    }
    if c == b && b != ActionUnspecified && c != a {
      var i, k :| 0 <= i < |[result]| && 0 <= k < |[result][i].rules| && [result][i].rules[k].action == Some(b);
      assert all[|results|].rules[k].action == Some(c);
    } else if c != ActionUnspecified {
      var i, k :| 0 <= i < |results| && 0 <= k < |results[i].rules| && results[i].rules[k].action == Some(a);
      assert all[i].rules[k].action == Some(c);
    }
  }

  lemma SeverityOrders(a: Action, b: Action)
    ensures Severity(a) == Severity(b) ==> a == b
    ensures Severity(ActionUnspecified) < Severity(ReportOnly) < Severity(Warn) < Severity(Block)
    ensures FinalSeverity(FinalUnspecified) < FinalSeverity(FinalAllow) < FinalSeverity(FinalReportOnly)
          < FinalSeverity(FinalWarn) < FinalSeverity(FinalBlock)
    ensures FinalSeverity(ToFinal(a)) == Severity(a) + 1
    ensures ToFinal(a) == FinalAllow <==> a == ActionUnspecified
  {
  }

  /** All rules of all results, one after the other. */
  function RulesOf(results: seq<Result>): seq<TriggeredRule> {
    if results == [] then [] else results[0].rules + RulesOf(results[1..])
  }

  lemma {:induction false} RuleAmong(results: seq<Result>, rule: TriggeredRule)
    ensures rule in RulesOf(results) <==> exists i :: 0 <= i < |results| && rule in results[i].rules
  {
    if results != [] {
      RuleAmong(results[1..], rule);
      if i :| 0 <= i < |results| && rule in results[i].rules {
        assert i > 0 ==> results[1..][i - 1] == results[i];
      }
      if i :| 0 <= i < |results[1..]| && rule in results[1..][i].rules {
        assert results[i + 1] == results[1..][i];
      }
    }
  }

  /** The severest action is that of the rules as a collection. */
  lemma SevereAmongRules(a: Action, results: seq<Result>)
    requires MostSevere(a, results)
    ensures forall b :: TriggeredRule(Some(b)) in RulesOf(results) ==> Severity(b) <= Severity(a)
    ensures a == ActionUnspecified || TriggeredRule(Some(a)) in RulesOf(results)
  {
    forall b | TriggeredRule(Some(b)) in RulesOf(results)
      ensures Severity(b) <= Severity(a)
    {
      RuleAmong(results, TriggeredRule(Some(b)));
      var i :| 0 <= i < |results| && TriggeredRule(Some(b)) in results[i].rules;
      var k :| 0 <= k < |results[i].rules| && results[i].rules[k] == TriggeredRule(Some(b));
      assert results[i].rules[k].action.Some?;
    }
    if a != ActionUnspecified {
      var i, k :| 0 <= i < |results| && 0 <= k < |results[i].rules| && results[i].rules[k].action == Some(a);
      assert results[i].rules[k] == TriggeredRule(Some(a));
      RuleAmong(results, TriggeredRule(Some(a)));
    }
  }

  lemma SameRuleMembers(one: seq<TriggeredRule>, two: seq<TriggeredRule>)
    requires multiset(one) == multiset(two)
    ensures forall rule :: rule in one <==> rule in two
  {
    forall rule
      ensures rule in one <==> rule in two
    {
      assert rule in one <==> rule in multiset(one);
      assert rule in two <==> rule in multiset(two);
    }
  }

  /** Neither the order of the rules or results nor which result a rule stands in matters. */
  lemma MostSevereUnique(a: Action, b: Action, one: seq<Result>, two: seq<Result>)
    requires multiset(RulesOf(one)) == multiset(RulesOf(two))
    requires MostSevere(a, one) && MostSevere(b, two)
    ensures a == b
  {
    hide MostSevere;
    hide RulesOf;
    SevereAmongRules(a, one);
    SevereAmongRules(b, two);
    SameRuleMembers(RulesOf(one), RulesOf(two));
    SeverityOrders(a, b);
  }

  // ---- All requests of a group ----

  /** One thread's outcome: the token of its request, and the response if Send returned 0. */
  datatype Reply = Reply(token: string, response: Option<Response>)

  /** Whether the reply is acknowledged at all. */
  predicate Successful(r: Reply) {
    r.response.Some? && |r.response.value.results| > 0
  }

  datatype Ack = Ack(token: string, action: FinalAction)

  class DemoClient {
    const group: bool
    var globalFinalAction: FinalAction
    var requestTokens: seq<string>

    // Every acknowledgement sent, in order.
    var acks: seq<Ack>

    constructor (group: bool)
      ensures this.group == group && globalFinalAction == FinalAllow && requestTokens == [] && acks == []
    {
      this.group := group;
      globalFinalAction, requestTokens, acks := FinalAllow, [], [];
    }

    /** The part of `HandleRequest` after Send; under the mutex when grouping. */
    method HandleReply(reply: Reply)
      modifies this
      ensures reply.response.None? || reply.response.value.results == [] ==> unchanged(this)
      ensures reply.response.Some? && reply.response.value.results != [] ==>
                exists action :: MostSevere(action, reply.response.value.results) &&
                  if group then
                    && requestTokens == old(requestTokens) + [reply.token] && acks == old(acks)
                    && globalFinalAction == (if FinalSeverity(ToFinal(action)) > FinalSeverity(old(globalFinalAction))
                                             then ToFinal(action) else old(globalFinalAction))
                  else
                    && requestTokens == old(requestTokens) && globalFinalAction == old(globalFinalAction)
                    && acks == old(acks) + [Ack(reply.response.value.token, ToFinal(action))]
    {
      if reply.response.None? || |reply.response.value.results| == 0 {
        return;
      }
      var action := GetActionFromResponse(reply.response.value);
      var finalAction := FinalAllow;
      match action {
        case ActionUnspecified =>
        case ReportOnly => finalAction := FinalReportOnly;
        case Warn => finalAction := FinalWarn;
        case Block => finalAction := FinalBlock;
      }
      if group {
        requestTokens := requestTokens + [reply.token];
        if FinalSeverity(finalAction) > FinalSeverity(globalFinalAction) {
          globalFinalAction := finalAction;
        }
      } else {
        acks := acks + [Ack(reply.response.value.token, finalAction)];
      }
    }

    /** All the replies of a group in the order in which the threads enter the mutex, and then the
        acknowledgements. */
    method RunGroup(order: seq<Reply>)
      requires group && globalFinalAction == FinalAllow && requestTokens == [] && acks == []
      modifies this
      ensures GroupAction(globalFinalAction, order)
      ensures acks == AcksOf(SuccessTokens(order), globalFinalAction)
      ensures |acks| == |requestTokens| && requestTokens == SuccessTokens(order)
      ensures forall k :: 0 <= k < |acks| ==> acks[k].token == requestTokens[k] && acks[k].action == globalFinalAction
    {
      hide SuccessTokens;
      hide GroupAction;
      hide MostSevere;
      hide AcksOf;
      NoReplies();
      var i := 0;
      while i < |order|
        invariant i <= |order| && acks == []
        invariant requestTokens == SuccessTokens(order[..i])
        invariant GroupAction(globalFinalAction, order[..i])
      {
        ghost var before := globalFinalAction;
        HandleReply(order[i]);
        assert order[..i + 1] == order[..i] + [order[i]];
        OneMoreReply(before, globalFinalAction, order[..i], order[i]);
        OneMoreToken(order[..i], order[i]);
        i := i + 1;
      }
      assert order[..i] == order;
      SendGroupAcks();
    }

    method SendGroupAcks()
      requires acks == []
      modifies this`acks
      ensures acks == AcksOf(requestTokens, globalFinalAction)
      ensures |acks| == |requestTokens|
      ensures forall k :: 0 <= k < |acks| ==> acks[k].token == requestTokens[k] && acks[k].action == globalFinalAction
    {
      var i := 0;
      while i < |requestTokens|
        invariant i <= |requestTokens|
        invariant acks == AcksOf(requestTokens[..i], globalFinalAction)
      {
        acks := acks + [Ack(requestTokens[i], globalFinalAction)];
        assert requestTokens[..i + 1] == requestTokens[..i] + [requestTokens[i]];
        i := i + 1;
      }
      assert requestTokens[..i] == requestTokens;
    }
  }

  function AcksOf(tokens: seq<string>, action: FinalAction): seq<Ack> {
    seq(|tokens|, k requires 0 <= k < |tokens| => Ack(tokens[k], action))
  }

  /** The acknowledgements as a collection: each token as often as it is among the tokens, all with the action. */
  lemma {:induction false} AcksCount(tokens: seq<string>, action: FinalAction, ack: Ack)
    ensures multiset(AcksOf(tokens, action))[ack] == if ack.action == action then multiset(tokens)[ack.token] else 0
    decreases tokens
  {
    if tokens != [] {
      var rest := tokens[1..];
      AcksCount(rest, action, ack);
      assert tokens == [tokens[0]] + rest;
      assert AcksOf(tokens, action) == [Ack(tokens[0], action)] + AcksOf(rest, action);
    }
  }

  function SuccessTokens(order: seq<Reply>): seq<string> {
    if order == [] then []
    else
      var r := order[|order| - 1];
      SuccessTokens(order[..|order| - 1]) + if Successful(r) then [r.token] else []
  }

  lemma OneMoreToken(order: seq<Reply>, r: Reply)
    ensures SuccessTokens(order + [r]) == SuccessTokens(order) + if Successful(r) then [r.token] else []
  {
    assert (order + [r])[..|order|] == order;
  }

  lemma NoReplies()
    ensures SuccessTokens([]) == [] && GroupAction(FinalAllow, [])
  {
  }

  /** A rule action somewhere in a successful reply. */
  predicate Triggered(a: Action, r: Reply) {
    Successful(r) && exists i, k :: 0 <= i < |r.response.value.results| && 0 <= k < |r.response.value.results[i].rules|
                                     && r.response.value.results[i].rules[k].action == Some(a)
  }

  /** The group's action: the image of the severest action triggered in any successful reply, and ALLOW if
      there is none. It speaks of the replies as a collection, not of their order. */
  ghost predicate GroupAction(f: FinalAction, replies: seq<Reply>) {
    && (forall r, a :: r in replies && Triggered(a, r) ==> FinalSeverity(ToFinal(a)) <= FinalSeverity(f))
    && (f == FinalAllow || exists r, a :: r in replies && Triggered(a, r) && f == ToFinal(a))
  }

  lemma SevereTriggers(a: Action, r: Reply, b: Action)
    requires Successful(r) && MostSevere(a, r.response.value.results)
    ensures Triggered(b, r) ==> Severity(b) <= Severity(a)
    ensures a != ActionUnspecified ==> Triggered(a, r)
  {
    if Triggered(b, r) {
      var results := r.response.value.results;
      var i, k :| 0 <= i < |results| && 0 <= k < |results[i].rules| && results[i].rules[k].action == Some(b);
      assert results[i].rules[k].action.Some?;
    }
  }

  lemma OneMoreReply(before: FinalAction, after: FinalAction, replies: seq<Reply>, r: Reply)
    requires GroupAction(before, replies)
    requires !Successful(r) ==> after == before
    requires Successful(r) ==>
               exists a :: MostSevere(a, r.response.value.results)
                           && after == (if FinalSeverity(ToFinal(a)) > FinalSeverity(before) then ToFinal(a) else before)
    ensures GroupAction(after, replies + [r])
  {
    var all := replies + [r];
    if Successful(r) {
      var a :| MostSevere(a, r.response.value.results)
               && after == (if FinalSeverity(ToFinal(a)) > FinalSeverity(before) then ToFinal(a) else before);
      SevereTriggers(a, r, a);
      forall q, b | q in all && Triggered(b, q)
        ensures FinalSeverity(ToFinal(b)) <= FinalSeverity(after)
      {
        SeverityOrders(a, b);
        SeverityOrders(b, a);
        if q == r {
          SevereTriggers(a, r, b);
        }
      }
      if after != before {
        assert r in all;
        SeverityOrders(a, a);
      }
    }
    if after != FinalAllow && after == before {
      var q, b :| q in replies && Triggered(b, q) && before == ToFinal(b);
      assert q in all;
    }
  }

  lemma {:induction false} TokensCount(order: seq<Reply>, token: string)
    ensures multiset(SuccessTokens(order))[token] == Tally(order, Names(token))
  {
    if order == [] {
    } else {
      var front, r := order[..|order| - 1], order[|order| - 1];
      TokensCount(front, token);
      TallyPush(front, r, Names(token));
      assert order == front + [r];
    }
  }

  function Names(token: string): Reply -> nat {
    (r: Reply) => if Successful(r) && r.token == token then 1 else 0
  }

  lemma {:induction false} PermutationTally(a: seq<Reply>, b: seq<Reply>, w: Reply -> nat)
    requires multiset(a) == multiset(b)
    ensures Tally(a, w) == Tally(b, w)
    decreases |a|
  {
    if a == [] {
      assert |multiset(b)| == 0;
    } else {
      var i := Place(b, a[0], multiset(a));
      PermutationTally(Without(a, 0), Without(b, i), w);
      TallyRemove(b, i, w);
      TallyRemove(a, 0, w);
    }
  }

  function Without(s: seq<Reply>, i: nat): (r: seq<Reply>)
    requires i < |s|
    ensures |r| == |s| - 1
    ensures multiset(r) == multiset(s) - multiset{s[i]}
  {
    assert s == s[..i] + [s[i]] + s[i + 1..];
    s[..i] + s[i + 1..]
  }

  lemma Place(s: seq<Reply>, r: Reply, all: multiset<Reply>) returns (i: nat)
    requires r in all && multiset(s) == all
    ensures i < |s| && s[i] == r
  {
    assert r in multiset(s);
    i :| 0 <= i < |s| && s[i] == r;
  }

  lemma SameAction(one: seq<Reply>, two: seq<Reply>, f: FinalAction, g: FinalAction)
    requires forall r :: r in one ==> r in two
    requires GroupAction(f, one) && GroupAction(g, two)
    ensures FinalSeverity(f) <= FinalSeverity(g)
  {
    if f != FinalAllow {
      var r, a :| r in one && Triggered(a, r) && f == ToFinal(a);
      assert r in two && Triggered(a, r);
    } else if g != FinalAllow {
      var r, a :| r in two && Triggered(a, r) && g == ToFinal(a);
    }
  }

  lemma SameTokenCount(one: seq<Reply>, two: seq<Reply>, token: string)
    requires multiset(one) == multiset(two)
    ensures multiset(SuccessTokens(one))[token] == multiset(SuccessTokens(two))[token]
  {
    hide SuccessTokens;
    hide Tally;
    TokensCount(one, token);
    TokensCount(two, token);
    PermutationTally(one, two, Names(token));
  }

  lemma SameMembers(one: seq<Reply>, two: seq<Reply>)
    requires multiset(one) == multiset(two)
    ensures forall r :: r in one ==> r in two
  {
    forall r | r in one
      ensures r in two
    {
      assert r in multiset(one);
      assert r in multiset(two);
    }
  }

  /** Whatever the order in which the threads finish, the group's action is the same, and so are the
      acknowledgements up to order. */
  lemma OrderDoesNotMatter(one: seq<Reply>, two: seq<Reply>, f: FinalAction, g: FinalAction)
    requires multiset(one) == multiset(two)
    requires GroupAction(f, one) && GroupAction(g, two)
    ensures f == g
    ensures multiset(SuccessTokens(one)) == multiset(SuccessTokens(two))
    ensures multiset(AcksOf(SuccessTokens(one), f)) == multiset(AcksOf(SuccessTokens(two), g))
  {
    hide AcksOf;
    hide GroupAction;
    hide SuccessTokens;
    SameMembers(one, two);
    SameMembers(two, one);
    SameAction(one, two, f, g);
    SameAction(two, one, g, f);
    forall token
      ensures multiset(SuccessTokens(one))[token] == multiset(SuccessTokens(two))[token]
    {
      SameTokenCount(one, two, token);
    }
    forall ack
      ensures multiset(AcksOf(SuccessTokens(one), f))[ack] == multiset(AcksOf(SuccessTokens(two), g))[ack]
    {
      AcksCount(SuccessTokens(one), f, ack);
      AcksCount(SuccessTokens(two), g, ack);
    }
  }
}
