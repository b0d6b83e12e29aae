/** The Slumberland simulated user (`tenants/slumberland_user.py`): four
    weighted flows, each a fixed sequence of gateway calls gated on the
    success of earlier ones. */
module SlumberlandUser {
  import opened Gateway
  import opened FlowPlan
  import opened BaseUser

  /** What `get_tenant_id` returns for this class. */
  const TenantId := "slumberland"
  const WaitTime := Between(2, 8)
  const Tasks := [
    TaskDecl("browse_products_flow", 3),
    TaskDecl("rewards_check_flow", 2),
    TaskDecl("outlet_management_flow", 1),
    TaskDecl("cart_and_notifications_flow", 1)
  ]

  /** The default `flow=` tags of the four flows, the ones the `@task`
      wrappers use. */
  const BrowseFlow := "browse_products_flow"
  const RewardsFlow := "rewards_check_flow"
  const OutletFlow := "outlet_management_flow"
  const CartFlow := "cart_and_notifications_flow"

  const BrowsePlan := [Do(AndCall(GetProductList)), IfSuccess([AndCall(GetProfileRewards)])]
  const RewardsPlan := [Do(AndCall(GetProfileRewards)), IfSuccess([AndCall(GetOrderStreakOffers)])]
  const RefreshBlock := [
    AndCall(GetProfileRewards),
    AndCall(GetOrderStreakOffers),
    AndCall(GetProductList),
    AndCall(GetCart),
    AndCall(GetNotifications)
  ]
  const OutletPlan := [Do(AndCall(ChangeOutlet)), ReturnIfFailed, Do(AndCall(GetUserInfo)), IfSuccess(RefreshBlock)]
  const CartPlan := [Do(AndCall(GetCart)), IfSuccess([AndCall(GetNotifications)])]

  /** The calls of a two-step flow `first`, then `second` only if `first`
      succeeded, and its result. */
  lemma {:induction false} GatedPairCalls(first: Operation, second: Operation, oracle: Oracle, n: nat, flow: string)
    ensures var o := Exec([Do(AndCall(first)), IfSuccess([AndCall(second)])], oracle, n, flow, true);
      var ok1, ok2 := oracle(n, first), oracle(n + 1, second);
      && o.calls == [Call(first, flow, ok1)] + (if ok1 then [Call(second, flow, ok2)] else [])
      && FlowResult(o) == (ok1 && ok2)
  {
    var ok1 := oracle(n, first);
    assert [Do(AndCall(first)), IfSuccess([AndCall(second)])] == [Do(AndCall(first))] + [IfSuccess([AndCall(second)])];
    ExecDo(AndCall(first), [IfSuccess([AndCall(second)])], oracle, n, flow, true);
    ExecIf([AndCall(second)], [], oracle, n + 1, flow, ok1);
    RunStepsCons(AndCall(second), [], oracle, n + 1, flow, true);
  }

  /** None of the four flows drops an outcome, so each returns the AND of
      the outcomes of exactly the calls it issued, and tags every one of
      them with its flow name. */
  lemma EveryFlowReturnsConjunction(oracle: Oracle, n: nat, flow: string)
    ensures forall plan :: plan in [BrowsePlan, RewardsPlan, OutletPlan, CartPlan] ==>
      var o := Exec(plan, oracle, n, flow, true);
      FlowResult(o) == AllOk(o.calls) && TaggedWith(o.calls, flow)
  {
    forall plan | plan in [BrowsePlan, RewardsPlan, OutletPlan, CartPlan]
      ensures var o := Exec(plan, oracle, n, flow, true);
        FlowResult(o) == AllOk(o.calls) && TaggedWith(o.calls, flow)
    {
      assert AllAndCalls(RefreshBlock);
      assert Accumulating(plan);
      ResultIsConjunction(plan, oracle, n, flow, true);
      CallsTaggedAndAnswered(plan, oracle, n, flow, true);
    }
  }

  /** The browse plan issues get_product_list, then get_profile_rewards
      exactly when it succeeded, and returns the AND of the outcomes. */
  lemma BrowsePlanCalls(oracle: Oracle, n: nat, flow: string)
    ensures var o := Exec(BrowsePlan, oracle, n, flow, true);
      var ok1, ok2 := oracle(n, GetProductList), oracle(n + 1, GetProfileRewards);
      && o.calls == [Call(GetProductList, flow, ok1)] + (if ok1 then [Call(GetProfileRewards, flow, ok2)] else [])
      && FlowResult(o) == (ok1 && ok2)
  {
    GatedPairCalls(GetProductList, GetProfileRewards, oracle, n, flow);
  }

  /** The rewards plan issues get_profile_rewards, then
      get_order_streak_offers exactly when it succeeded. */
  lemma RewardsPlanCalls(oracle: Oracle, n: nat, flow: string)
    ensures var o := Exec(RewardsPlan, oracle, n, flow, true);
      var ok1, ok2 := oracle(n, GetProfileRewards), oracle(n + 1, GetOrderStreakOffers);
      && o.calls == [Call(GetProfileRewards, flow, ok1)] + (if ok1 then [Call(GetOrderStreakOffers, flow, ok2)] else [])
      && FlowResult(o) == (ok1 && ok2)
  {
    GatedPairCalls(GetProfileRewards, GetOrderStreakOffers, oracle, n, flow);
  }

  /** The cart plan issues get_cart, then get_notifications exactly when it
      succeeded. */
  lemma CartPlanCalls(oracle: Oracle, n: nat, flow: string)
    ensures var o := Exec(CartPlan, oracle, n, flow, true);
      var ok1, ok2 := oracle(n, GetCart), oracle(n + 1, GetNotifications);
      && o.calls == [Call(GetCart, flow, ok1)] + (if ok1 then [Call(GetNotifications, flow, ok2)] else [])
      && FlowResult(o) == (ok1 && ok2)
  {
    GatedPairCalls(GetCart, GetNotifications, oracle, n, flow);
  }

  /** `_browse_products_flow`: get_product_list first, get_profile_rewards
      only if it succeeded; the result is the AND of the calls made. */
  method BrowseProductsFlow(client: Client, flow: string := BrowseFlow) returns (success: bool)
    modifies client`trace
    ensures var n := |old(client.trace)|;
      var ok1, ok2 := client.oracle(n, GetProductList), client.oracle(n + 1, GetProfileRewards);
      && client.trace == old(client.trace) + [Call(GetProductList, flow, ok1)] + (if ok1 then [Call(GetProfileRewards, flow, ok2)] else [])
      && success == (ok1 && ok2)
  {
    success := true;
    var ok := client.Send(GetProductList, flow);
    success := success && ok;
    if success {
      ok := client.Send(GetProfileRewards, flow);
      success := success && ok;
    }
  }

  /** `_rewards_check_flow`: get_order_streak_offers only after a
      successful get_profile_rewards. */
  method RewardsCheckFlow(client: Client, flow: string := RewardsFlow) returns (success: bool)
    modifies client`trace
    ensures var n := |old(client.trace)|;
      var ok1, ok2 := client.oracle(n, GetProfileRewards), client.oracle(n + 1, GetOrderStreakOffers);
      && client.trace == old(client.trace) + [Call(GetProfileRewards, flow, ok1)] + (if ok1 then [Call(GetOrderStreakOffers, flow, ok2)] else [])
      && success == (ok1 && ok2)
  {
    success := true;
    var ok := client.Send(GetProfileRewards, flow);
    success := success && ok;
    if success {
      ok := client.Send(GetOrderStreakOffers, flow);
      success := success && ok;
    }
  }

  /** `_cart_and_notifications_flow`: get_notifications only after a
      successful get_cart. */
  method CartAndNotificationsFlow(client: Client, flow: string := CartFlow) returns (success: bool)
    modifies client`trace
    ensures var n := |old(client.trace)|;
      var ok1, ok2 := client.oracle(n, GetCart), client.oracle(n + 1, GetNotifications);
      && client.trace == old(client.trace) + [Call(GetCart, flow, ok1)] + (if ok1 then [Call(GetNotifications, flow, ok2)] else [])
      && success == (ok1 && ok2)
  {
    success := true;
    var ok := client.Send(GetCart, flow);
    success := success && ok;
    if success {
      ok := client.Send(GetNotifications, flow);
      success := success && ok;
    }
  }

  /** The five refresh calls of the outlet management flow, the first at
      call position m. */
  function RefreshCalls(oracle: Oracle, m: nat, flow: string): seq<Call>
  {
    [Call(GetProfileRewards, flow, oracle(m, GetProfileRewards)),
     Call(GetOrderStreakOffers, flow, oracle(m + 1, GetOrderStreakOffers)),
     Call(GetProductList, flow, oracle(m + 2, GetProductList)),
     Call(GetCart, flow, oracle(m + 3, GetCart)),
     Call(GetNotifications, flow, oracle(m + 4, GetNotifications))]
  }

  lemma {:induction false} RefreshBlockRuns(oracle: Oracle, m: nat, flow: string)
    ensures var c := RefreshCalls(oracle, m, flow);
      RunSteps(RefreshBlock, oracle, m, flow, true) == Outcome(c, AllOk(c), false)
  {
    var c := RefreshCalls(oracle, m, flow);
    var o := RunSteps(RefreshBlock, oracle, m, flow, true);
    assert o.calls == c by {
      RunStepsCalls(RefreshBlock, oracle, m, flow, true);
    }
    assert AllAndCalls(RefreshBlock);
    RunStepsConjunction(RefreshBlock, oracle, m, flow, true);
  }

  /** The calls of the outlet management flow.  A failed change_outlet ends
      the flow after one call; a failed get_user_info ends it after two;
      otherwise the five refresh calls follow in a fixed order whatever
      their outcomes, and the result is the AND of all seven. */
  lemma {:induction false} OutletPlanCalls(oracle: Oracle, n: nat, flow: string)
    ensures var o := Exec(OutletPlan, oracle, n, flow, true);
      var changed, info := oracle(n, ChangeOutlet), oracle(n + 1, GetUserInfo);
      var refresh := RefreshCalls(oracle, n + 2, flow);
      && o.calls == [Call(ChangeOutlet, flow, changed)] +
           (if changed then [Call(GetUserInfo, flow, info)] + (if info then refresh else []) else [])
      && FlowResult(o) == (changed && info && AllOk(refresh))
  {
    var changed, info := oracle(n, ChangeOutlet), oracle(n + 1, GetUserInfo);
    var refresh := RefreshCalls(oracle, n + 2, flow);
    var p3 := [IfSuccess(RefreshBlock)];
    var p2 := [Do(AndCall(GetUserInfo))] + p3;
    var p1 := [ReturnIfFailed] + p2;
    assert OutletPlan == [Do(AndCall(ChangeOutlet))] + p1;
    var e3 := Exec(p3, oracle, n + 2, flow, info);
    assert e3 == if info then Outcome(refresh, AllOk(refresh), false) else Outcome([], false, false) by {
      assert p3 == [IfSuccess(RefreshBlock)] + [];
      ExecIf(RefreshBlock, [], oracle, n + 2, flow, info);
      RefreshBlockRuns(oracle, n + 2, flow);
    }
    var e2 := Exec(p2, oracle, n + 1, flow, true);
    assert e2 == Outcome([Call(GetUserInfo, flow, info)] + e3.calls, e3.success, false) by {
      ExecDo(AndCall(GetUserInfo), p3, oracle, n + 1, flow, true);
    }
    var e1 := Exec(p1, oracle, n + 1, flow, changed);
    assert e1 == if changed then e2 else Outcome([], false, true) by {
      ExecReturn(p2, oracle, n + 1, flow, changed);
    }
    assert Exec(OutletPlan, oracle, n, flow, true) ==
      Outcome([Call(ChangeOutlet, flow, changed)] + e1.calls, e1.success, e1.returned) by {
      ExecDo(AndCall(ChangeOutlet), p1, oracle, n, flow, true);
    }
  }

  /** `_outlet_management_flow`: the refresh calls run as a group once
      get_user_info succeeds, because `&=` does not stop at a failure. */
  method OutletManagementFlow(client: Client, flow: string := OutletFlow) returns (success: bool)
    modifies client`trace
    ensures var n := |old(client.trace)|;
      var changed, info := client.oracle(n, ChangeOutlet), client.oracle(n + 1, GetUserInfo);
      var refresh := RefreshCalls(client.oracle, n + 2, flow);
      && client.trace == old(client.trace) + [Call(ChangeOutlet, flow, changed)] +
           (if changed then [Call(GetUserInfo, flow, info)] + (if info then refresh else []) else [])
      && success == (changed && info && AllOk(refresh))
  {
    success := true;
    var ok := client.Send(ChangeOutlet, flow);
    success := success && ok;
    if !success {
      return false;
    }
    ok := client.Send(GetUserInfo, flow);
    success := success && ok;
    if success {
      ghost var before := client.trace;
      ghost var refresh := RefreshCalls(client.oracle, |before|, flow);
      ok := client.Send(GetProfileRewards, flow);
      success := success && ok;
      ok := client.Send(GetOrderStreakOffers, flow);
      success := success && ok;
      ok := client.Send(GetProductList, flow);
      success := success && ok;
      ok := client.Send(GetCart, flow);
      success := success && ok;
      ok := client.Send(GetNotifications, flow);
      success := success && ok;
      assert client.trace == before + refresh;
      assert success == AllOk(refresh) by {
        assert forall c :: c in refresh <==>
          c == refresh[0] || c == refresh[1] || c == refresh[2] || c == refresh[3] || c == refresh[4];
      }
    }
  }
}
