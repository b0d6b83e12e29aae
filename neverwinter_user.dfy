/** The Neverwinter simulated user (`tenants/neverwinter_user.py`): faster
    think times and three single-purpose tasks, one of which issues a
    second call only after a successful first one. */
module NeverwinterUser {
  import opened Gateway
  import opened FlowPlan
  import opened BaseUser

  /** What `get_tenant_id` returns for this class; construction never asks
      for it (see `BaseUser.MultiTenantUser.New`). */
  const TenantId := "neverwinter"
  const WaitTime := Between(1, 4)
  const Tasks := [
    TaskDecl("rapid_product_browsing", 5),
    TaskDecl("quick_rewards_check", 2),
    TaskDecl("minimal_outlet_flow", 1)
  ]

  /** Construction gives every user the tenant "slumberland" without asking
      the class's `get_tenant_id`, so a Neverwinter user is constructed
      with a tenant other than its own. */
  lemma ConstructedTenantIsNotOwn()
    ensures ConstructedTenantId != TenantId
  {
  }

  const RapidFlow := "rapid_product_browsing"
  const QuickFlow := "quick_rewards_check"
  const MinimalFlow := "minimal_outlet_flow"

  /** `success = self.change_outlet(...)` starts from a true `success`, so
      it is written as an accumulating call; the second call's outcome is
      dropped. */
  const MinimalPlan := [Do(AndCall(ChangeOutlet)), IfSuccess([BareCall(GetUserInfo)])]

  /** A task that is one gateway call issues exactly that call, and the
      value it hands on is that call's outcome. */
  lemma SingleCall(op: Operation, oracle: Oracle, n: nat, flow: string)
    ensures var o := Exec([Do(AndCall(op))], oracle, n, flow, true);
      o.calls == [Call(op, flow, oracle(n, op))] && FlowResult(o) == oracle(n, op)
  {
    ExecDo(AndCall(op), [], oracle, n, flow, true);
  }

  /** `rapid_product_browsing`: one get_product_list call tagged with the
      task's name; its outcome is what is handed to the duration
      measurement. */
  method RapidProductBrowsing(client: Client) returns (measured: bool)
    modifies client`trace
    ensures measured == client.oracle(|old(client.trace)|, GetProductList)
    ensures client.trace == old(client.trace) + [Call(GetProductList, RapidFlow, measured)]
  {
    measured := client.Send(GetProductList, RapidFlow);
  }

  /** `quick_rewards_check`: one get_profile_rewards call tagged with the
      task's name. */
  method QuickRewardsCheck(client: Client) returns (measured: bool)
    modifies client`trace
    ensures measured == client.oracle(|old(client.trace)|, GetProfileRewards)
    ensures client.trace == old(client.trace) + [Call(GetProfileRewards, QuickFlow, measured)]
  {
    measured := client.Send(GetProfileRewards, QuickFlow);
  }

  /** The calls of `minimal_outlet_flow`: change_outlet, then get_user_info
      exactly when it succeeded. */
  lemma {:induction false} MinimalPlanCalls(oracle: Oracle, n: nat)
    ensures var o := Exec(MinimalPlan, oracle, n, MinimalFlow, true);
      var changed := oracle(n, ChangeOutlet);
      o.calls == [Call(ChangeOutlet, MinimalFlow, changed)] +
        (if changed then [Call(GetUserInfo, MinimalFlow, oracle(n + 1, GetUserInfo))] else [])
  {
    var changed := oracle(n, ChangeOutlet);
    assert MinimalPlan == [Do(AndCall(ChangeOutlet))] + [IfSuccess([BareCall(GetUserInfo)])];
    ExecDo(AndCall(ChangeOutlet), [IfSuccess([BareCall(GetUserInfo)])], oracle, n, MinimalFlow, true);
    ExecIf([BareCall(GetUserInfo)], [], oracle, n + 1, MinimalFlow, changed);
    RunStepsCons(BareCall(GetUserInfo), [], oracle, n + 1, MinimalFlow, true);
  }

  /** `minimal_outlet_flow`: it returns nothing and is not measured. */
  method MinimalOutletFlow(client: Client)
    modifies client`trace
    ensures var n := |old(client.trace)|;
      var changed := client.oracle(n, ChangeOutlet);
      client.trace == old(client.trace) + [Call(ChangeOutlet, MinimalFlow, changed)] +
        (if changed then [Call(GetUserInfo, MinimalFlow, client.oracle(n + 1, GetUserInfo))] else [])
  {
    var success := client.Send(ChangeOutlet, MinimalFlow);
    if success {
      var _ := client.Send(GetUserInfo, MinimalFlow);
    }
  }
}
