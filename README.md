# Simulated-user flows and mock backend of a multi-tenant GraphQL load test

This project models the core of a Locust load-testing harness for a
multi-tenant GraphQL gateway. The model covers:

- **Tenant flows.** The Slumberland and Neverwinter user classes run fixed
  sequences of gateway calls. Each later call is issued or skipped depending on
  the boolean results of earlier ones.
- **User construction.** The base user fixes its tenant, looks up its
  configuration and merges the configured headers into its HTTP client's
  headers in place.
- **Tenant configuration.** A static table and its lookup.
- **Mock backend decision.** From the `X-Tenant-ID` header and a random draw,
  the mock backend picks an error or a success, and a latency range.

## Structure

- `wrappers.dfy` (`Wrappers`): `Option`, the two Python exceptions the core
  can raise (`KeyError`, `ValueError`), and `Result`, which is a value or a
  raised exception.
- `gateway.dfy` (`Gateway`): the gateway helpers as an `Operation` enumeration,
  and the user's HTTP client as a class `Client`. The client has `headers`,
  a `trace` of issued calls and an oracle. The oracle gives the outcome of the
  n-th call of a session. The helper bodies are not part of this repository,
  so `Client.Send` only records the call, with its `flow=` tag and outcome.
- `flow_plan.dfy` (`FlowPlan`): each flow written as data (a list of
  `success &= call`, `if success:` blocks and `if not success: return False`),
  and an interpreter `Exec`. The general lemmas proved here hold for every flow
  plan.
- `slumberland_user.dfy`, `neverwinter_user.dfy`: the tenant classes' constants
  (tenant id, `between(...)` wait range, `@task` weights) and flows. Each flow
  is an imperative method that mirrors the Python statement by statement. Its
  `ensures` lists exactly the calls it appends to the trace, with their tags
  and outcomes, and states its result. A lemma per flow plan
  (`BrowsePlanCalls`, `RewardsPlanCalls`, `CartPlanCalls`, `OutletPlanCalls`,
  `MinimalPlanCalls`) proves that the plan, run by `Exec`, issues the same
  calls and returns the same result. The general `FlowPlan` lemmas then apply
  to every flow. The four Slumberland flows take the `flow` tag as a parameter
  whose default is the Python default (`BrowseFlow` = `"browse_products_flow"`,
  and so on).
- `config.dfy` (`Config`): `TENANT_CONFIGS` and `get_tenant_config`.
- `base_user.dfy` (`BaseUser`): `dict.update`, the outcome of
  `MultiTenantUser.__init__` as a function, and the class `MultiTenantUser`.
  `MultiTenantUser.New` runs `__init__` on a fresh user.
- `mock_backend.py` is modelled in `mock_backend.dfy` (`MockBackend`):
  `graphql_handler` as a function of the header and the draw.

Facts the model proves:

- **Outlet flow keeps going after a failure.** In `_outlet_management_flow`,
  the five refresh calls run as a group once `get_user_info` succeeds. They
  keep running after one of them fails, because `&=` does not stop control
  flow. The flow's result is still the AND of all seven outcomes. The model
  keeps this behaviour as written.
- **Every user gets tenant `"slumberland"`.** `MultiTenantUser.__init__`
  assigns `'slumberland'` and never calls the subclass's `get_tenant_id`. A
  Neverwinter user therefore also gets `"slumberland"`, which is not its own
  tenant id (`ConstructedTenantIsNotOwn`).
- **Construction with the shipped table always raises.** The shipped table has
  no `"headers"` key, so constructing any user raises `KeyError('headers')`.
  `MultiTenantUser.New` and `Construct` take the table as a parameter, so the
  merge path is verified for tables that do carry headers.
  `ShippedTableRaisesKeyError` states the outcome for the shipped table.

Behaviour a reader might expect that the code does not have:

- The code's lookup returns the stored entry, not a copy.
- The outlet flow does not skip the refresh calls after one fails.
- The mock backend answers only 500 with the text "Gamma crash", or 200 with a
  fixed status body. There is no per-operation payload and no choice among
  502, 503 and 504.
- The latency and error constants are hard-coded per tenant name, not looked
  up in a profile table.
- The tenant id comes from the base class constant, not from the subclass.

## Model

| member | source | states |
|---|---|---|
| `FlowPlan.ResultIsConjunction` | tenants/slumberland_user.py:24-79 | a flow whose calls all feed `success &=` (with early `return False` allowed) returns exactly the AND of the outcomes of the calls it issued |
| `FlowPlan.CallsTaggedAndAnswered` | tenants/slumberland_user.py:24-79 | every call a flow issues carries the flow's `flow=` tag, and each outcome is the gateway's answer for the position it was issued at |
| `FlowPlan.RunStepsCalls` | tenants/slumberland_user.py:59-64 | a block under `if success:` issues one call per statement, in order, whatever the outcomes of the earlier calls in the block |
| `FlowPlan.RunStepsConjunction` | tenants/slumberland_user.py:60-64 | after a block of `success &=` calls, `success` is its old value ANDed with every outcome in the block |
| `SlumberlandUser.GatedPairCalls` | tenants/slumberland_user.py:24-29 | a two-step flow always calls the first helper, calls the second only if the first succeeded, and returns the AND of the two outcomes (browse, rewards and cart flows) |
| `SlumberlandUser.BrowsePlanCalls` | tenants/slumberland_user.py:24-29 | the browse plan issues `get_product_list`, then `get_profile_rewards` exactly when that succeeded, and returns the AND of the outcomes |
| `SlumberlandUser.RewardsPlanCalls` | tenants/slumberland_user.py:36-41 | the rewards plan issues `get_profile_rewards`, then `get_order_streak_offers` exactly when that succeeded, and returns the AND of the outcomes |
| `SlumberlandUser.CartPlanCalls` | tenants/slumberland_user.py:74-79 | the cart plan issues `get_cart`, then `get_notifications` exactly when that succeeded, and returns the AND of the outcomes |
| `SlumberlandUser.BrowseProductsFlow` | tenants/slumberland_user.py:24-29 | appends exactly `get_product_list`, then `get_profile_rewards` only if that succeeded, both tagged with `flow`, and returns the AND of the outcomes |
| `SlumberlandUser.RewardsCheckFlow` | tenants/slumberland_user.py:36-41 | appends exactly `get_profile_rewards`, then `get_order_streak_offers` only if that succeeded, both tagged with `flow`, and returns the AND of the outcomes |
| `SlumberlandUser.CartAndNotificationsFlow` | tenants/slumberland_user.py:74-79 | appends exactly `get_cart`, then `get_notifications` only if that succeeded, both tagged with `flow`, and returns the AND of the outcomes |
| `SlumberlandUser.RefreshBlockRuns` | tenants/slumberland_user.py:59-64 | the five refresh calls are issued in the fixed order rewards, streak offers, product list, cart, notifications, and the block's `success` is the AND of their outcomes |
| `SlumberlandUser.OutletPlanCalls` | tenants/slumberland_user.py:53-64 | a failed `change_outlet` ends the flow with False after one call; a failed `get_user_info` ends it with False after two calls; otherwise all five refresh calls follow whatever their outcomes, and the result is the AND of all seven |
| `SlumberlandUser.OutletManagementFlow` | tenants/slumberland_user.py:48-67 | appends `change_outlet`; if it failed, returns False with no further call; otherwise appends `get_user_info` and, if that succeeded, all five refresh calls; returns the AND of all outcomes |
| `SlumberlandUser.EveryFlowReturnsConjunction` | tenants/slumberland_user.py:19-79 | each of the four Slumberland flows returns the AND of the outcomes of the calls it issued and tags every call with the `flow` argument |
| `NeverwinterUser.ConstructedTenantIsNotOwn` | tenants/neverwinter_user.py:11-12 | the tenant every user is constructed with differs from the id `get_tenant_id` returns for Neverwinter |
| `NeverwinterUser.SingleCall` | tenants/neverwinter_user.py:14-22 | a one-call task issues exactly that call, tagged with the task's name, and hands on that call's outcome |
| `NeverwinterUser.RapidProductBrowsing` | tenants/neverwinter_user.py:15-17 | appends exactly one `get_product_list` call tagged `rapid_product_browsing`; the value passed on for measurement is its outcome |
| `NeverwinterUser.QuickRewardsCheck` | tenants/neverwinter_user.py:20-22 | appends exactly one `get_profile_rewards` call tagged `quick_rewards_check`; the value passed on for measurement is its outcome |
| `NeverwinterUser.MinimalPlanCalls` | tenants/neverwinter_user.py:25-29 | `change_outlet` is always called; `get_user_info` is called exactly when it succeeded, otherwise exactly one call is made |
| `NeverwinterUser.MinimalOutletFlow` | tenants/neverwinter_user.py:25-29 | appends `change_outlet`, then `get_user_info` only if it succeeded, both tagged `minimal_outlet_flow`; it returns no value, so nothing is measured |
| `Config.Lookup` | utils/config.py:12 | a subscript succeeds exactly when the key is in the table, giving the stored entry, and otherwise raises KeyError naming the key |
| `Config.GetTenantConfig` | utils/config.py:1-12 | the lookup succeeds exactly for `"slumberland"`, and the entry it returns names that tenant under `"tenant"`; any other name raises KeyError with that name |
| `Config.EntriesNameTheirTenant` | utils/config.py:1-8 | every entry of the table names its own key under `"tenant"` |
| `Config.OtherTenantsAreUnknown` | utils/config.py:11-12 | looking up `"neverwinter"` or `"wonderland"` raises KeyError |
| `Config.NoEntryHasHeaders` | utils/config.py:1-8 | no entry of the table has a `"headers"` key |
| `BaseUser.Update` | core/base_user.py:14 | `dict.update` with a dictionary keeps every existing key, takes the given values for the given keys and leaves the other values alone; with a string it accepts only the empty string (no change) and otherwise raises ValueError |
| `BaseUser.Construct` | core/base_user.py:10-15 | construction looks up `"slumberland"` (KeyError if absent), then needs a `"headers"` key in the entry (KeyError otherwise); on success the configuration is the table's entry and the headers are the merge of the old headers with the configured ones |
| `BaseUser.ShippedTableRaisesKeyError` | core/base_user.py:13-14 | with the shipped table, constructing any user raises `KeyError('headers')` |
| `BaseUser.MultiTenantUser.New` | core/base_user.py:10-15 | on success, a fresh user with tenant `"slumberland"` whatever its class, the looked-up configuration, no outlet ids, and the client's headers merged in place; on an exception, no user and the headers untouched |
| `MockBackend.Handle` | mock_backend.py:13-23 | a 500 "Gamma crash" is returned exactly when the tenant is `"neverwinter"` and the draw is below 0.3, with no latency applied; every other response is 200 with a status body that echoes the request's tenant, after the tenant's latency range |
| `MockBackend.LatencyFor` | mock_backend.py:18-22 | every latency range is a positive, non-empty interval |
| `MockBackend.LatencyRanges` | mock_backend.py:18-22 | the range is [0.4, 1.2] for neverwinter, [0.2, 0.4] for wonderland and [0.05, 0.1] for any other tenant |
| `MockBackend.MissingHeaderIsUnknownTenant` | mock_backend.py:14 | a request without `X-Tenant-ID` is served as tenant `"unknown"`: a 200 with the shortest latency range, never an error |
| `MockBackend.DrawOnlyDecidesFailure` | mock_backend.py:15-23 | two successful responses to the same header are identical: the draw decides only whether a Neverwinter request fails |

The tenant ids, `between(...)` wait ranges and `@task` weights are recorded as
data:

- `SlumberlandUser`: `TenantId`, `WaitTime` = [2, 8], `Tasks` = 3/2/1/1.
- `NeverwinterUser`: `TenantId`, `WaitTime` = [1, 4], `Tasks` = 5/2/1.
- `BaseUser`: `DefaultWaitTime` = [1, 5] and `Host`.
- `Config`: `DefaultTenantName`, the default argument of `get_tenant_config`.

## Left out

- The gateway helpers (`get_product_list`, `change_outlet`, ...) are not defined in this repository. Their outcomes come from an oracle indexed by the call's position in the session.
- `measure_task_duration` and the `@task` wrappers that pass a flow to it (`browse_products_flow`, ...) are left out. `measure_task_duration` is not defined in this repository; it is assumed to call the flow once and only time it.
- Locust's weighted task scheduling, the `between(...)` think-time sleeps and `HttpUser.__init__` are runtime library code. Weights and ranges are kept as data only. The client is given to `MultiTenantUser.New`.
- The class weights in `locustfile.py` (1 and 2) are used only by the Locust runtime.
- `on_tenant_start` and the `print` calls in the outlet flow only write output.
- `utils/graphql_loader.py` is not part of this model. It only reads a file.
- Header names are compared exactly. The case-insensitive matching of the HTTP libraries' header dictionaries is not modelled.
- Object identity is not modelled. `get_tenant_config` returns the stored dictionary itself, so a caller that mutated it would change the table. Here entries are values.
- On an exception in `__init__`, Python has already set fields on the half-built object: only `tenant_id` when the lookup raises `KeyError('slumberland')`; `tenant_id` and `config` when the merge raises `KeyError('headers')` or `ValueError`. That object is discarded, so `MultiTenantUser.New` returns no user.
- In the mock backend, the draw is a real number and not a floating-point value. `time.sleep` and `random.uniform` are represented by the chosen latency range, not by a wait.
- Flask setup, routing and `app.run` with the `PORT` variable are server plumbing.
- Concurrency between simulated users is not modelled. Each user runs sequentially and users share no mutable state.
