/** The tenant flows written as data: each flow is a short list of
    statements over one boolean `success` that starts out true, and `Exec`
    runs such a list against the gateway oracle.  The flow methods of the
    tenant modules are proved to issue exactly the calls `Exec` issues and to
    return its result; the lemmas here state what every such flow does. */
module FlowPlan {
  import opened Gateway

  /** A gateway call inside a flow. */
  datatype Step =
    | AndCall(op: Operation)    // success &= self.<op>(flow=flow)
    | BareCall(op: Operation)   // self.<op>(flow=flow), outcome discarded

  datatype Stmt =
    | Do(step: Step)
    | IfSuccess(block: seq<Step>)   // if success: <block>
    | ReturnIfFailed                // if not success: return False

  /** The calls a flow issued, its `success` variable, and whether it left
      through an early `return False`. */
  datatype Outcome = Outcome(calls: seq<Call>, success: bool, returned: bool)

  /** The value the flow returns. */
  function FlowResult(o: Outcome): bool {
    !o.returned && o.success
  }

  /** Runs a block of calls unconditionally, one after another, starting at
      call position n. */
  function RunSteps(steps: seq<Step>, oracle: Oracle, n: nat, flow: string, success: bool): (o: Outcome)
    ensures !o.returned && |o.calls| == |steps|
  {
    if steps == [] then Outcome([], success, false)
    else
      var op := steps[0].op;
      var ok := oracle(n, op);
      var rest := RunSteps(steps[1..], oracle, n + 1, flow,
                           if steps[0].AndCall? then success && ok else success);
      Outcome([Call(op, flow, ok)] + rest.calls, rest.success, false)
  }

  /** Runs a flow body from call position n with the given `success`. */
  function Exec(body: seq<Stmt>, oracle: Oracle, n: nat, flow: string, success: bool): (o: Outcome)
  {
    if body == [] then Outcome([], success, false)
    else match body[0]
      case Do(step) =>
        var a := RunSteps([step], oracle, n, flow, success);
        var b := Exec(body[1..], oracle, n + 1, flow, a.success);
        Outcome(a.calls + b.calls, b.success, b.returned)
      case IfSuccess(block) =>
        if success then
          var a := RunSteps(block, oracle, n, flow, success);
          var b := Exec(body[1..], oracle, n + |a.calls|, flow, a.success);
          Outcome(a.calls + b.calls, b.success, b.returned)
        else Exec(body[1..], oracle, n, flow, success)
      case ReturnIfFailed =>
        if success then Exec(body[1..], oracle, n, flow, success)
        else Outcome([], false, true)
  }

  /** One step of a block, unfolded. */
  lemma RunStepsCons(step: Step, rest: seq<Step>, oracle: Oracle, n: nat, flow: string, success: bool)
    ensures var ok := oracle(n, step.op);
      var r := RunSteps(rest, oracle, n + 1, flow, if step.AndCall? then success && ok else success);
      RunSteps([step] + rest, oracle, n, flow, success) == Outcome([Call(step.op, flow, ok)] + r.calls, r.success, false)
  {
    assert ([step] + rest)[1..] == rest;
  }

  /** A call statement of a flow body, unfolded. */
  lemma ExecDo(step: Step, rest: seq<Stmt>, oracle: Oracle, n: nat, flow: string, success: bool)
    ensures var ok := oracle(n, step.op);
      var b := Exec(rest, oracle, n + 1, flow, if step.AndCall? then success && ok else success);
      Exec([Do(step)] + rest, oracle, n, flow, success) == Outcome([Call(step.op, flow, ok)] + b.calls, b.success, b.returned)
  {
    assert ([Do(step)] + rest)[1..] == rest;
    RunStepsCons(step, [], oracle, n, flow, success);
  }

  /** An `if success:` block of a flow body, unfolded. */
  lemma ExecIf(block: seq<Step>, rest: seq<Stmt>, oracle: Oracle, n: nat, flow: string, success: bool)
    ensures Exec([IfSuccess(block)] + rest, oracle, n, flow, success) ==
      if success then
        var a := RunSteps(block, oracle, n, flow, success);
        var b := Exec(rest, oracle, n + |a.calls|, flow, a.success);
        Outcome(a.calls + b.calls, b.success, b.returned)
      else Exec(rest, oracle, n, flow, success)
  {
    assert ([IfSuccess(block)] + rest)[1..] == rest;
  }

  /** An `if not success: return False` of a flow body, unfolded. */
  lemma ExecReturn(rest: seq<Stmt>, oracle: Oracle, n: nat, flow: string, success: bool)
    ensures Exec([ReturnIfFailed] + rest, oracle, n, flow, success) ==
      if success then Exec(rest, oracle, n, flow, success) else Outcome([], false, true)
  {
    assert ([ReturnIfFailed] + rest)[1..] == rest;
  }

  /** Every call of the block feeds `success &=`. */
  predicate AllAndCalls(steps: seq<Step>) {
    forall i :: 0 <= i < |steps| ==> steps[i].AndCall?
  }

  /** The statement feeds every call it makes into `success &=`. */
  predicate AccumulatingStmt(s: Stmt) {
    && (s.Do? ==> s.step.AndCall?)
    && (s.IfSuccess? ==> AllAndCalls(s.block))
  }

  /** No call's outcome is discarded: every call feeds `success &=`. */
  predicate Accumulating(body: seq<Stmt>) {
    forall i :: 0 <= i < |body| ==> AccumulatingStmt(body[i])
  }

  lemma {:induction false} RunStepsConjunction(steps: seq<Step>, oracle: Oracle, n: nat, flow: string, success: bool)
    requires AllAndCalls(steps)
    ensures var o := RunSteps(steps, oracle, n, flow, success);
      o.success == (success && AllOk(o.calls))
  {
    if steps != [] {
      var ok := oracle(n, steps[0].op);
      assert AllAndCalls(steps[1..]) by {
        forall i | 0 <= i < |steps[1..]| ensures steps[1..][i].AndCall? {
          assert steps[1..][i] == steps[i + 1];
        }
      }
      RunStepsConjunction(steps[1..], oracle, n + 1, flow, success && ok);
      var rest := RunSteps(steps[1..], oracle, n + 1, flow, success && ok);
      var o := RunSteps(steps, oracle, n, flow, success);
      assert o.calls == [Call(steps[0].op, flow, ok)] + rest.calls;
      assert AllOk(o.calls) == (ok && AllOk(rest.calls)) by {
        assert forall c :: c in o.calls <==> c == Call(steps[0].op, flow, ok) || c in rest.calls;
      }
    }
  }

  /** A block issues one call per step, in order, each answered by the
      oracle at its own position, whatever `success` is on the way. */
  lemma {:induction false} RunStepsCalls(steps: seq<Step>, oracle: Oracle, n: nat, flow: string, success: bool)
    ensures var o := RunSteps(steps, oracle, n, flow, success);
      forall i :: 0 <= i < |steps| ==> o.calls[i] == Call(steps[i].op, flow, oracle(n + i, steps[i].op))
  {
    if steps != [] {
      var ok := oracle(n, steps[0].op);
      var s' := if steps[0].AndCall? then success && ok else success;
      RunStepsCalls(steps[1..], oracle, n + 1, flow, s');
      var rest := RunSteps(steps[1..], oracle, n + 1, flow, s');
      var o := RunSteps(steps, oracle, n, flow, success);
      forall i | 0 <= i < |steps|
        ensures o.calls[i] == Call(steps[i].op, flow, oracle(n + i, steps[i].op))
      {
        if i > 0 {
          assert o.calls[i] == rest.calls[i - 1];
          assert steps[1..][i - 1] == steps[i];
        }
      }
    }
  }

  /** A flow made only of `success &=` calls returns exactly the AND of the
      outcomes of the calls it issued (starting from `success = True`). */
  lemma {:induction false} ResultIsConjunction(body: seq<Stmt>, oracle: Oracle, n: nat, flow: string, success: bool)
    requires Accumulating(body)
    ensures var o := Exec(body, oracle, n, flow, success);
      FlowResult(o) == (success && AllOk(o.calls))
  {
    if body != [] {
      var o := Exec(body, oracle, n, flow, success);
      assert AccumulatingStmt(body[0]);
      assert Accumulating(body[1..]) by {
        forall i | 0 <= i < |body[1..]| ensures AccumulatingStmt(body[1..][i]) {
          assert body[1..][i] == body[i + 1];
        }
      }
      match body[0]
      case Do(step) =>
        RunStepsConjunction([step], oracle, n, flow, success);
        var a := RunSteps([step], oracle, n, flow, success);
        ResultIsConjunction(body[1..], oracle, n + 1, flow, a.success);
        var b := Exec(body[1..], oracle, n + 1, flow, a.success);
        assert AllOk(a.calls + b.calls) == (AllOk(a.calls) && AllOk(b.calls));
      case IfSuccess(block) =>
        if success {
          RunStepsConjunction(block, oracle, n, flow, success);
          var a := RunSteps(block, oracle, n, flow, success);
          ResultIsConjunction(body[1..], oracle, n + |a.calls|, flow, a.success);
          var b := Exec(body[1..], oracle, n + |a.calls|, flow, a.success);
          assert AllOk(a.calls + b.calls) == (AllOk(a.calls) && AllOk(b.calls));
        } else {
          ResultIsConjunction(body[1..], oracle, n, flow, success);
        }
      case ReturnIfFailed =>
        if success {
          ResultIsConjunction(body[1..], oracle, n, flow, success);
        }
    }
  }

  /** Every call a flow issues carries the flow's tag, and its outcome is
      the oracle's answer for the position it was issued at. */
  lemma {:induction false} CallsTaggedAndAnswered(body: seq<Stmt>, oracle: Oracle, n: nat, flow: string, success: bool)
    ensures var o := Exec(body, oracle, n, flow, success);
      TaggedWith(o.calls, flow) && Answered(o.calls, oracle, n)
  {
    if body != [] {
      match body[0]
      case Do(step) =>
        var a := RunSteps([step], oracle, n, flow, success);
        CallsTaggedAndAnswered(body[1..], oracle, n + 1, flow, a.success);
        var b := Exec(body[1..], oracle, n + 1, flow, a.success);
        AppendTaggedAndAnswered(a.calls, b.calls, oracle, n, flow);
      case IfSuccess(block) =>
        if success {
          BlockTaggedAndAnswered(block, oracle, n, flow, success);
          var a := RunSteps(block, oracle, n, flow, success);
          CallsTaggedAndAnswered(body[1..], oracle, n + |a.calls|, flow, a.success);
          var b := Exec(body[1..], oracle, n + |a.calls|, flow, a.success);
          AppendTaggedAndAnswered(a.calls, b.calls, oracle, n, flow);
        } else {
          CallsTaggedAndAnswered(body[1..], oracle, n, flow, success);
        }
      case ReturnIfFailed =>
        if success {
          CallsTaggedAndAnswered(body[1..], oracle, n, flow, success);
        }
    }
  }

  lemma {:induction false} BlockTaggedAndAnswered(steps: seq<Step>, oracle: Oracle, n: nat, flow: string, success: bool)
    ensures var o := RunSteps(steps, oracle, n, flow, success);
      TaggedWith(o.calls, flow) && Answered(o.calls, oracle, n)
  {
    if steps != [] {
      var ok := oracle(n, steps[0].op);
      var s' := if steps[0].AndCall? then success && ok else success;
      BlockTaggedAndAnswered(steps[1..], oracle, n + 1, flow, s');
      var rest := RunSteps(steps[1..], oracle, n + 1, flow, s');
      AppendTaggedAndAnswered([Call(steps[0].op, flow, ok)], rest.calls, oracle, n, flow);
    }
  }

  lemma AppendTaggedAndAnswered(a: seq<Call>, b: seq<Call>, oracle: Oracle, n: nat, flow: string)
    requires TaggedWith(a, flow) && Answered(a, oracle, n)
    requires TaggedWith(b, flow) && Answered(b, oracle, n + |a|)
    ensures TaggedWith(a + b, flow) && Answered(a + b, oracle, n)
  {
    forall i | 0 <= i < |a + b|
      ensures (a + b)[i].ok == oracle(n + i, (a + b)[i].op)
    {
      if i >= |a| {
        assert (a + b)[i] == b[i - |a|];
      }
    }
  }
}
