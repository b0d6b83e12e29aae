/** The GraphQL gateway as the simulated users see it: a client whose
    headers travel with every request, and the named gateway helpers
    (`get_product_list`, `change_outlet`, ...) that each send one request and
    report success as a boolean.  The helpers themselves are not part of this
    model: their outcomes come from an oracle, and every call is recorded in
    the client's trace. */
module Gateway {

  /** The gateway helpers the tenant flows call. */
  datatype Operation =
    | GetProductList
    | GetProfileRewards
    | GetOrderStreakOffers
    | ChangeOutlet
    | GetUserInfo
    | GetCart
    | GetNotifications

  /** One issued call: the helper, the `flow=` tag it was given, and whether
      the helper reported success. */
  datatype Call = Call(op: Operation, flow: string, ok: bool)

  /** The outcome of the n-th call of a session (counted from 0) when that
      call is to the given helper. */
  type Oracle = (nat, Operation) -> bool

  type Headers = map<string, string>

  /** Every call reported success. */
  predicate AllOk(calls: seq<Call>) {
    forall c :: c in calls ==> c.ok
  }

  /** Every call carries the given flow tag. */
  predicate TaggedWith(calls: seq<Call>, flow: string) {
    forall c :: c in calls ==> c.flow == flow
  }

  /** Each call's outcome is the oracle's answer for its position, the first
      call sitting at position n. */
  predicate Answered(calls: seq<Call>, oracle: Oracle, n: nat) {
    forall i :: 0 <= i < |calls| ==> calls[i].ok == oracle(n + i, calls[i].op)
  }

  /** The HTTP client of one simulated user: its session headers and the
      trace of gateway calls it has sent so far. */
  class Client {
    var headers: Headers
    var trace: seq<Call>
    const oracle: Oracle

    constructor (headers: Headers, oracle: Oracle)
      ensures this.headers == headers && this.oracle == oracle
      ensures trace == []
    {
      this.headers := headers;
      this.oracle := oracle;
      trace := [];
    }

    /** One gateway helper call, `self.<op>(flow=flow)`: it is appended to
        the trace and its outcome is the oracle's answer for its position. */
    method Send(op: Operation, flow: string) returns (ok: bool)
      modifies this`trace
      ensures ok == oracle(|old(trace)|, op)
      ensures trace == old(trace) + [Call(op, flow, ok)]
    {
      ok := oracle(|trace|, op);
      trace := trace + [Call(op, flow, ok)];
    }
  }
}
