/** The aggregator's root route: the caller is authenticated first, then the
    streaming generator mints its outbound credentials, plans one task per
    registry entry, dispatches them all and drains them in completion order. */
module Service {
  import opened Outcomes
  import opened Registry
  import opened Planner
  import opened Dispatch
  import opened Stream
  import opened Auth

  /** The outbound credentials the generator obtains before planning: an
      identity token for the gcp probes and temporary aws credentials. */
  datatype Minted = Minted(idToken: string, creds: Credentials)

  /** Why a started stream ended early: minting raised, a registry section
      was missing, or a task raised. */
  datatype StreamFailure = MintFailed(reason: string) | KeyError(namespace: string) | TaskRaised(reason: string)

  /** The route's reply: an authentication error before any streaming, or
      a stream with the requests it dispatched, the records it emitted and
      the exception that ended it early, if any. */
  datatype Reply<C> =
    | Denied(status: nat, detail: string, headers: seq<(string, string)>)
    | Streamed(user: C, requests: seq<Request>, records: seq<string>, body: string, failure: Option<StreamFailure>)

  /** The outbound requests a reply issued. */
  function Dispatched<C>(reply: Reply<C>): seq<Request>
  {
    if reply.Streamed? then reply.requests else []
  }

  /** Every task of the plan dispatched, none held back. */
  predicate DispatchesPlan(requests: seq<Request>, tasks: seq<Task>, target: string, m: Minted)
  {
    |requests| == |tasks|
    && forall i :: 0 <= i < |tasks| ==> requests[i] == BuildRequest(tasks[i], target, m.idToken, m.creds)
  }

  /** Handles `GET /?url=target`. A rejected caller gets the 401 of the auth
      gate and no outbound request is made. An admitted caller gets a stream:
      if minting succeeds and every section is present, one request per
      registry entry is dispatched; the records are those of the tasks that
      completed before the first one that raised, in completion order, the
      stream ends with that task's exception, and when none raised the
      records are a permutation of all tasks' records. */
  method Root<C>(target: string, credential: Option<string>, verify: string -> Verification<C>,
                 urls: Urls, minted: Result<Minted, string>,
                 completions: seq<Completion>, order: seq<nat>, encode: LatencyResponse -> string)
    returns (reply: Reply<C>)
    requires Plan(urls).Ok? ==> |completions| == |Plan(urls).value| && IsCompletionOrder(order, |Plan(urls).value|)
    ensures reply.Denied? <==> credential.None? || verify(credential.value).Refused?
    ensures reply.Denied? ==> reply.status == 401 && Dispatched(reply) == []
    ensures reply.Denied? ==>
              var gate := GetUserToken(credential, verify);
              reply == Denied(gate.status, gate.detail, gate.headers)
    ensures reply.Streamed? ==> reply.user == verify(credential.value).claims && reply.body == Frame(reply.records)
    ensures reply.Streamed? && (minted.Err? || Plan(urls).Err?) ==> reply.records == [] && Dispatched(reply) == []
    ensures reply.Streamed? && minted.Err? ==> reply.failure == Some(MintFailed(minted.error))
    ensures reply.Streamed? && minted.Ok? && Plan(urls).Err? ==>
              reply.failure == Some(KeyError(Plan(urls).error.namespace))
    ensures reply.Streamed? && minted.Ok? && Plan(urls).Ok? ==>
              && DispatchesPlan(reply.requests, Plan(urls).value, target, minted.value)
              && InCompletionOrder(reply.records, Plan(urls).value, completions, encode, order)
              && (reply.failure.None? <==> AllReplied(completions))
              && (reply.failure.Some? ==>
                    reply.failure.value.TaskRaised?
                    && StoppedAtRaise(reply.records, completions, order, reply.failure.value.reason))
              && (reply.failure.None? ==> multiset(reply.records) == multiset(ResultLines(Plan(urls).value, completions, encode)))
  {
    var gate := GetUserToken(credential, verify);
    if gate.Unauthorized? {
      return Denied(gate.status, gate.detail, gate.headers);
    }
    if minted.Err? {
      return Streamed(gate.claims, [], [], [], Some(MintFailed(minted.error)));
    }
    var plan := Plan(urls);
    if plan.Err? {
      return Streamed(gate.claims, [], [], [], Some(KeyError(plan.error.namespace)));
    }
    var tasks := plan.value;
    var m := minted.value;
    var requests := seq(|tasks|, i requires 0 <= i < |tasks| => BuildRequest(tasks[i], target, m.idToken, m.creds));
    var records, raised := Drain(tasks, completions, order, encode);
    if raised.None? {
      CompletionOrderCovers(order, |tasks|);
      DrainedAll(tasks, completions, order, encode, records);
    }
    var failure := if raised.Some? then Some(TaskRaised(raised.value)) else None;
    reply := Streamed(gate.claims, requests, records, Frame(records), failure);
  }
}
