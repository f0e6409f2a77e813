/** The fallback engine: walk the payload's model list in order, call the provider adapter once
    per model, record one attempt per call and stop at the first success. */
module Handler {
  import opened Common
  import Text
  import Registry
  import Payload

  /** Token counts as the provider reports them. */
  type Usage = map<string, int>

  /** What one completion call is given: the resolved LiteLLM id and the payload's parameters. */
  datatype CallRequest = CallRequest(modelId: string, prompt: string, maxTokens: int, temperature: real)

  /** What the provider call ends in: a completion (with its cost when LiteLLM could price it),
      or an exception, kept as its message. */
  datatype Reply =
    | Answer(content: string, usage: Usage, cost: Option<real>)
    | Exception(message: string)

  /** The provider adapter. The first argument is the position of the call within one
      `process` run, so successive calls may answer differently. */
  type Adapter = (nat, CallRequest) -> Reply

  /** The two registry lookups the engine uses. The properties of a run below hold for any
      lookups; `Static` is the registry of the system. */
  datatype Lookups = Lookups(resolve: string -> Result<string, Error>, displayName: string -> string)

  const Static: Lookups := Lookups(Registry.GetModelId, Registry.GetModelName)

  /** The dictionary `_call_model` returns. */
  datatype CallResult =
    | CallSucceeded(content: string, modelUsed: string, usage: Usage, cost: Option<real>)
    | CallFailed(error: string)

  datatype Status = Success | Failed

  /** One entry of the attempt history. */
  datatype Attempt = Attempt(model: string, name: string, status: Status, error: string)

  /** `SimpleResponse`. */
  datatype SimpleResponse = SimpleResponse(
    success: bool,
    content: Option<string>,
    modelUsed: Option<string>,
    cost: Option<real>,
    usage: Option<Usage>,
    error: Option<string>,
    attempts: Option<seq<Attempt>>)

  /** The text of a failed attempt: the display name, then the adapter's message verbatim. */
  function FailureText(reg: Lookups, key: string, message: string): string
  {
    reg.displayName(key) + " failed: " + message
  }

  /** `_call_model`. The key is resolved before the guarded block, so an unknown key raises out
      of the call instead of becoming a failed result: the lookup's error for a key that does not
      resolve; otherwise the adapter is asked with the resolved id and the caller's parameters
      unchanged, an answer is passed on with the resolved id as `model_used`, and an exception
      becomes a failure text. */
  function CallModel(reg: Lookups, key: string, prompt: string, maxTokens: int, temperature: real,
                     adapter: Adapter, call: nat): (r: Result<CallResult, Error>)
    ensures r.Err? <==> reg.resolve(key).Err?
    ensures r.Err? ==> r.error == reg.resolve(key).error
    ensures r.Ok? ==>
      var reply := adapter(call, CallRequest(reg.resolve(key).value, prompt, maxTokens, temperature));
      && (reply.Answer? ==> r.value == CallSucceeded(reply.content, reg.resolve(key).value, reply.usage, reply.cost))
      && (reply.Exception? ==> r.value == CallFailed(FailureText(reg, key, reply.message)))
  {
    match reg.resolve(key)
    case Err(e) => Err(e)
    case Ok(modelId) =>
      var name := reg.displayName(key);
      match adapter(call, CallRequest(modelId, prompt, maxTokens, temperature))
      case Answer(content, usage, cost) => Ok(CallSucceeded(content, modelId, usage, cost))
      case Exception(message) => Ok(CallFailed(name + " failed: " + message))
  }

  /** The attempt record `process` appends for one call. */
  function AttemptRecord(reg: Lookups, key: string, result: CallResult): (a: Attempt)
    ensures a.model == key && a.name == reg.displayName(key)
    ensures a.status == Success <==> result.CallSucceeded?
    ensures a.status == Success ==> a.error == ""
    ensures a.status == Failed ==> a.error == result.error
  {
    Attempt(key, reg.displayName(key),
            if result.CallSucceeded? then Success else Failed,
            if result.CallFailed? then result.error else "")
  }

  /** The summary of an exhausted run. */
  function AllFailedMessage(n: nat): string
  {
    "All " + Text.NatToString(n) + " models failed"
  }

  /** The summary of a one-model run, spelled out. */
  lemma OneModelFailedText()
    ensures AllFailedMessage(1) == "All 1 models failed"
  {
    assert Text.NatToString(1) == "1";
  }

  // ---- specification of one `process` run ----------------------------------------------

  /** The call `process` makes for the i-th model. */
  function CallAt(reg: Lookups, p: Payload.EventPayload, adapter: Adapter, i: nat): Result<CallResult, Error>
    requires i < |p.models|
  {
    CallModel(reg, p.models[i], p.prompt, p.maxTokens, p.temperature, adapter, i)
  }

  /** The i-th call returns normally with a failure, so the run moves on. */
  predicate FailsAt(reg: Lookups, p: Payload.EventPayload, adapter: Adapter, i: nat)
    requires i < |p.models|
  {
    CallAt(reg, p, adapter, i).Ok? && CallAt(reg, p, adapter, i).value.CallFailed?
  }

  /** The index at which the run stops, starting from `from`: the first call that succeeds or
      raises, or the length of the list when every call fails. */
  function FirstStop(reg: Lookups, p: Payload.EventPayload, adapter: Adapter, from: nat): (k: nat)
    requires from <= |p.models|
    ensures from <= k <= |p.models|
    ensures forall j :: from <= j < k ==> FailsAt(reg, p, adapter, j)
    ensures k < |p.models| ==> !FailsAt(reg, p, adapter, k)
    decreases |p.models| - from
  {
    if from == |p.models| then from
    else if FailsAt(reg, p, adapter, from) then FirstStop(reg, p, adapter, from + 1)
    else from
  }

  /** The records of the first k calls, all of which failed. */
  function FailedRecords(reg: Lookups, p: Payload.EventPayload, adapter: Adapter, k: nat): (rs: seq<Attempt>)
    requires k <= FirstStop(reg, p, adapter, 0)
    ensures |rs| == k
    ensures forall j :: 0 <= j < k ==>
      FailsAt(reg, p, adapter, j) && rs[j] == AttemptRecord(reg, p.models[j], CallAt(reg, p, adapter, j).value)
  {
    if k == 0 then []
    else
      assert FailsAt(reg, p, adapter, k - 1);
      FailedRecords(reg, p, adapter, k - 1) + [AttemptRecord(reg, p.models[k - 1], CallAt(reg, p, adapter, k - 1).value)]
  }

  /** A run whose first i calls failed stops at i exactly when call i does not fail. */
  lemma StopsAt(reg: Lookups, p: Payload.EventPayload, adapter: Adapter, i: nat)
    requires i <= FirstStop(reg, p, adapter, 0)
    requires i == |p.models| || !FailsAt(reg, p, adapter, i)
    ensures FirstStop(reg, p, adapter, 0) == i
  {
  }

  /** What `process` returns (or raises) for a payload and an adapter. */
  function Outcome(reg: Lookups, p: Payload.EventPayload, adapter: Adapter): (r: Result<SimpleResponse, Error>)
    ensures var k := FirstStop(reg, p, adapter, 0);
      && (r.Err? <==> k < |p.models| && CallAt(reg, p, adapter, k).Err?)
      && (r.Ok? ==> r.value.attempts.Some? && (r.value.success <==> k < |p.models|))
  {
    var k := FirstStop(reg, p, adapter, 0);
    var tried := FailedRecords(reg, p, adapter, k);
    if k == |p.models| then
      Ok(SimpleResponse(false, None, None, None, None, Some(AllFailedMessage(|p.models|)), Some(tried)))
    else
      match CallAt(reg, p, adapter, k)
      case Err(e) => Err(e)
      case Ok(res) =>
        Ok(SimpleResponse(true, Some(res.content), Some(p.models[k]), res.cost, Some(res.usage), None,
                          Some(tried + [AttemptRecord(reg, p.models[k], res)])))
  }

  /** `process`: try each model in list order, record every attempt, return on the first
      success; an unknown key raises out of the loop and loses the attempts made so far.
      The handler of the system resolves through `Static`. */
  method Process(reg: Lookups, p: Payload.EventPayload, adapter: Adapter) returns (r: Result<SimpleResponse, Error>)
    ensures r == Outcome(reg, p, adapter)
  {
    var attempts: seq<Attempt> := [];
    for i := 0 to |p.models|
      invariant i <= FirstStop(reg, p, adapter, 0)
      invariant attempts == FailedRecords(reg, p, adapter, i)
    {
      var key := p.models[i];
      var name := reg.displayName(key);
      var result := CallModel(reg, key, p.prompt, p.maxTokens, p.temperature, adapter, i);
      if result.Err? {
        StopsAt(reg, p, adapter, i);
        return Err(result.error);
      }
      var res := result.value;
      attempts := attempts + [Attempt(key, name,
                                      if res.CallSucceeded? then Success else Failed,
                                      if res.CallFailed? then res.error else "")];
      if res.CallSucceeded? {
        StopsAt(reg, p, adapter, i);
        return Ok(SimpleResponse(true, Some(res.content), Some(key), res.cost, Some(res.usage), None,
                                 Some(attempts)));
      }
    }
    StopsAt(reg, p, adapter, |p.models|);
    r := Ok(SimpleResponse(false, None, None, None, None,
                           Some(AllFailedMessage(|p.models|)), Some(attempts)));
  }

  // ---- properties of a run ---------------------------------------------------------------

  /** The request the i-th call sends, once its key has resolved. */
  function RequestFor(reg: Lookups, p: Payload.EventPayload, i: nat): CallRequest
    requires i < |p.models| && reg.resolve(p.models[i]).Ok?
  {
    CallRequest(reg.resolve(p.models[i]).value, p.prompt, p.maxTokens, p.temperature)
  }

  /** The i-th model resolves and its adapter call raises. */
  predicate AdapterFailsAt(reg: Lookups, p: Payload.EventPayload, adapter: Adapter, i: nat)
    requires i < |p.models|
  {
    reg.resolve(p.models[i]).Ok? && adapter(i, RequestFor(reg, p, i)).Exception?
  }

  /** A call fails (and the run goes on) exactly when its key resolves and the adapter raises. */
  lemma FailsAtIff(reg: Lookups, p: Payload.EventPayload, adapter: Adapter, i: nat)
    requires i < |p.models|
    ensures FailsAt(reg, p, adapter, i) <==> AdapterFailsAt(reg, p, adapter, i)
  {
  }

  /** Attempt records follow the model list: the i-th record is about the i-th model and
      carries its display name, and there are never more records than models. */
  lemma AttemptsFollowListOrder(reg: Lookups, p: Payload.EventPayload, adapter: Adapter)
    requires Outcome(reg, p, adapter).Ok?
    ensures Outcome(reg, p, adapter).value.attempts.Some?
    ensures var a := Outcome(reg, p, adapter).value.attempts.value;
      && |a| <= |p.models|
      && forall i :: 0 <= i < |a| ==> a[i].model == p.models[i] && a[i].name == reg.displayName(p.models[i])
  {
  }

  /** The error text of each record: empty for the success, the display name and the adapter's
      message for a failure. */
  lemma AttemptErrorText(reg: Lookups, p: Payload.EventPayload, adapter: Adapter)
    requires Outcome(reg, p, adapter).Ok?
    ensures Outcome(reg, p, adapter).value.attempts.Some?
    ensures var a := Outcome(reg, p, adapter).value.attempts.value;
      forall i :: 0 <= i < |a| ==>
        && i < |p.models|
        && (a[i].status == Success ==> a[i].error == "")
        && (a[i].status == Failed ==>
              AdapterFailsAt(reg, p, adapter, i) &&
              a[i].error == FailureText(reg, p.models[i], adapter(i, RequestFor(reg, p, i)).message))
  {
    var k := FirstStop(reg, p, adapter, 0);
    forall i | 0 <= i < k
      ensures AdapterFailsAt(reg, p, adapter, i)
    {
      FailsAtIff(reg, p, adapter, i);
    }
  }

  /** A run ends in one of two states. Succeeded: the last record is the only success and names
      the model used, and there is no error. Exhausted: one failed record per model and the
      summary "All N models failed". */
  lemma RunEndsSucceededOrExhausted(reg: Lookups, p: Payload.EventPayload, adapter: Adapter)
    requires Outcome(reg, p, adapter).Ok?
    ensures Outcome(reg, p, adapter).value.attempts.Some?
    ensures var r := Outcome(reg, p, adapter).value;
      var a := r.attempts.value;
      && (r.success ==>
            && |a| >= 1
            && a[|a| - 1].status == Success
            && r.modelUsed == Some(a[|a| - 1].model)
            && r.content.Some? && r.usage.Some?
            && r.error == None
            && forall j :: 0 <= j < |a| - 1 ==> a[j].status == Failed)
      && (!r.success ==>
            && |a| == |p.models|
            && r.error == Some(AllFailedMessage(|p.models|))
            && r.content == None && r.modelUsed == None && r.usage == None && r.cost == None
            && forall j :: 0 <= j < |a| ==> a[j].status == Failed)
  {
  }

  /** First success short-circuits: when models 0..k-1 fail and model k answers, the run
      succeeds with model k's key and exactly that answer, after k+1 attempts. */
  lemma FirstSuccessWins(reg: Lookups, p: Payload.EventPayload, adapter: Adapter, k: nat)
    requires k < |p.models|
    requires forall j :: 0 <= j < k ==> AdapterFailsAt(reg, p, adapter, j)
    requires reg.resolve(p.models[k]).Ok?
    requires adapter(k, RequestFor(reg, p, k)).Answer?
    ensures Outcome(reg, p, adapter).Ok?
    ensures var r := Outcome(reg, p, adapter).value;
      var reply := adapter(k, RequestFor(reg, p, k));
      && r.success
      && r.modelUsed == Some(p.models[k])
      && r.content == Some(reply.content)
      && r.usage == Some(reply.usage)
      && r.cost == reply.cost
      && r.error == None
      && r.attempts.Some?
      && |r.attempts.value| == k + 1
      && (forall j :: 0 <= j < k ==> r.attempts.value[j].status == Failed)
      && r.attempts.value[k].status == Success
  {
    forall j | 0 <= j < k
      ensures FailsAt(reg, p, adapter, j)
    {
      FailsAtIff(reg, p, adapter, j);
    }
    StopsAt(reg, p, adapter, k);
  }

  /** Two models, the primary raises and the fallback answers: the run succeeds on the fallback
      with its answer, after one failed and one successful record. */
  lemma FallbackAfterOneFailure(reg: Lookups, p: Payload.EventPayload, adapter: Adapter)
    requires |p.models| == 2
    requires reg.resolve(p.models[0]).Ok? && reg.resolve(p.models[1]).Ok?
    requires adapter(0, RequestFor(reg, p, 0)).Exception?
    requires adapter(1, RequestFor(reg, p, 1)).Answer?
    ensures var failure := adapter(0, RequestFor(reg, p, 0));
      var reply := adapter(1, RequestFor(reg, p, 1));
      Outcome(reg, p, adapter)
        == Ok(SimpleResponse(true, Some(reply.content), Some(p.models[1]), reply.cost, Some(reply.usage), None,
                             Some([Attempt(p.models[0], reg.displayName(p.models[0]), Failed,
                                           FailureText(reg, p.models[0], failure.message)),
                                   Attempt(p.models[1], reg.displayName(p.models[1]), Success, "")])))
  {
    StopsAt(reg, p, adapter, 1);
    var first := AttemptRecord(reg, p.models[0], CallAt(reg, p, adapter, 0).value);
    assert FailedRecords(reg, p, adapter, 1) == [first];
    var second := AttemptRecord(reg, p.models[1], CallAt(reg, p, adapter, 1).value);
    assert second == Attempt(p.models[1], reg.displayName(p.models[1]), Success, "");
    assert [first] + [second] == [first, second];
  }

  /** A single model whose call raises: the run is exhausted after one failed record. */
  lemma SingleModelFails(reg: Lookups, p: Payload.EventPayload, adapter: Adapter)
    requires |p.models| == 1
    requires reg.resolve(p.models[0]).Ok?
    requires adapter(0, RequestFor(reg, p, 0)).Exception?
    ensures Outcome(reg, p, adapter)
         == Ok(SimpleResponse(false, None, None, None, None, Some(AllFailedMessage(1)),
                              Some([Attempt(p.models[0], reg.displayName(p.models[0]), Failed,
                                            FailureText(reg, p.models[0], adapter(0, RequestFor(reg, p, 0)).message))])))
  {
    StopsAt(reg, p, adapter, 1);
    assert FailedRecords(reg, p, adapter, 1) == [FailedRecords(reg, p, adapter, 1)[0]];
  }

  /** When every call fails the run is exhausted: "All N models failed" with N the list length,
      and one failed record per model. */
  lemma AllModelsFail(reg: Lookups, p: Payload.EventPayload, adapter: Adapter)
    requires forall j :: 0 <= j < |p.models| ==> AdapterFailsAt(reg, p, adapter, j)
    ensures Outcome(reg, p, adapter).Ok?
    ensures var r := Outcome(reg, p, adapter).value;
      && !r.success
      && r.error == Some(AllFailedMessage(|p.models|))
      && r.attempts.Some?
      && |r.attempts.value| == |p.models|
      && forall j :: 0 <= j < |p.models| ==> r.attempts.value[j].status == Failed
  {
    forall j | 0 <= j < |p.models|
      ensures FailsAt(reg, p, adapter, j)
    {
      FailsAtIff(reg, p, adapter, j);
    }
    StopsAt(reg, p, adapter, |p.models|);
  }

  /** An empty model list tries nothing and reports "All 0 models failed". */
  lemma EmptyListFails(reg: Lookups, p: Payload.EventPayload, adapter: Adapter)
    requires p.models == []
    ensures Outcome(reg, p, adapter)
         == Ok(SimpleResponse(false, None, None, None, None, Some("All 0 models failed"), Some([])))
  {
    assert Text.NatToString(0) == "0";
    assert AllFailedMessage(0) == "All 0 models failed";
    assert FirstStop(reg, p, adapter, 0) == 0;
    assert FailedRecords(reg, p, adapter, 0) == [];
  }

  /** A key that does not resolve, reached after earlier failures, raises the lookup's error out
      of the run: the attempts so far are lost and later models are never tried. */
  lemma UnknownKeyRaises(reg: Lookups, p: Payload.EventPayload, adapter: Adapter, k: nat)
    requires k < |p.models|
    requires forall j :: 0 <= j < k ==> AdapterFailsAt(reg, p, adapter, j)
    requires reg.resolve(p.models[k]).Err?
    ensures Outcome(reg, p, adapter) == Err(reg.resolve(p.models[k]).error)
  {
    forall j | 0 <= j < k
      ensures FailsAt(reg, p, adapter, j)
    {
      FailsAtIff(reg, p, adapter, j);
    }
    StopsAt(reg, p, adapter, k);
  }

  /** A list of keys that all resolve never makes the run raise. */
  lemma ResolvableModelsNeverRaise(reg: Lookups, p: Payload.EventPayload, adapter: Adapter)
    requires forall m :: m in p.models ==> reg.resolve(m).Ok?
    ensures Outcome(reg, p, adapter).Ok?
  {
    var k := FirstStop(reg, p, adapter, 0);
    if k < |p.models| {
      assert p.models[k] in p.models;
    }
  }

  /** The adapter is only ever asked the requests built from the payload: the i-th call gets the
      i-th model's resolved id with the payload's prompt, max_tokens and temperature unchanged.
      Two adapters that agree on those requests give the same run. */
  lemma {:induction false} OnlyPayloadRequestsMatter(reg: Lookups, p: Payload.EventPayload, a1: Adapter, a2: Adapter)
    requires forall i :: 0 <= i < |p.models| && reg.resolve(p.models[i]).Ok? ==>
               a1(i, RequestFor(reg, p, i)) == a2(i, RequestFor(reg, p, i))
    ensures Outcome(reg, p, a1) == Outcome(reg, p, a2)
  {
    forall i | 0 <= i < |p.models|
      ensures CallAt(reg, p, a1, i) == CallAt(reg, p, a2, i)
    {
    }
    var k1, k2 := FirstStop(reg, p, a1, 0), FirstStop(reg, p, a2, 0);
    assert forall j :: 0 <= j < |p.models| ==> (FailsAt(reg, p, a1, j) <==> FailsAt(reg, p, a2, j));
    assert k1 == k2;
    assert FailedRecords(reg, p, a1, k1) == FailedRecords(reg, p, a2, k2);
  }
}
