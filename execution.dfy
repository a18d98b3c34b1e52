/** The item loop of `execute`: for each input item, build the request, issue it,
    and record the response; a failure either becomes an error record
    (`continueOnFail`) or aborts the whole execution.

    The HTTP call is an oracle: `responses[i]` is what the i-th call returns,
    a body or an error with its message. `Run` is the reference outcome,
    defined item by item; `Execute` is the node's `for` loop, proved to produce
    `Run`'s outcome and to issue exactly the requests `RequestFor` describes. */
module Execution {
  import opened Description
  import opened Requests

  /** The outcome of one authenticated HTTP call. */
  datatype HttpResult<B> = Ok(body: B) | Err(message: string)

  /** One entry of `returnData`: `{success: true, response}` or `{success: false, error}`. */
  datatype Record<B> = Succeeded(response: B) | Failed(error: string)

  /** What `execute` ends with: its single output branch, or the error it rethrows. */
  datatype Output<B> = Returned(records: seq<Record<B>>) | Raised(message: string)

  function RecordOf<B>(r: HttpResult<B>): Record<B> {
    match r
    case Ok(body) => Succeeded(body)
    case Err(message) => Failed(message)
  }

  /** The records of a run in which no failure aborts, one per response, in order. */
  function Records<B>(rs: seq<HttpResult<B>>): (out: seq<Record<B>>)
    ensures |out| == |rs|
    ensures forall i :: 0 <= i < |rs| ==> out[i] == RecordOf(rs[i])
  {
    if rs == [] then [] else [RecordOf(rs[0])] + Records(rs[1..])
  }

  /** The index of the first failed call, or `|rs|` when every call succeeded. */
  function FirstError<B>(rs: seq<HttpResult<B>>): (k: nat)
    ensures k <= |rs|
    ensures forall i :: 0 <= i < k ==> rs[i].Ok?
    ensures k < |rs| ==> rs[k].Err?
  {
    if rs == [] then 0
    else if rs[0].Err? then 0
    else 1 + FirstError(rs[1..])
  }

  /** The outcome of `execute` when the calls return `rs`, one item at a time: a
      failure without `continueOnFail` raises its message and nothing is returned;
      otherwise each item contributes its record in front of the rest. */
  function Run<B>(rs: seq<HttpResult<B>>, continueOnFail: bool): Output<B>
    decreases |rs|
  {
    if rs == [] then Returned([])
    else if rs[0].Err? && !continueOnFail then Raised(rs[0].message)
    else
      match Run(rs[1..], continueOnFail)
      case Raised(m) => Raised(m)
      case Returned(records) => Returned([RecordOf(rs[0])] + records)
  }

  /** The number of calls issued: all of them, unless a failure aborts the run. */
  function Attempted<B>(rs: seq<HttpResult<B>>, continueOnFail: bool): nat {
    var k := FirstError(rs);
    if continueOnFail || k == |rs| then |rs| else k + 1
  }

  /** `Run` in closed form: with `continueOnFail` every response becomes a record;
      without it, the first failure is raised, and if there is none every response
      is a success record. */
  lemma {:induction false} RunCharacterized<B>(rs: seq<HttpResult<B>>, continueOnFail: bool)
    ensures continueOnFail ==> Run(rs, continueOnFail) == Returned(Records(rs))
    ensures !continueOnFail && FirstError(rs) < |rs| ==>
              Run(rs, continueOnFail) == Raised(rs[FirstError(rs)].message)
    ensures !continueOnFail && FirstError(rs) == |rs| ==>
              Run(rs, continueOnFail) == Returned(Records(rs))
    decreases |rs|
  {
    if rs != [] {
      RunCharacterized(rs[1..], continueOnFail);
      if !(rs[0].Err? && !continueOnFail) {
        assert Records(rs) == [RecordOf(rs[0])] + Records(rs[1..]);
      }
    }
  }

  /** The `for` loop of `execute`. `requested` is the trace of requests handed to
      `httpRequestWithAuthentication`, in order. */
  method Execute<B>(items: seq<NodeParameters>, responses: seq<HttpResult<B>>, continueOnFail: bool)
    returns (output: Output<B>, requested: seq<Request>)
    requires |responses| == |items|
    ensures output == Run(responses, continueOnFail)
    ensures |requested| == Attempted(responses, continueOnFail)
    ensures forall j :: 0 <= j < |requested| ==> requested[j] == RequestFor(items[j])
  {
    var returnData: seq<Record<B>> := [];
    requested := [];
    var i := 0;
    while i < |items|
      invariant 0 <= i <= |items|
      invariant |requested| == i
      invariant forall j :: 0 <= j < i ==> requested[j] == RequestFor(items[j])
      invariant |returnData| == i
      invariant forall j :: 0 <= j < i ==> returnData[j] == RecordOf(responses[j])
      invariant !continueOnFail ==> forall j :: 0 <= j < i ==> responses[j].Ok?
    {
      var req := BuildRequest(items[i]);
      requested := requested + [req];
      match responses[i] {
        case Ok(body) =>
          returnData := returnData + [Succeeded(body)];
        case Err(message) =>
          if continueOnFail {
            returnData := returnData + [Failed(message)];
          } else {
            StrictFailureAt(responses, i);
            output := Raised(message);
            return;
          }
      }
      i := i + 1;
    }
    CompletedRun(responses, continueOnFail, returnData);
    output := Returned(returnData);
  }

  /** The loop's exit on a failure at `i` preceded by successes is `Run`'s outcome. */
  lemma StrictFailureAt<B>(rs: seq<HttpResult<B>>, i: nat)
    requires i < |rs| && rs[i].Err?
    requires forall j :: 0 <= j < i ==> rs[j].Ok?
    ensures Run(rs, false) == Raised(rs[i].message)
    ensures Attempted(rs, false) == i + 1
  {
    RunCharacterized(rs, false);
  }

  /** The loop's normal exit is `Run`'s outcome. */
  lemma CompletedRun<B>(rs: seq<HttpResult<B>>, continueOnFail: bool, records: seq<Record<B>>)
    requires |records| == |rs|
    requires forall j :: 0 <= j < |rs| ==> records[j] == RecordOf(rs[j])
    requires !continueOnFail ==> forall j :: 0 <= j < |rs| ==> rs[j].Ok?
    ensures Run(rs, continueOnFail) == Returned(records)
    ensures Attempted(rs, continueOnFail) == |rs|
  {
    RunCharacterized(rs, continueOnFail);
    assert records == Records(rs);
  }

  /** With `continueOnFail`, nothing is raised and every item yields exactly one record,
      a success record holding its response or a failure record holding the error message. */
  lemma {:induction false} ContinueOnFailRecordsEveryItem<B>(rs: seq<HttpResult<B>>)
    ensures Run(rs, true).Returned?
    ensures |Run(rs, true).records| == |rs|
    ensures forall i :: 0 <= i < |rs| ==>
              (Run(rs, true).records[i].Succeeded? <==> rs[i].Ok?)
    ensures forall i :: 0 <= i < |rs| && rs[i].Ok? ==>
              Run(rs, true).records[i] == Succeeded(rs[i].body)
    ensures forall i :: 0 <= i < |rs| && rs[i].Err? ==>
              Run(rs, true).records[i] == Failed(rs[i].message)
  {
    RunCharacterized(rs, true);
  }

  /** Without `continueOnFail`, the execution raises exactly when some call fails, and
      then with the message of the first failure. */
  lemma {:induction false} StrictRaisesIffSomeCallFails<B>(rs: seq<HttpResult<B>>)
    ensures Run(rs, false).Raised? <==> exists i :: 0 <= i < |rs| && rs[i].Err?
    ensures Run(rs, false).Raised? ==> Run(rs, false).message == rs[FirstError(rs)].message
  {
    RunCharacterized(rs, false);
  }

  /** Without `continueOnFail`, a returned output holds only success records: the results
      of items before a failure are discarded with it. */
  lemma {:induction false} StrictReturnsOnlySuccesses<B>(rs: seq<HttpResult<B>>)
    requires Run(rs, false).Returned?
    ensures |Run(rs, false).records| == |rs|
    ensures forall i :: 0 <= i < |rs| ==>
              rs[i].Ok? && Run(rs, false).records[i] == Succeeded(rs[i].body)
  {
    RunCharacterized(rs, false);
  }

  /** When no call fails, `continueOnFail` makes no difference. */
  lemma {:induction false} ModesAgreeWithoutFailures<B>(rs: seq<HttpResult<B>>)
    requires forall i :: 0 <= i < |rs| ==> rs[i].Ok?
    ensures Run(rs, true) == Run(rs, false)
  {
    RunCharacterized(rs, true);
    RunCharacterized(rs, false);
  }

  /** Without `continueOnFail`, nothing after the first failure matters: the calls
      after it are never made, and their outcomes do not affect the result. */
  lemma {:induction false} StrictStopsAtFirstFailure<B>(rs: seq<HttpResult<B>>, ss: seq<HttpResult<B>>)
    requires FirstError(rs) < |rs| && FirstError(rs) < |ss|
    requires rs[..FirstError(rs) + 1] == ss[..FirstError(rs) + 1]
    ensures Attempted(rs, false) == FirstError(rs) + 1
    ensures Attempted(ss, false) == FirstError(rs) + 1
    ensures Run(rs, false) == Run(ss, false)
  {
    var k := FirstError(rs);
    assert forall i :: 0 <= i <= k ==> ss[i] == rs[i] by {
      forall i | 0 <= i <= k ensures ss[i] == rs[i] {
        assert ss[..k + 1][i] == rs[..k + 1][i];
      }
    }
    assert FirstError(ss) == k;
    RunCharacterized(rs, false);
    RunCharacterized(ss, false);
  }
}
