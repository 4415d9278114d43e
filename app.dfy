/**
 * The App component's predict handler as a state machine over the fields that
 * `handlePredict` sets: loading, error, predictions, scenario and confidence.
 * The request itself is not modelled; its outcome is a parameter.
 */
module App {
  import opened Json

  /**
   * How the POST to /api/predict ends: resolved with `response.data`, or
   * rejected with `err.response?.data?.error` (Null when any link is missing)
   * and `err.message`.
   */
  datatype Response =
    | Received(data: Value)
    | Rejected(serverError: Value, message: string)

  const InvalidFormat := "Invalid response format"
  const FallbackError := "Failed to generate predictions"
  /** The TypeError a JavaScript engine (V8's wording) raises for `null.predictions`. */
  const NullDataError := "Cannot read properties of null (reading 'predictions')"

  /** The operand `a || b || … || z` evaluates to: the first truthy one, or the last. */
  function FirstTruthyIndex(options: seq<Value>): (k: nat)
    requires options != []
    ensures k < |options|
    ensures forall j :: 0 <= j < k ==> !Truthy(options[j])
    ensures Truthy(options[k]) || k == |options| - 1
  {
    if |options| == 1 || Truthy(options[0]) then 0 else 1 + FirstTruthyIndex(options[1..])
  }

  /** `err.response?.data?.error || err.message || 'Failed to generate predictions'` */
  function ErrorMessage(serverError: Value, message: string): (m: Value)
    ensures Truthy(m)
    ensures Truthy(serverError) ==> m == serverError
    ensures !Truthy(serverError) && message != "" ==> m == Str(message)
    ensures !Truthy(serverError) && message == "" ==> m == Str(FallbackError)
  {
    var options := [serverError, Str(message), Str(FallbackError)];
    var k := FirstTruthyIndex(options);
    assert Truthy(options[1]) <==> message != "";
    options[k]
  }

  /** `x || null` */
  function OrNull(v: Value): (r: Option<Value>)
    ensures r.Some? <==> Truthy(v)
    ensures r.Some? ==> r.value == v
  {
    if Truthy(v) then Some(v) else None
  }

  /** How a request settles: the new results, or the message to show. */
  datatype Settlement =
    | Loaded(predictions: Value, scenario: Option<Value>, confidence: Option<Value>)
    | Failed(error: Value)

  /** The try / catch of `handlePredict`, as a function of the response. */
  function Settle(response: Response): (s: Settlement)
    ensures s.Loaded? <==>
              response.Received? && !response.data.Null? && Truthy(Field(response.data, "predictions"))
    ensures s.Loaded? ==>
              && s.predictions == Field(response.data, "predictions")
              && s.scenario == OrNull(Field(response.data, "scenario"))
              && s.confidence == OrNull(Field(response.data, "confidence"))
    ensures s.Failed? ==> Truthy(s.error)
    ensures response.Received? && !response.data.Null? && !Truthy(Field(response.data, "predictions")) ==>
              s == Failed(Str(InvalidFormat))
    ensures response.Rejected? ==> s == Failed(ErrorMessage(response.serverError, response.message))
    ensures response == Received(Null) ==> s == Failed(ErrorMessage(Null, NullDataError))
  {
    match response
    case Received(data) =>
      if data.Null? then Failed(ErrorMessage(Null, NullDataError))
      else
        var predictions := Field(data, "predictions");
        if Truthy(predictions) then
          Loaded(predictions, OrNull(Field(data, "scenario")), OrNull(Field(data, "confidence")))
        else Failed(Str(InvalidFormat))
    case Rejected(serverError, message) => Failed(ErrorMessage(serverError, message))
  }

  /** The render guard `predictions && predictions.length > 0` for the summary and the chart. */
  predicate HasRows(predictions: Value)
    ensures HasRows(predictions) ==> Truthy(predictions)
    ensures predictions.Arr? ==> (HasRows(predictions) <==> predictions.items != [])
  {
    match predictions
    case Arr(items) => items != []
    case Str(s) => s != []
    case _ => false
  }

  class PredictionPage {
    var loading: bool
    var error: Option<Value>
    var predictions: Value
    var scenario: Option<Value>
    var confidence: Option<Value>

    /** The initial `useState` values. */
    constructor ()
      ensures !loading && error == None && predictions == Arr([]) && scenario == None && confidence == None
    {
      loading := false;
      error := None;
      predictions := Arr([]);
      scenario := None;
      confidence := None;
    }

    /** The summary and the chart are rendered only for a non-empty forecast. */
    predicate ShowsResults()
      reads this
    {
      HasRows(predictions)
    }

    /** The resets that open `handlePredict`, before the request is sent. */
    method BeginPredict()
      modifies this
      ensures loading && error == None && predictions == Arr([]) && scenario == None && confidence == None
      ensures !ShowsResults()
    {
      loading := true;
      error := None;
      predictions := Arr([]);
      scenario := None;
      confidence := None;
    }

    /** The try / catch / finally once the request has settled. */
    method FinishPredict(response: Response)
      modifies this
      ensures !loading
      ensures Settle(response).Loaded? ==>
                && predictions == Settle(response).predictions
                && scenario == Settle(response).scenario
                && confidence == Settle(response).confidence
                && error == old(error)
      ensures Settle(response).Failed? ==>
                && error == Some(Settle(response).error)
                && predictions == old(predictions) && scenario == old(scenario) && confidence == old(confidence)
    {
      if response.Received? && !response.data.Null? {
        var data := response.data;
        if Truthy(Field(data, "predictions")) {
          predictions := Field(data, "predictions");
          scenario := OrNull(Field(data, "scenario"));
          confidence := OrNull(Field(data, "confidence"));
        } else {
          error := Some(Str(InvalidFormat));
        }
      } else {
        var serverError, message := Null, NullDataError;
        if response.Rejected? {
          serverError, message := response.serverError, response.message;
        }
        error := Some(ErrorMessage(serverError, message));
      }
      loading := false;
    }

    /** A whole request: the resets, then the settled outcome; `loading` is false afterwards either way. */
    method HandlePredict(response: Response)
      modifies this
      ensures !loading
      ensures Settle(response).Loaded? ==>
                && error == None
                && predictions == Settle(response).predictions
                && scenario == Settle(response).scenario
                && confidence == Settle(response).confidence
      ensures Settle(response).Failed? ==>
                && error == Some(Settle(response).error)
                && predictions == Arr([]) && scenario == None && confidence == None
                && !ShowsResults()
    {
      BeginPredict();
      FinishPredict(response);
    }
  }

  /** A server-reported error is shown verbatim. */
  lemma ServerErrorShown(message: string)
    ensures Settle(Rejected(Str("model unavailable"), message)) == Failed(Str("model unavailable"))
  {
  }
}
