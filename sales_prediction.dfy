/**
 * The client side of the sales forecast: the shape of the forecast the remote `sales-prediction`
 * function returns, and the hook state (`predictionData`, `loading`, `error`) that one fetch leaves
 * behind. The forecast is computed remotely and is an opaque input here.
 */
module SalesPrediction {
  import opened Wrappers
  import opened Text

  /** One forecast day. Values are in cents. */
  datatype Prediction = Prediction(date: string, predictedValue: int, lower: int, upper: int)

  datatype ModelInfo = ModelInfo(
    kind: string, dataPoints: int, daysAnalyzed: int,
    slope: real, intercept: real, accuracyPercentage: real, rmse: real)

  /** One day of recorded sales. */
  datatype HistoricalPoint = HistoricalPoint(date: string, total: int)

  datatype PredictionData = PredictionData(
    predictions: seq<Prediction>, modelInfo: ModelInfo, historicalData: seq<HistoricalPoint>)

  /**
   * The body the function answers with: either a business error (`error`, `message`) or the
   * forecast itself, which is what `setPredictionData(data)` stores.
   */
  datatype Body = Body(error: Option<string>, message: Option<string>, content: PredictionData)

  /** A transport or function failure reported by `functions.invoke`. */
  datatype InvokeError = InvokeError(message: Option<string>)

  /** The awaited result of `supabase.functions.invoke('sales-prediction')`. */
  datatype Response = Response(data: Body, functionError: Option<InvokeError>)

  /** What one fetch settles on. */
  datatype Outcome = Loaded(data: PredictionData) | NoData | Failed(message: string)

  const InsufficientData := "Insufficient data"
  const BodyErrorDefault := "Erro na função de previsão."
  const FailureDefault := "Falha ao buscar previsões de vendas."
  const FunctionNotFound := "Função de IA não encontrada. Verifique a implantação no Supabase."

  /** The message the `catch` block shows for an error whose `message` is `m`. */
  function FailureMessage(m: Option<string>): string {
    if !Truthy(m) then FailureDefault
    else if Contains(m.value, "Function not found") then FunctionNotFound
    else "Erro: " + m.value
  }

  /** The message of the `Error` thrown for a business error other than insufficient data. */
  function BodyErrorText(b: Body): string {
    if Truthy(b.message) then b.message.value else BodyErrorDefault
  }

  /** Where one fetch ends up, given the response. */
  function FetchOutcome(r: Response): Outcome {
    if r.functionError.Some? then Failed(FailureMessage(r.functionError.value.message))
    else if Truthy(r.data.error) then
      if r.data.error.value == InsufficientData then NoData
      else Failed(FailureMessage(Some(BodyErrorText(r.data))))
    else Loaded(r.data.content)
  }

  function DataOf(o: Outcome): Option<PredictionData> {
    if o.Loaded? then Some(o.data) else None
  }

  function ErrorOf(o: Outcome): Option<string> {
    if o.Failed? then Some(o.message) else None
  }

  /** The error shown is never empty, and it is one of the two fixed texts or starts with "Erro: ". */
  lemma FailureMessageShape(m: Option<string>)
    ensures FailureMessage(m) != ""
    ensures FailureMessage(m) == FailureDefault || FailureMessage(m) == FunctionNotFound
      || IsPrefix("Erro: ", FailureMessage(m))
    ensures FailureMessage(m) == FailureDefault <==> !Truthy(m)
  {
    if Truthy(m) && !Contains(m.value, "Function not found") {
      assert ("Erro: " + m.value)[..6] == "Erro: ";
      assert FailureDefault[0] == 'F';
    }
  }

  /**
   * A transport error is mapped by its message: one mentioning a missing function gets the
   * deployment hint, any other message is shown after "Erro: ", and no message gets the generic text.
   */
  lemma TransportErrorOutcome(r: Response, m: string)
    requires r.functionError == Some(InvokeError(Some(m)))
    ensures Contains(m, "Function not found") ==> FetchOutcome(r) == Failed(FunctionNotFound)
    ensures m != "" && !Contains(m, "Function not found") ==> FetchOutcome(r) == Failed("Erro: " + m)
    ensures m == "" ==> FetchOutcome(r) == Failed(FailureDefault)
  {
    if m == "" {
      assert Contains(m, "Function not found") == false;
    }
  }

  /** "Insufficient data" is a business answer, not a failure: no forecast and no error. */
  lemma InsufficientDataIsNotAnError(r: Response)
    requires r.functionError.None? && r.data.error == Some(InsufficientData)
    ensures DataOf(FetchOutcome(r)).None? && ErrorOf(FetchOutcome(r)).None?
  {
  }

  /**
   * Any other business error is reported from the body's message, or from the fixed text when the
   * body has none, and drops the forecast.
   */
  lemma BodyErrorOutcome(r: Response)
    requires r.functionError.None? && Truthy(r.data.error) && r.data.error.value != InsufficientData
    ensures DataOf(FetchOutcome(r)).None?
    ensures !Truthy(r.data.message) ==> FetchOutcome(r) == Failed("Erro: " + BodyErrorDefault)
    ensures Truthy(r.data.message) && !Contains(r.data.message.value, "Function not found") ==>
      FetchOutcome(r) == Failed("Erro: " + r.data.message.value)
  {
    if !Truthy(r.data.message) {
      DefaultBodyErrorShown();
    }
  }

  lemma DefaultBodyErrorShown()
    ensures FailureMessage(Some(BodyErrorDefault)) == "Erro: " + BodyErrorDefault
  {
    assert forall i :: 0 <= i < |BodyErrorDefault| ==> BodyErrorDefault[i] != 'F';
    assert "Function not found"[0] == 'F';
    ContainsMissingChar(BodyErrorDefault, "Function not found", 'F');
  }

  /** A response with neither a transport error nor a body error stores the body as the forecast. */
  lemma SuccessOutcome(r: Response)
    requires r.functionError.None? && !Truthy(r.data.error)
    ensures DataOf(FetchOutcome(r)) == Some(r.data.content) && ErrorOf(FetchOutcome(r)).None?
  {
  }

  /** A fetch never leaves both a forecast and an error behind. */
  lemma OutcomeExclusive(r: Response)
    ensures !(DataOf(FetchOutcome(r)).Some? && ErrorOf(FetchOutcome(r)).Some?)
    ensures ErrorOf(FetchOutcome(r)).Some? ==> ErrorOf(FetchOutcome(r)).value != ""
  {
    var o := FetchOutcome(r);
    if o.Failed? {
      if r.functionError.Some? {
        FailureMessageShape(r.functionError.value.message);
      } else {
        FailureMessageShape(Some(BodyErrorText(r.data)));
      }
    }
  }

  /** The state of `useSalesPrediction`. */
  class PredictionState {
    var predictionData: Option<PredictionData>
    var loading: bool
    var error: Option<string>

    /** The hook mounts with no data, loading, and no error. */
    constructor ()
      ensures predictionData.None? && loading && error.None?
    {
      predictionData, loading, error := None, true, None;
    }

    /** The synchronous start of `fetchPredictions`: loading on, error cleared. */
    method BeginFetch()
      modifies this
      ensures loading && error.None? && predictionData == old(predictionData)
    {
      loading := true;
      error := None;
    }

    /** The part of `fetchPredictions` after the invocation answers: `try`, `catch` and `finally`. */
    method CompleteFetch(r: Response)
      modifies this
      ensures !loading
      ensures predictionData == DataOf(FetchOutcome(r))
      ensures error == (if FetchOutcome(r).Failed? then ErrorOf(FetchOutcome(r)) else old(error))
    {
      var thrown: Option<Option<string>> := None;
      if r.functionError.Some? {
        thrown := Some(r.functionError.value.message);
      } else if Truthy(r.data.error) {
        if r.data.error.value == InsufficientData {
          predictionData := None;
        } else {
          thrown := Some(Some(BodyErrorText(r.data)));
        }
      } else {
        predictionData := Some(r.data.content);
      }
      if thrown.Some? {
        var errorMessage := FailureDefault;
        if Truthy(thrown.value) {
          if Contains(thrown.value.value, "Function not found") {
            errorMessage := FunctionNotFound;
          } else {
            errorMessage := "Erro: " + thrown.value.value;
          }
        }
        error := Some(errorMessage);
        predictionData := None;
      }
      loading := false;
    }

    /** One whole `fetchPredictions`: the state it leaves depends on the response alone. */
    method Fetch(r: Response)
      modifies this
      ensures !loading
      ensures predictionData == DataOf(FetchOutcome(r)) && error == ErrorOf(FetchOutcome(r))
    {
      BeginFetch();
      CompleteFetch(r);
    }
  }
}
