/** The older single-file predictor of the AI service: a symbol-keyed model
    cache with a 24-hour freshness rule in front of train-and-predict. The
    download, the network and the numerics are parameters. */
module ModelUtils {
  import opened Wrappers
  import opened Text
  import opened SeriesData

  /** `ModelCache`: a dictionary from symbol to cached value. */
  class ModelCache<V> {
    var models: map<string, V>

    constructor()
      ensures forall symbol :: Get(symbol) == None
    {
      models := map[];
    }

    /** `get`: the value last set for `symbol`, if any. */
    function Get(symbol: string): (r: Option<V>)
      reads this
      ensures r.Some? <==> symbol in models
      ensures r.Some? ==> models[symbol] == r.value
    {
      if symbol in models then Some(models[symbol]) else None
    }

    /** `set`: afterwards `symbol` yields `value` and every other symbol what
        it yielded before. */
    method Set(symbol: string, value: V)
      modifies this
      ensures Get(symbol) == Some(value)
      ensures forall other :: other != symbol ==> Get(other) == old(Get(other))
      ensures models == old(models)[symbol := value]
    {
      models := models[symbol := value];
    }
  }

  /** `_create_sequences`, a second copy of the windowing loop; it builds the
      same pairs as `create_sequences`. */
  method CreateSequences<T>(values: seq<T>, lookback: nat) returns (x: seq<seq<T>>, y: seq<T>)
    ensures x == Windows(values, lookback) && y == Targets(values, lookback)
  {
    x, y := [], [];
    for i := lookback to Max(lookback, |values|)
      invariant |x| == |y| == i - lookback
      invariant forall k :: 0 <= k < |x| ==> x[k] == values[k..k + lookback] && y[k] == values[k + lookback]
    {
      x := x + [values[i - lookback..i]];
      y := y + [values[i]];
    }
  }

  /** A cache entry: the model, the range it was scaled with and the time it
      was trained, in microseconds. */
  datatype Entry<M> = Entry(model: M, vmin: real, vmax: real, lastTrained: int)

  const Day := 86_400_000_000

  /** An entry trained less than 24 hours before `now` is used as it is. */
  predicate IsFresh<M>(e: Entry<M>, now: int)
  {
    now - e.lastTrained < Day
  }

  /** `symbol.upper().strip()`. */
  function NormalizeSymbol(symbol: string): (r: string)
    ensures |r| <= |symbol|
  {
    Trim(Upper(symbol), IsPySpace)
  }

  predicate NotLower(c: char)
  {
    !('a' <= c <= 'z')
  }

  /** A normalised symbol has no lower-case letter and neither starts nor
      ends with whitespace. */
  lemma NormalizedForm(symbol: string)
    ensures var r := NormalizeSymbol(symbol);
      && (forall i :: 0 <= i < |r| ==> NotLower(r[i]))
      && (r != [] ==> !IsPySpace(r[0]) && !IsPySpace(r[|r| - 1]))
  {
    var u := Upper(symbol);
    assert forall i :: 0 <= i < |u| ==> NotLower(u[i]);
    TrimKeeps(u, IsPySpace, NotLower);
    if Trim(u, IsPySpace) != [] {
      TrimEnds(u, IsPySpace);
    }
  }

  /** Normalising twice is normalising once, so a symbol and its
      normalised form share one cache entry. */
  lemma NormalizeIdempotent(symbol: string)
    ensures NormalizeSymbol(NormalizeSymbol(symbol)) == NormalizeSymbol(symbol)
  {
    var r := NormalizeSymbol(symbol);
    NormalizedForm(symbol);
    assert Upper(r) == r;
    TrimIdempotent(Upper(symbol), IsPySpace);
  }

  /** `_predict_with_model`: the series is downloaded again and scaled by
      its own range, its last `lookback` values go to the model, and the
      answer is mapped back with the entry's range. */
  function PredictWithModel<M>(e: Entry<M>, fetched: Result<seq<real>>, lookback: nat,
                               predict: (M, seq<real>, real, real) -> real): (r: Result<real>)
    ensures fetched.Err? ==> r == Err(fetched.message)
    ensures fetched.Ok? && |fetched.value| <= lookback ==> r == Err("Insufficient data for prediction")
    ensures fetched.Ok? && |fetched.value| > lookback ==>
      r == Ok(predict(e.model, Tail(MinMaxScale(fetched.value).0, lookback), e.vmin, e.vmax))
  {
    if fetched.Err? then Err(fetched.message)
    else if |fetched.value| <= lookback then Err("Insufficient data for prediction")
    else
      var scaled := MinMaxScale(fetched.value).0;
      Ok(predict(e.model, Tail(scaled, lookback), e.vmin, e.vmax))
  }

  /** `predict_next_close`. `fetched` is what every download of the symbol
      yields during the call, `now` the clock, `train` the training run and
      `predict` the model's forward pass with the inverse scaling. */
  method PredictNextClose<M>(cache: ModelCache<Entry<M>>, symbol: string, lookback: nat, now: int,
                             fetched: Result<seq<real>>, train: (seq<seq<real>>, seq<real>) -> M,
                             predict: (M, seq<real>, real, real) -> real) returns (r: Result<real>)
    modifies cache
    ensures var key := NormalizeSymbol(symbol);
      var cached := old(cache.Get(key));
      if cached.Some? && IsFresh(cached.value, now) then
        && cache.models == old(cache.models)
        && r == PredictWithModel(cached.value, fetched, lookback, predict)
      else if fetched.Err? then
        cache.models == old(cache.models) && r == Err(fetched.message)
      else if |fetched.value| <= lookback then
        cache.models == old(cache.models) && r == Err("Insufficient data for prediction")
      else
        var (scaled, vmin, vmax) := MinMaxScale(fetched.value);
        var e := Entry(train(Windows(scaled, lookback), Targets(scaled, lookback)), vmin, vmax, now);
        && cache.models == old(cache.models)[key := e]
        && r == PredictWithModel(e, fetched, lookback, predict)
        && r.Ok?
    ensures r.Ok? ==> cache.Get(NormalizeSymbol(symbol)).Some?
  {
    var key := NormalizeSymbol(symbol);
    var cached := cache.Get(key);
    if cached.Some? {
      var e := cached.value;
      if now - e.lastTrained < Day {
        return PredictWithModel(e, fetched, lookback, predict);
      }
    }
    if fetched.Err? {
      return Err(fetched.message);
    }
    var values := fetched.value;
    if |values| <= lookback {
      return Err("Insufficient data for prediction");
    }
    var scaled := MinMaxScale(values);
    var x, y := CreateSequences(scaled.0, lookback);
    var model := train(x, y);
    var e := Entry(model, scaled.1, scaled.2, now);
    cache.Set(key, e);
    r := PredictWithModel(e, fetched, lookback, predict);
  }
}
