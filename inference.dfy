/** The current predictor of the AI service: a symbol-keyed cache of model
    artifacts filled from memory, from the artifact directory or by a fresh
    training run, and the prediction built on it. Disk contents, downloads,
    training, scoring and the forward pass are parameters. */
module Inference {
  import opened Wrappers
  import opened Text
  import opened SeriesData
  import opened Trainer
  import opened ModelUtils

  /** A trained model with the range its data was scaled with and its
      metadata record. */
  datatype Artifacts<M> = Artifacts(model: M, vmin: real, vmax: real, metadata: Metadata)

  /** The training path of `_load_or_train` on prepared data: an 80/20
      split, a training run on the first part, its score on the second and
      the metadata describing both. */
  function TrainArtifacts<M>(symbol: string, lookback: nat, seed: int, p: Prepared,
                             train: (seq<seq<real>>, seq<real>, int) -> M,
                             score: (M, seq<seq<real>>, seq<real>, real, real) -> real,
                             now: string): (a: Artifacts<M>)
    ensures a.vmin == p.vmin && a.vmax == p.vmax
    ensures a.metadata.symbol == Upper(symbol) && a.metadata.lookback == lookback && a.metadata.seed == seed
    ensures a.metadata.dataPoints == p.dataPoints && a.metadata.dataEndDate == p.dataEndDate
    ensures |p.x| > 0 ==> a.metadata.trainSize + a.metadata.testSize == |p.x|
    ensures |p.x| > 0 && |p.y| == |p.x| ==> a.metadata.testSize >= 1 && a.metadata.rmse.Some?
    ensures a.model == train(SplitTrainTest(p.x, p.y, 0.8).xTrain, SplitTrainTest(p.x, p.y, 0.8).yTrain, seed)
  {
    var split := SplitTrainTest(p.x, p.y, 0.8);
    if |p.x| > 0 && |p.y| == |p.x| then EightyPercentSplit(p.x, p.y); TrainArtifactsOn(symbol, lookback, seed, p, split, train, score, now)
    else TrainArtifactsOn(symbol, lookback, seed, p, split, train, score, now)
  }

  /** The artifacts of one training run on a given split. */
  function TrainArtifactsOn<M>(symbol: string, lookback: nat, seed: int, p: Prepared, split: Split<seq<real>, real>,
                               train: (seq<seq<real>>, seq<real>, int) -> M,
                               score: (M, seq<seq<real>>, seq<real>, real, real) -> real,
                               now: string): (a: Artifacts<M>)
    ensures a.model == train(split.xTrain, split.yTrain, seed)
    ensures a.vmin == p.vmin && a.vmax == p.vmax
    ensures a.metadata.trainSize == |split.xTrain| && a.metadata.testSize == |split.xTest|
    ensures a.metadata.rmse.Some? <==> |split.xTest| > 0
    ensures a.metadata.rmse.Some? ==>
      a.metadata.rmse.value == score(a.model, split.xTest, split.yTest, p.vmin, p.vmax)
  {
    var model := train(split.xTrain, split.yTrain, seed);
    var rmse := EvaluateRmse(model, split.xTest, split.yTest, p.vmin, p.vmax, score);
    var metadata := BuildMetadata(symbol, lookback, |split.xTrain|, |split.xTest|, p.dataPoints, p.dataEndDate, rmse, seed, now);
    Artifacts(model, p.vmin, p.vmax, metadata)
  }

  /** The seven metadata fields a prediction reports. */
  datatype ModelInfo = ModelInfo(
    trainedAt: string,
    lookback: int,
    trainSize: int,
    testSize: int,
    dataPoints: int,
    dataEndDate: string,
    modelVersion: string)

  datatype HistoryPoint = HistoryPoint(date: string, close: real)

  /** The response of `predict_next_close`. */
  datatype NextClose = NextClose(
    symbol: string,
    stockName: Option<string>,
    predictedClose: real,
    lastClose: real,
    history: seq<HistoryPoint>,
    rmse: Option<real>,
    metadata: ModelInfo)

  function InfoOf(m: Metadata): (i: ModelInfo)
    ensures i.lookback == m.lookback && i.trainedAt == m.trainedAt && i.modelVersion == m.modelVersion
    ensures i.trainSize == m.trainSize && i.testSize == m.testSize
    ensures i.dataPoints == m.dataPoints && i.dataEndDate == m.dataEndDate
  {
    ModelInfo(m.trainedAt, m.lookback, m.trainSize, m.testSize, m.dataPoints, m.dataEndDate, m.modelVersion)
  }

  /** The in-memory `MODEL_CACHE` of the service. */
  class Service<M> {
    var cache: map<string, Artifacts<M>>

    constructor()
      ensures cache == map[]
    {
      cache := map[];
    }

    /** `_load_or_train`. `disk` is what `load_artifacts` finds for the
        symbol, `fetched` the downloaded series, `now` the ISO clock. */
    method LoadOrTrain(symbol: string, lookback: nat, seed: int, disk: Option<Artifacts<M>>, fetched: Result<Series>,
                       train: (seq<seq<real>>, seq<real>, int) -> M,
                       score: (M, seq<seq<real>>, seq<real>, real, real) -> real,
                       now: string) returns (r: Result<Artifacts<M>>)
      modifies this
      ensures r.Ok? ==> symbol in cache && cache[symbol] == r.value && r.value.metadata.lookback == lookback
      ensures r.Err? ==> cache == old(cache)
      ensures symbol in old(cache) && old(cache)[symbol].metadata.lookback == lookback ==>
        r == Ok(old(cache)[symbol]) && cache == old(cache)
      ensures !(symbol in old(cache) && old(cache)[symbol].metadata.lookback == lookback) ==>
        if disk.Some? && disk.value.metadata.lookback == lookback then
          r == Ok(disk.value) && cache == old(cache)[symbol := disk.value]
        else if fetched.Err? then
          r == Err(fetched.message)
        else if |fetched.value.values| <= lookback then
          r == Err("Insufficient data for prediction")
        else
          && r == Ok(TrainArtifacts(symbol, lookback, seed, Prepare(fetched.value, lookback), train, score, now))
          && cache == old(cache)[symbol := r.value]
          && r.value.metadata.rmse.Some?
    {
      if symbol in cache && cache[symbol].metadata.lookback == lookback {
        return Ok(cache[symbol]);
      }
      if disk.Some? && disk.value.metadata.lookback == lookback {
        cache := cache[symbol := disk.value];
        return Ok(disk.value);
      }
      var prepared := PrepareData(fetched, lookback);
      if prepared.Err? {
        return Err(prepared.message);
      }
      var artifacts := TrainArtifacts(symbol, lookback, seed, prepared.value, train, score, now);
      cache := cache[symbol := artifacts];
      r := Ok(artifacts);
    }

    /** `predict_next_close`: the symbol is normalised before anything else,
        the artifacts come from `LoadOrTrain`, and the latest series, scaled
        by the artifacts' range, gives the model its last `lookback`
        values. `predict` is the forward pass with the inverse scaling. */
    method PredictNextClose(symbol: string, lookback: nat, disk: Option<Artifacts<M>>, fetched: Result<Series>,
                            train: (seq<seq<real>>, seq<real>, int) -> M,
                            score: (M, seq<seq<real>>, seq<real>, real, real) -> real,
                            predict: (M, seq<real>, real, real) -> real,
                            stockName: Option<string>, history: seq<HistoryPoint>,
                            now: string) returns (r: Result<NextClose>)
      modifies this
      ensures fetched.Err? ==> r == Err(fetched.message)
      ensures fetched.Ok? && |fetched.value.values| <= lookback ==> r == Err("Insufficient data for prediction")
      ensures fetched.Ok? && |fetched.value.values| > lookback <==> r.Ok?
      ensures r.Ok? ==> var key := NormalizeSymbol(symbol);
        && key in cache
        && var a := cache[key];
        && r.value.symbol == key
        && r.value.predictedClose == predict(a.model, Tail(ScaleWith(fetched.value.values, a.vmin, a.vmax), lookback), a.vmin, a.vmax)
        && r.value.lastClose == fetched.value.values[|fetched.value.values| - 1]
        && r.value.stockName == stockName && r.value.history == history
        && r.value.rmse == a.metadata.rmse
        && r.value.metadata == InfoOf(a.metadata) && r.value.metadata.lookback == lookback
      ensures forall s :: s != NormalizeSymbol(symbol) ==>
        (s in cache <==> s in old(cache)) && (s in old(cache) ==> cache[s] == old(cache)[s])
      ensures var key := NormalizeSymbol(symbol);
        if key in old(cache) && old(cache)[key].metadata.lookback == lookback then
          cache == old(cache)
        else if disk.Some? && disk.value.metadata.lookback == lookback then
          cache == old(cache)[key := disk.value]
        else if fetched.Ok? && |fetched.value.values| > lookback then
          cache == old(cache)[key := TrainArtifacts(key, lookback, DefaultSeed, Prepare(fetched.value, lookback), train, score, now)]
        else
          cache == old(cache)
    {
      var key := NormalizeSymbol(symbol);
      var loaded := LoadOrTrain(key, lookback, DefaultSeed, disk, fetched, train, score, now);
      if loaded.Err? {
        return Err(loaded.message);
      }
      var a := loaded.value;
      var prepared := PrepareData(fetched, lookback);
      if prepared.Err? {
        return Err(prepared.message);
      }
      var scaledLatest := ScaleWith(prepared.value.values, a.vmin, a.vmax);
      var lastWindow := Tail(scaledLatest, lookback);
      var predicted := predict(a.model, lastWindow, a.vmin, a.vmax);
      r := Ok(NextClose(key, stockName, predicted, prepared.value.lastClose, history, a.metadata.rmse, InfoOf(a.metadata)));
    }
  }
}
