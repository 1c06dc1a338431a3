/** The model trainer of the AI service, without its numerics: the batch
    schedule of the training loop, the empty-test guard of the evaluation,
    the artifact directory of a symbol and the metadata record. Training and
    scoring themselves are not part of this module. */
module Trainer {
  import opened Wrappers
  import opened Text
  import opened Seqs

  const DefaultSeed := 42
  const ModelVersion := "lstm_v1"

  /** The consecutive slices of `s` of `size` elements each, the last one
      possibly shorter: `s[i : i + size]` for `i` in `range(0, len(s), size)`. */
  function Chunks<T>(s: seq<T>, size: nat): (r: seq<seq<T>>)
    requires size > 0
    ensures r == [] <==> s == []
    decreases |s|
  {
    if |s| == 0 then [] else
      var m := Min(size, |s|);
      [s[..m]] + Chunks(s[m..], size)
  }

  /** The chunks cover `s` in order. */
  lemma {:induction false} ChunksCover<T>(s: seq<T>, size: nat)
    requires size > 0
    ensures Flatten(Chunks(s, size)) == s
    decreases |s|
  {
    if |s| > 0 {
      var m := Min(size, |s|);
      var rest := Chunks(s[m..], size);
      ChunksCover(s[m..], size);
      var r := [s[..m]] + rest;
      assert r[0] == s[..m] && r[1..] == rest;
      assert s[..m] + s[m..] == s;
    }
  }

  /** No chunk is empty or longer than `size`, and all but the last are
      exactly `size` long. */
  lemma {:induction false} ChunksSizes<T>(s: seq<T>, size: nat)
    requires size > 0
    ensures forall k :: 0 <= k < |Chunks(s, size)| ==> 1 <= |Chunks(s, size)[k]| <= size
    ensures forall k :: 0 <= k < |Chunks(s, size)| - 1 ==> |Chunks(s, size)[k]| == size
    decreases |s|
  {
    if |s| > 0 {
      var m := Min(size, |s|);
      var rest := Chunks(s[m..], size);
      ChunksSizes(s[m..], size);
      var r := [s[..m]] + rest;
      assert Chunks(s, size) == r;
      assert rest != [] ==> m == size;
      forall k | 0 <= k < |r| ensures 1 <= |r[k]| <= size && (k < |r| - 1 ==> |r[k]| == size) {
        if k > 0 {
          assert r[k] == rest[k - 1];
        }
      }
    }
  }

  /** The batches of one epoch, the permutation drawn for it sliced in steps
      of `batch_size`. A zero step is Python's ValueError, a negative one an
      empty range. */
  method EpochBatches<T>(perm: seq<T>, batchSize: int) returns (r: Result<seq<seq<T>>>)
    ensures batchSize == 0 <==> r.Err?
    ensures batchSize < 0 ==> r == Ok([])
    ensures batchSize > 0 ==> r == Ok(Chunks(perm, batchSize))
  {
    if batchSize == 0 {
      return Err("range() arg 3 must not be zero");
    }
    if batchSize < 0 {
      return Ok([]);
    }
    var batches: seq<seq<T>> := [];
    var i := 0;
    while i < |perm|
      invariant 0 <= i <= |perm|
      invariant batches + Chunks(perm[i..], batchSize) == Chunks(perm, batchSize)
      decreases |perm| - i
    {
      var end := Min(i + batchSize, |perm|);
      assert perm[i..][..end - i] == perm[i..end];
      assert perm[i..][end - i..] == perm[end..];
      assert Chunks(perm[i..], batchSize) == [perm[i..end]] + Chunks(perm[end..], batchSize);
      batches := batches + [perm[i..end]];
      i := end;
    }
    assert perm[i..] == [];
    assert batches + Chunks(perm[i..], batchSize) == batches;
    r := Ok(batches);
  }

  /** The epochs of `train_model`: one pass over the batches of each epoch's
      permutation, `perms` being what `torch.randperm` drew per epoch. */
  method TrainingSchedule<T>(perms: seq<seq<T>>, batchSize: int) returns (r: Result<seq<seq<seq<T>>>>)
    ensures r.Err? <==> batchSize == 0 && |perms| > 0
    ensures r.Ok? ==> |r.value| == |perms|
    ensures r.Ok? && batchSize > 0 ==> forall e :: 0 <= e < |perms| ==> r.value[e] == Chunks(perms[e], batchSize)
    ensures r.Ok? && batchSize < 0 ==> forall e :: 0 <= e < |perms| ==> r.value[e] == []
  {
    var schedule: seq<seq<seq<T>>> := [];
    var e := 0;
    while e < |perms|
      invariant 0 <= e <= |perms| && |schedule| == e
      invariant batchSize == 0 ==> e == 0
      invariant batchSize > 0 ==> forall j :: 0 <= j < e ==> schedule[j] == Chunks(perms[j], batchSize)
      invariant batchSize < 0 ==> forall j :: 0 <= j < e ==> schedule[j] == []
    {
      var epoch := EpochBatches(perms[e], batchSize);
      if epoch.Err? {
        return Err(epoch.message);
      }
      schedule := schedule + [epoch.value];
      e := e + 1;
    }
    r := Ok(schedule);
  }

  /** `evaluate_rmse`: no score for an empty test set; otherwise the error
      `score` measures for the model on the test windows, in the original
      price range [vmin, vmax]. */
  function EvaluateRmse<M, X, Y>(model: M, xTest: seq<X>, yTest: seq<Y>, vmin: real, vmax: real,
                                 score: (M, seq<X>, seq<Y>, real, real) -> real): (r: Option<real>)
    ensures r.None? <==> |xTest| == 0
    ensures r.Some? ==> r.value == score(model, xTest, yTest, vmin, vmax)
  {
    if |xTest| == 0 then None else Some(score(model, xTest, yTest, vmin, vmax))
  }

  /** The leaf name of a symbol's artifact directory: the upper-cased symbol
      with every character other than a letter or digit replaced by '_'. */
  function SafeName(symbol: string): (r: string)
    ensures |r| == |symbol|
    ensures forall i :: 0 <= i < |r| ==> IsAlnum(r[i]) || r[i] == '_'
    ensures forall i :: 0 <= i < |r| ==>
      r[i] == if IsAlnum(UpperChar(symbol[i])) then UpperChar(symbol[i]) else '_'
  {
    var u := Upper(symbol);
    seq(|u|, i requires 0 <= i < |u| => if IsAlnum(u[i]) then u[i] else '_')
  }

  /** Sanitising a name that is already safe leaves it as it is. */
  lemma SafeNameIdempotent(symbol: string)
    ensures SafeName(SafeName(symbol)) == SafeName(symbol)
  {
  }

  /** Symbols that differ only in letter case share their directory. */
  lemma SafeNameIgnoresCase(a: string, b: string)
    requires Upper(a) == Upper(b)
    ensures SafeName(a) == SafeName(b)
  {
    assert |a| == |b|;
    forall i | 0 <= i < |a| ensures SafeName(a)[i] == SafeName(b)[i] {
      assert Upper(a)[i] == Upper(b)[i];
    }
  }

  /** Distinct symbols can share a directory: "BRK-B" and "BRK.B" both map
      to "BRK_B". */
  lemma SafeNameCollides()
    ensures SafeName("BRK-B") == SafeName("BRK.B") == "BRK_B"
  {
  }

  /** `os.path.join(directory, leaf)` on POSIX for a leaf that is not an
      absolute path: the directory, then the leaf, with one '/' between them
      unless the directory is empty or already ends in '/'. */
  function JoinPath(directory: string, leaf: string): (r: string)
    ensures |directory| + |leaf| <= |r| <= |directory| + |leaf| + 1
    ensures r[..|directory|] == directory && r[|r| - |leaf|..] == leaf
    ensures |r| == |directory| + |leaf| + 1 <==> directory != "" && directory[|directory| - 1] != '/'
    ensures |r| == |directory| + |leaf| + 1 ==> r[|directory|] == '/'
  {
    if directory == "" || directory[|directory| - 1] == '/' then directory + leaf
    else directory + "/" + leaf
  }

  /** `_symbol_dir`: the symbol's safe name joined to the artifact
      directory. */
  function SymbolDir(artifactsDir: string, symbol: string): (r: string)
    ensures r == (if artifactsDir == "" || artifactsDir[|artifactsDir| - 1] == '/' then artifactsDir
                  else artifactsDir + "/") + SafeName(symbol)
    ensures r[..|artifactsDir|] == artifactsDir
  {
    var leaf := SafeName(symbol);
    var r := JoinPath(artifactsDir, leaf);
    assert r == (if artifactsDir == "" || artifactsDir[|artifactsDir| - 1] == '/' then artifactsDir else artifactsDir + "/") + leaf;
    r
  }

  datatype Metadata = Metadata(
    symbol: string,
    lookback: int,
    trainSize: int,
    testSize: int,
    dataPoints: int,
    dataEndDate: string,
    rmse: Option<real>,
    seed: int,
    trainedAt: string,
    modelVersion: string)

  /** `build_metadata`. `now` is the ISO form of the current UTC time. */
  function BuildMetadata(symbol: string, lookback: int, trainSize: int, testSize: int, dataPoints: int,
                         dataEndDate: string, rmse: Option<real>, seed: int, now: string): (m: Metadata)
    ensures m.symbol == Upper(symbol) && forall i :: 0 <= i < |m.symbol| ==> !('a' <= m.symbol[i] <= 'z')
    ensures m.lookback == lookback && m.trainSize == trainSize && m.testSize == testSize
    ensures m.dataPoints == dataPoints && m.dataEndDate == dataEndDate && m.rmse == rmse && m.seed == seed
    ensures m.trainedAt == now + "Z" && m.modelVersion == "lstm_v1"
  {
    Metadata(Upper(symbol), lookback, trainSize, testSize, dataPoints, dataEndDate, rmse, seed, now + "Z", ModelVersion)
  }
}
