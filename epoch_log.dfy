/** The per-epoch log line (main.py:664-667): a JSON object holding every
    training statistic under a `train_` key, every test statistic under a
    `test_` key, the epoch and the number of trainable parameters. */
module EpochLog {

  /** Test statistics; `acc1` is the top-1 accuracy the driver reads. */
  datatype TestStats = TestStats(acc1: real, others: map<string, real>)

  /** The test statistics as the dictionary the evaluation returns. */
  function TestMap(t: TestStats): (m: map<string, real>)
    ensures "acc1" in m && m["acc1"] == t.acc1
    ensures m.Keys == t.others.Keys + {"acc1"}
    ensures forall k :: k in t.others && k != "acc1" ==> m[k] == t.others[k]
  {
    t.others["acc1" := t.acc1]
  }

  /** A value in a log line. */
  datatype LogValue = Metric(x: real) | Count(n: int)

  /** What one epoch's log line is built from. */
  datatype LogRecord = LogRecord(train: map<string, real>, test: TestStats, epoch: int, nParameters: nat)

  /** Distinct keys stay distinct under a common prefix. */
  lemma PrefixInjective(prefix: string)
    ensures forall k1: string, k2: string :: prefix + k1 == prefix + k2 ==> k1 == k2
  {
    forall k1: string, k2: string | prefix + k1 == prefix + k2 ensures k1 == k2 {
      assert k1 == (prefix + k1)[|prefix|..];
      assert k2 == (prefix + k2)[|prefix|..];
    }
  }

  /** A metric dictionary with every key prefixed: each metric appears,
      unchanged, under the prefix followed by its own key. */
  function Prefixed(prefix: string, m: map<string, real>): (p: map<string, LogValue>)
    ensures forall k :: k in m ==> prefix + k in p && p[prefix + k] == Metric(m[k])
  {
    PrefixInjective(prefix);
    map k | k in m :: prefix + k := Metric(m[k])
  }

  /** A key is in the prefixed dictionary exactly when it is the prefix
      followed by a key of the original, and it carries that key's value. */
  lemma PrefixedKeys(prefix: string, m: map<string, real>, key: string)
    ensures key in Prefixed(prefix, m) <==>
            |prefix| <= |key| && key[..|prefix|] == prefix && key[|prefix|..] in m
    ensures key in Prefixed(prefix, m) ==> Prefixed(prefix, m)[key] == Metric(m[key[|prefix|..]])
  {
    if |prefix| <= |key| && key[..|prefix|] == prefix {
      assert key == prefix + key[|prefix|..];
    }
  }

  /** The log line as the JSON object written: the training statistics
      under `train_`, the test statistics under `test_`, then the epoch and
      the parameter count (later entries win, as in a dictionary display).
      The epoch and the parameter count are logged as given. */
  function LogStats(r: LogRecord): (s: map<string, LogValue>)
    ensures "epoch" in s && s["epoch"] == Count(r.epoch)
    ensures "n_parameters" in s && s["n_parameters"] == Count(r.nParameters)
  {
    Prefixed("train_", r.train) + Prefixed("test_", TestMap(r.test))
    + map["epoch" := Count(r.epoch), "n_parameters" := Count(r.nParameters)]
  }

  /** Every training statistic is logged, unchanged, under its `train_` key. */
  lemma LogStatsTrain(r: LogRecord, k: string)
    requires k in r.train
    ensures "train_" + k in LogStats(r) && LogStats(r)["train_" + k] == Metric(r.train[k])
  {
    var key := "train_" + k;
    PrefixedKeys("train_", r.train, key);
    PrefixedKeys("test_", TestMap(r.test), key);
    assert key[1] == 'r';
    assert key[..6] == "train_" && key[6..] == k;
  }

  /** Every test statistic, the top-1 accuracy included, is logged,
      unchanged, under its `test_` key. */
  lemma LogStatsTest(r: LogRecord, k: string)
    requires k in TestMap(r.test)
    ensures "test_" + k in LogStats(r) && LogStats(r)["test_" + k] == Metric(TestMap(r.test)[k])
  {
    var key := "test_" + k;
    PrefixedKeys("test_", TestMap(r.test), key);
    assert key[0] == 't';
    assert key[..5] == "test_" && key[5..] == k;
  }

  /** The keys of a log line are exactly the `train_` keys of the training
      statistics, the `test_` keys of the test statistics, the epoch and the
      parameter count. */
  lemma LogStatsKeys(r: LogRecord, key: string)
    ensures key in LogStats(r) <==>
            || key == "epoch" || key == "n_parameters"
            || (|key| >= 6 && key[..6] == "train_" && key[6..] in r.train)
            || (|key| >= 5 && key[..5] == "test_" && key[5..] in TestMap(r.test))
  {
    PrefixedKeys("train_", r.train, key);
    PrefixedKeys("test_", TestMap(r.test), key);
  }
}
