/*
 * `LLMBenchmark`: runs every model on every task list, records one result
 * per task item, and aggregates the results into per-group means.
 *
 * The model call and the measurements around it (`ollama.chat`, the wall
 * clock, `tracemalloc`) are one environment function: given the model, the
 * task tag, the item's position and its prompt, it yields the response, the
 * latency and the peak traced memory in bytes.
 */
module Runner {
  import opened Wrappers
  import opened Scoring
  import opened Tasks
  import opened Statistics

  datatype Observation = Observation(response: string, latency: real, peakBytes: nat)

  type Environment = (string, string, nat, string) -> Observation

  /** One entry of a task's result list. */
  datatype Record = Record(
    prompt: string,
    groundTruth: string,
    response: string,
    latency: real,
    memoryKb: real,
    score: real)

  /** The per-group averages of `get_summary_statistics` (before rounding). */
  datatype Stats = Stats(avgScore: real, avgLatencySec: real, avgMemoryKb: real)

  /** `statistics.mean` raised: some group has no records. */
  datatype StatsError = EmptyGroup

  type Results = map<string, map<string, seq<Record>>>
  type Summary = map<string, map<string, Stats>>

  // ----- specification functions -----

  /** The record `benchmark_task` appends for the `i`-th item. */
  function RecordFor(o: Oracles, env: Environment, model: string, taskType: string, i: nat, item: TaskItem): Record {
    var obs := env(model, taskType, i, item.prompt);
    Record(item.prompt, item.answer, obs.response, obs.latency, obs.peakBytes as real / 1024.0,
      Evaluate(o, obs.response, item.answer, taskType))
  }

  /** The list `benchmark_task` returns: one record per item, in order. */
  function TaskRecords(o: Oracles, env: Environment, model: string, taskType: string, items: seq<TaskItem>): (records: seq<Record>)
    ensures |records| == |items|
  {
    seq(|items|, i requires 0 <= i < |items| => RecordFor(o, env, model, taskType, i, items[i]))
  }

  /** What `run_benchmarks` stores for one model: the records of every task list. */
  function ModelResults(o: Oracles, env: Environment, model: string, tasks: map<string, seq<TaskItem>>): map<string, seq<Record>> {
    map t | t in tasks :: TaskRecords(o, env, model, t, tasks[t])
  }

  function Scores(records: seq<Record>): seq<real> {
    seq(|records|, i requires 0 <= i < |records| => records[i].score)
  }

  function Latencies(records: seq<Record>): seq<real> {
    seq(|records|, i requires 0 <= i < |records| => records[i].latency)
  }

  function MemoryUsages(records: seq<Record>): seq<real> {
    seq(|records|, i requires 0 <= i < |records| => records[i].memoryKb)
  }

  function StatsOf(records: seq<Record>): Stats
    requires records != []
  {
    Stats(Mean(Scores(records)), Mean(Latencies(records)), Mean(MemoryUsages(records)))
  }

  predicate IsEmptyGroup(results: Results, model: string, taskType: string) {
    model in results && taskType in results[model] && results[model][taskType] == []
  }

  predicate HasEmptyGroup(results: Results) {
    exists m, t :: m in results && t in results[m] && results[m][t] == []
  }

  function SummaryOfModel(groups: map<string, seq<Record>>): map<string, Stats>
    requires forall t :: t in groups ==> groups[t] != []
  {
    map t | t in groups :: StatsOf(groups[t])
  }

  /**
   * What `get_summary_statistics` computes: the per-group means, or an
   * error when some group is empty.
   */
  function SummaryOf(results: Results): (s: Result<Summary, StatsError>)
    ensures s.Failure? <==> HasEmptyGroup(results)
    ensures s.Success? ==> s.value.Keys == results.Keys
    ensures s.Success? ==> forall m :: m in results ==> s.value[m].Keys == results[m].Keys
  {
    if HasEmptyGroup(results) then Failure(EmptyGroup)
    else
      Success(map m | m in results :: SummaryOfModel(results[m]))
  }

  /** Every recorded score lies in [0, 1]. */
  predicate ScoresInUnitRange(results: Results) {
    forall m, t :: m in results && t in results[m] ==> Within(Scores(results[m][t]), 0.0, 1.0)
  }

  // ----- the benchmark object -----

  class Benchmark {
    const models: seq<string>
    const tasks: map<string, seq<TaskItem>>
    var results: Results
    /** Set while a model call is in flight (it drives the console animation). */
    var thinking: bool

    constructor(models: seq<string>, tasks: map<string, seq<TaskItem>>)
      ensures this.models == models && this.tasks == tasks
      ensures results == map[] && !thinking
    {
      this.models := models;
      this.tasks := tasks;
      results := map[];
      thinking := false;
    }

    /** `benchmark_task`: queries the model once per item and scores each response. */
    method BenchmarkTask(o: Oracles, env: Environment, model: string, taskType: string, items: seq<TaskItem>)
      returns (records: seq<Record>)
      modifies this`thinking
      ensures records == TaskRecords(o, env, model, taskType, items)
      ensures thinking == (old(thinking) && items == [])
    {
      ghost var expected := TaskRecords(o, env, model, taskType, items);
      records := [];
      for i := 0 to |items|
        invariant records == expected[..i]
        invariant if i == 0 then thinking == old(thinking) else !thinking
      {
        var record := QueryItem(o, env, model, taskType, i, items[i]);
        TaskRecordAt(o, env, model, taskType, items, i);
        assert expected[..i + 1] == expected[..i] + [expected[i]];
        records := records + [record];
      }
      assert expected[..|items|] == expected;
    }

    /** The body of the loop of `benchmark_task`: one model call, timed and scored. */
    method QueryItem(o: Oracles, env: Environment, model: string, taskType: string, i: nat, item: TaskItem)
      returns (record: Record)
      modifies this`thinking
      ensures record == RecordFor(o, env, model, taskType, i, item)
      ensures !thinking
    {
      thinking := true;
      var obs := env(model, taskType, i, item.prompt);
      thinking := false;
      var score := Evaluate(o, obs.response, item.answer, taskType);
      record := Record(item.prompt, item.answer, obs.response, obs.latency, obs.peakBytes as real / 1024.0, score);
    }

    /**
     * `run_benchmarks`: for every model, a fresh entry holding the records
     * of every task list; entries of other models are kept.
     */
    method RunBenchmarks(o: Oracles, env: Environment) returns (r: Results)
      modifies this
      ensures results.Keys == old(results).Keys + set m | m in models
      ensures forall m :: m in models ==> results[m] == ModelResults(o, env, m, tasks)
      ensures forall m :: m in old(results) && m !in models ==> results[m] == old(results)[m]
      ensures thinking ==> old(thinking)
      ensures r == results
    {
      for mi := 0 to |models|
        invariant results.Keys == old(results).Keys + set j | 0 <= j < mi :: models[j]
        invariant forall j :: 0 <= j < mi ==> results[models[j]] == ModelResults(o, env, models[j], tasks)
        invariant forall m :: m in old(results) && m !in models[..mi] ==> results[m] == old(results)[m]
        invariant thinking ==> old(thinking)
      {
        RunModel(o, env, models[mi]);
        assert models[..mi + 1] == models[..mi] + [models[mi]];
      }
      assert models[..|models|] == models;
      r := results;
    }

    /** One pass of the outer loop of `run_benchmarks`: a fresh entry for `model`, filled task by task. */
    method RunModel(o: Oracles, env: Environment, model: string)
      modifies this
      ensures results == old(results)[model := ModelResults(o, env, model, tasks)]
      ensures thinking ==> old(thinking)
    {
      results := results[model := map[]];
      var remaining := tasks.Keys;
      while remaining != {}
        invariant remaining <= tasks.Keys
        invariant model in results && results == old(results)[model := results[model]]
        invariant results[model].Keys == tasks.Keys - remaining
        invariant forall t :: t in results[model] ==> results[model][t] == TaskRecords(o, env, model, t, tasks[t])
        invariant thinking ==> old(thinking)
        decreases remaining
      {
        var t :| t in remaining;
        var records := BenchmarkTask(o, env, model, t, tasks[t]);
        results := results[model := results[model][t := records]];
        remaining := remaining - {t};
      }
      assert results[model] == ModelResults(o, env, model, tasks);
    }

    /**
     * `get_summary_statistics`: the per-group means of score, latency and
     * memory, keyed like `results`; an empty group raises.
     */
    method GetSummaryStatistics() returns (s: Result<Summary, StatsError>)
      ensures s == SummaryOf(results)
    {
      var summary: Summary := map[];
      var models := results.Keys;
      while models != {}
        invariant models <= results.Keys
        invariant summary.Keys == results.Keys - models
        invariant forall m :: m in summary ==> forall t :: t in results[m] ==> results[m][t] != []
        invariant forall m :: m in summary ==> summary[m] == SummaryOfModel(results[m])
        decreases models
      {
        var model :| model in models;
        var groups := results[model];
        var stats: map<string, Stats> := map[];
        var taskTypes := groups.Keys;
        while taskTypes != {}
          invariant taskTypes <= groups.Keys
          invariant stats.Keys == groups.Keys - taskTypes
          invariant forall t :: t in stats ==> groups[t] != [] && stats[t] == StatsOf(groups[t])
          decreases taskTypes
        {
          var taskType :| taskType in taskTypes;
          var records := groups[taskType];
          if records == [] {
            assert IsEmptyGroup(results, model, taskType);
            return Failure(EmptyGroup);
          }
          stats := stats[taskType := StatsOf(records)];
          taskTypes := taskTypes - {taskType};
        }
        assert stats == SummaryOfModel(groups);
        summary := summary[model := stats];
        models := models - {model};
      }
      assert !HasEmptyGroup(results);
      s := Success(summary);
      assert summary == map m | m in results :: SummaryOfModel(results[m]);
    }
  }

  // ----- lemmas -----

  lemma TaskRecordAt(o: Oracles, env: Environment, model: string, taskType: string, items: seq<TaskItem>, i: nat)
    requires i < |items|
    ensures TaskRecords(o, env, model, taskType, items)[i] == RecordFor(o, env, model, taskType, i, items[i])
  {
  }

  /**
   * Each record copies the item's prompt and expected answer, takes the
   * response from the model call, converts the peak memory to KiB and holds
   * the `evaluate` score of the response, which lies in [0, 1].
   */
  lemma TaskRecordsShape(o: Oracles, env: Environment, model: string, taskType: string, items: seq<TaskItem>, i: nat)
    requires i < |items|
    ensures var r := TaskRecords(o, env, model, taskType, items)[i];
      var obs := env(model, taskType, i, items[i].prompt);
      && r.prompt == items[i].prompt
      && r.groundTruth == items[i].answer
      && r.response == obs.response
      && r.latency == obs.latency
      && r.memoryKb * 1024.0 == obs.peakBytes as real
      && r.score == Evaluate(o, r.response, r.groundTruth, taskType)
      && 0.0 <= r.score <= 1.0
  {
  }

  /** After a run, every recorded score lies in [0, 1]. */
  lemma {:induction false} RunScoresInUnitRange(o: Oracles, env: Environment, model: string, tasks: map<string, seq<TaskItem>>)
    ensures ScoresInUnitRange(map[model := ModelResults(o, env, model, tasks)])
  {
    var results := map[model := ModelResults(o, env, model, tasks)];
    forall m, t | m in results && t in results[m] ensures Within(Scores(results[m][t]), 0.0, 1.0) {
      var records := TaskRecords(o, env, model, t, tasks[t]);
      assert results[m][t] == records;
      forall i | 0 <= i < |records| ensures 0.0 <= Scores(records)[i] <= 1.0 {
        TaskRecordsShape(o, env, model, t, tasks[t], i);
      }
    }
  }

  /** Average scores lie in [0, 1] whenever every recorded score does. */
  lemma {:induction false} AverageScoreInUnitRange(results: Results, m: string, t: string)
    requires ScoresInUnitRange(results)
    requires SummaryOf(results).Success?
    requires m in results && t in results[m]
    ensures 0.0 <= SummaryOf(results).value[m][t].avgScore <= 1.0
  {
    assert !IsEmptyGroup(results, m, t);
    MeanBounds(Scores(results[m][t]), 0.0, 1.0);
  }

  /** A group's summary is the mean of each field over its records. */
  lemma SummaryIsMean(results: Results, m: string, t: string)
    requires SummaryOf(results).Success?
    requires m in results && t in results[m]
    ensures results[m][t] != []
    ensures SummaryOf(results).value[m][t] == Stats(Mean(Scores(results[m][t])), Mean(Latencies(results[m][t])), Mean(MemoryUsages(results[m][t])))
  {
    assert !IsEmptyGroup(results, m, t);
  }

  /** Running a task list with no items records nothing, so summarising it fails. */
  lemma {:induction false} EmptyTaskListBlocksSummary(o: Oracles, env: Environment, model: string, tasks: map<string, seq<TaskItem>>, t: string)
    requires t in tasks && tasks[t] == []
    ensures SummaryOf(map[model := ModelResults(o, env, model, tasks)]).Failure?
  {
    var results := map[model := ModelResults(o, env, model, tasks)];
    assert IsEmptyGroup(results, model, t);
  }
}
