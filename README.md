# LLM benchmark scoring, verified model

This project models the core of a small benchmark harness for large language models:

- how it builds task records from benchmark items (`tasks.py`);
- how it queries each model on each task list and records one result per item (`LLMBenchmark.run_benchmarks` and `benchmark_task`);
- how it scores a response against the expected answer (`evaluate` and its four scorers, including the code extractor);
- how it aggregates per-group means (`get_summary_statistics`);
- how the report picks a best, median and worst example per group (`generate_report`, the selection only).

The library calls are parameters of the model. These are `difflib.SequenceMatcher.ratio`, `exec`, `ast.parse` + `ast.dump`, `bert_score`, and `ollama.chat` together with the clock and `tracemalloc`. The model assumes only that the sequence ratio and the BERTScore F1 lie in [0, 1].

Files:

| file | module | what it holds |
|---|---|---|
| `wrappers.dfy` | `Wrappers` | `Option` and `Result` |
| `text.dfy` | `Text` | Python's `strip`, `lower`, `in`, `split()`, `splitlines()`, `"\n".join` and `startswith`, over `seq<char>` |
| `extraction.dfy` | `CodeExtraction` | `extract_code`: the first fenced block, else the lines from the first `def ` line |
| `scoring.dfy` | `Scoring` | `evaluate`, `evaluate_qa`, `evaluate_code`, `ast_similarity`, `evaluate_summarization` / `evaluate_reasoning` |
| `tasks.dfy` | `Tasks` | the four `create_*_benchmark` builders and `load_all_benchmarks` |
| `statistics.dfy` | `Statistics` | `statistics.mean` over exact reals |
| `runner.dfy` | `Runner` | class `Benchmark` (`results`, `_thinking`), `benchmark_task`, `run_benchmarks`, `get_summary_statistics` |
| `report.dfy` | `Report` | the best / median / worst index selection |

Some parts are imperative in the source and modelled as methods over state, each proved equal to a function that states its result:

- the record loops of the builders and of `benchmark_task`;
- the `in_code` loop of `extract_code`;
- the result dictionary that `run_benchmarks` fills;
- the nested loops of `get_summary_statistics`.

The scorers and the report selection are expressions in the source, and they are modelled as functions.

`evaluate` strips and lowercases both strings before every scorer, the code scorer included (`benchmark_framework/benchmark.py:89-95`). The model does the same: `Scoring.Evaluate` lowercases on every path, and `Scoring.CodeScoreIgnoresCase` states the consequence.

## Model

| member | source | states |
|---|---|---|
| Text.StripSpec | benchmark_framework/benchmark.py:89-90 | `strip()` removes exactly the longest whitespace prefix and suffix (Python's `isspace` set); the result is empty iff the input is all whitespace, and otherwise neither starts nor ends with whitespace |
| Text.StripHasNoMargin | benchmark_framework/benchmark.py:147 | a stripped string has no whitespace at either end |
| Text.LeadingSpaceSpec | benchmark_framework/benchmark.py:89 | the counted prefix is all whitespace and the next character is not |
| Text.TrailingSpaceSpec | benchmark_framework/benchmark.py:89 | the counted suffix is all whitespace and the character before it is not |
| Text.StripIdempotent | benchmark_framework/benchmark.py:110-111 | stripping an already stripped string changes nothing |
| Text.LowerCharKeepsSpace | benchmark_framework/benchmark.py:89 | lowering a character never turns whitespace into non-whitespace or back |
| Text.StripLowerCommute | benchmark_framework/benchmark.py:89-90 | `s.lower().strip() == s.strip().lower()` |
| Text.LowerIdempotent | benchmark_framework/benchmark.py:110-111 | lowering twice is lowering once |
| Text.NormalizeIdempotent | benchmark_framework/benchmark.py:110-111 | `strip().lower()` applied twice equals applying it once, so the scorers' second normalisation is a no-op |
| Text.NormalizeLower | benchmark_framework/benchmark.py:89-90 | the normalised text does not depend on any earlier lowering |
| Text.ContainsSelf | benchmark_framework/benchmark.py:113 | every string contains itself and the empty string (`in`) |
| Text.WordLength | benchmark_framework/benchmark.py:117 | the counted prefix holds no whitespace and stops at whitespace or the end |
| Text.SplitYieldsWords | benchmark_framework/benchmark.py:117-118 | every token of `split()` is non-empty and free of whitespace |
| Text.SplitEmptyIff | benchmark_framework/benchmark.py:117-118 | `split()` yields no tokens iff the text is all whitespace |
| Text.LineLength | benchmark_framework/benchmark.py:150 | the counted prefix holds no line boundary and stops at one or at the end |
| Text.SplitLines | benchmark_framework/benchmark.py:150 | `splitlines()` yields no lines iff the text is empty |
| Text.SplitLinesHaveNoBreaks | benchmark_framework/benchmark.py:150 | no line of `splitlines()` contains a line boundary |
| Text.JoinSplitLines | benchmark_framework/benchmark.py:150-158 | for text whose only boundary is "\n" and which does not end in one, `"\n".join(s.splitlines()) == s` |
| CodeExtraction.Find | benchmark_framework/benchmark.py:145 | the lazy `.*?` stops at the first closing fence at or after the body start; none means no fence follows |
| CodeExtraction.OpenerLength | benchmark_framework/benchmark.py:145 | an opener is "```python\n" (tried first), "```\n" or absent |
| CodeExtraction.BlockAt | benchmark_framework/benchmark.py:145 | a match at `p` is an opener at `p` and the shortest body up to the next fence; there is none iff no opener is at `p` or no fence follows it |
| CodeExtraction.FirstBlockFrom | benchmark_framework/benchmark.py:145-146 | the leftmost match: a match at the returned position and none before it; none means no position matches |
| CodeExtraction.FirstDefIndex | benchmark_framework/benchmark.py:153-155 | the index of the first line whose stripped form starts with "def ", with no such line before it; the line count when there is none |
| CodeExtraction.BlockCode | benchmark_framework/benchmark.py:147 | the stripped body of a block is a substring of the response |
| CodeExtraction.ExtractedCode | benchmark_framework/benchmark.py:141-158 | when a fenced block exists the extracted code is a substring of the response |
| CodeExtraction.ExtractCode | benchmark_framework/benchmark.py:141-158 | the method returns the first block's stripped body, else the stripped join of the fallback lines |
| CodeExtraction.CollectFromFirstDef | benchmark_framework/benchmark.py:150-157 | the `in_code` loop collects exactly the lines from the first `def ` line to the end |
| CodeExtraction.CollectFrom | benchmark_framework/benchmark.py:151-157 | given the first `def ` position, the flag loop returns the suffix of the lines from there |
| CodeExtraction.ExtractedCodeIsStripped | benchmark_framework/benchmark.py:147-158 | either way the extracted code has no whitespace margin |
| CodeExtraction.NoDefLineExtractsNothing | benchmark_framework/benchmark.py:149-158 | with no fenced block and no `def ` line the result is the empty string |
| CodeExtraction.FallbackIsSuffixFromFirstDef | benchmark_framework/benchmark.py:149-158 | with no block, the result is the stripped join of a suffix of the lines that starts at a `def ` line, with no `def ` line before it |
| CodeExtraction.LaterTextIgnored | benchmark_framework/benchmark.py:145-147 | text appended after a response that has a fenced block changes neither the first block nor the extracted code, so later blocks are ignored |
| CodeExtraction.FirstBlockFromFound | benchmark_framework/benchmark.py:145 | a match with no match before it is the one the leftmost search returns |
| CodeExtraction.FenceAfterOpener | benchmark_framework/benchmark.py:145 | a fence cannot start inside an opener, so the body search starts after it |
| CodeExtraction.StrippedSliceContained | benchmark_framework/benchmark.py:147 | the stripped slice of a string is contained in that string |
| Scoring.Evaluate | benchmark_framework/benchmark.py:88-101 | every score lies in [0, 1]; any tag other than "qa", "code", "summarization", "reasoning" scores 0.0 |
| Scoring.EvaluateRoutes | benchmark_framework/benchmark.py:89-99 | each known tag hands the stripped, lowercased strings to its scorer, the code scorer included |
| Scoring.EvaluateIgnoresNormalization | benchmark_framework/benchmark.py:89-90 | normalising the inputs beforehand changes no score |
| Scoring.CodeScoreIgnoresCase | benchmark_framework/benchmark.py:89-95 | a response that differs only in letter case gets the same code score |
| Scoring.EvaluateQa | benchmark_framework/benchmark.py:109-128 | the score lies in [0, 1] and is 1.0 whenever either normalised string contains the other |
| Scoring.QaScoreDominates | benchmark_framework/benchmark.py:116-128 | the QA score is at least the token Jaccard and at least the sequence ratio |
| Scoring.QaSelfScoresOne | benchmark_framework/benchmark.py:113-114 | an answer compared with itself scores 1.0 |
| Scoring.QaBlankScoresOne | benchmark_framework/benchmark.py:110-114 | a ground truth or response that is all whitespace scores 1.0 |
| Scoring.JaccardBounds | benchmark_framework/benchmark.py:119-122 | the Jaccard value lies in [0, 1] |
| Scoring.JaccardSymmetric | benchmark_framework/benchmark.py:119-122 | swapping the token sets leaves the Jaccard value unchanged |
| Scoring.JaccardOneIff | benchmark_framework/benchmark.py:119-122 | Jaccard is 1 exactly for equal, non-empty token sets |
| Scoring.JaccardZeroIff | benchmark_framework/benchmark.py:119-122 | Jaccard is 0 exactly when the token sets share no token, the empty union included |
| Scoring.SubsetCardinality | benchmark_framework/benchmark.py:119-122 | a subset is no larger than its superset, and equal size means equal sets |
| Scoring.AstSimilarity | benchmark_framework/benchmark.py:176-184 | the similarity lies in [0, 1] and is 0.0 when either snippet fails to parse |
| Scoring.EvaluateCode | benchmark_framework/benchmark.py:160-174 | the code score lies in [0, 1] |
| Scoring.CodeRunShape | benchmark_framework/benchmark.py:164-174 | the response code runs first and the ground truth only if it succeeded; both running gives a score in [0.8, 1.0], otherwise the score is the AST similarity |
| Scoring.UnparsableCodeScoresZero | benchmark_framework/benchmark.py:170-184 | when `exec` parses before it runs, code that does not parse scores 0.0 |
| Scoring.RunnableCodeMatchesItself | benchmark_framework/benchmark.py:168-172 | runnable code extracted equal to the stripped ground truth, with a self-similar AST dump, scores 1.0 |
| Scoring.EvaluateSemantic | benchmark_framework/benchmark.py:186-200 | the score is the scorer's F1 in [0, 1], or 0.0 when the scorer raises |
| Tasks.Unwrap | benchmark_framework/tasks.py:10 | cutting a template's head and tail leaves the text that was wrapped |
| Tasks.BuildTasks | benchmark_framework/tasks.py:8-17 | the builder loop yields one record per item, in item order |
| Tasks.CreateQaBenchmark | benchmark_framework/tasks.py:4-17 | one record per item, in order, tagged "qa", with prompt `"Question: " + question + "\nAnswer:"` and the item's answer |
| Tasks.CreateCodeBenchmark | benchmark_framework/tasks.py:19-32 | one record per item, in order, tagged "code", with prompt `prompt + "\n\nWrite your code below:\n"` and the item's solution |
| Tasks.CreateSummarizationBenchmark | benchmark_framework/tasks.py:34-47 | one record per item, in order, tagged "summarization", with prompt `"Summarize the following text:\n\n" + text + "\n\nSummary:"` and the item's summary |
| Tasks.CreateReasoningBenchmark | benchmark_framework/tasks.py:49-62 | one record per item, in order, tagged "reasoning", with prompt `"Reason logically and answer the question:\n\n" + question + "\nAnswer:"` and the item's answer |
| Tasks.LoadAllBenchmarks | benchmark_framework/tasks.py:64-70 | exactly the keys "qa", "code", "summarization", "reasoning"; each is a tag `evaluate` dispatches on; each list holds, at every position, the record its builder makes from the item at that position, so it has as many records as its input and only records of its own tag |
| Tasks.QaPromptRoundTrip | benchmark_framework/tasks.py:10 | the question can be read back out of a QA prompt |
| Tasks.CodePromptRoundTrip | benchmark_framework/tasks.py:25 | the task text can be read back out of a code prompt |
| Tasks.SummaryPromptRoundTrip | benchmark_framework/tasks.py:40 | the text can be read back out of a summarization prompt |
| Tasks.ReasoningPromptRoundTrip | benchmark_framework/tasks.py:55 | the question can be read back out of a reasoning prompt |
| Tasks.PromptsInjective | benchmark_framework/tasks.py:10-55 | under each template, distinct inputs give distinct prompts |
| Statistics.SumBounds | benchmark_framework/benchmark.py:212-214 | the sum of n values in [lo, hi] lies in [n·lo, n·hi] |
| Statistics.MeanBounds | benchmark_framework/benchmark.py:212-214 | the mean of values in [lo, hi] lies in [lo, hi] |
| Statistics.MeanOfConstant | benchmark_framework/benchmark.py:212-214 | the mean of copies of one value is that value |
| Runner.TaskRecords | benchmark_framework/benchmark.py:38-76 | the list `benchmark_task` returns has one record per item |
| Runner.SummaryOf | benchmark_framework/benchmark.py:202-217 | the summary fails exactly when some group has no records; otherwise it has the model keys and, per model, the task keys of the results |
| Runner.Benchmark.constructor | benchmark_framework/benchmark.py:16-20 | stores models and tasks and starts with no results and `_thinking` off |
| Runner.Benchmark.BenchmarkTask | benchmark_framework/benchmark.py:38-76 | returns exactly `TaskRecords` (one record per item, in order) and leaves `_thinking` off after any item |
| Runner.Benchmark.QueryItem | benchmark_framework/benchmark.py:42-74 | one item's record, with `_thinking` off after the model call |
| Runner.Benchmark.RunBenchmarks | benchmark_framework/benchmark.py:23-36 | after the run every model has an entry holding the records of every task list, other entries are kept, and the results are returned |
| Runner.Benchmark.RunModel | benchmark_framework/benchmark.py:25-31 | replaces the model's entry with the records of every task list, and changes nothing else |
| Runner.Benchmark.GetSummaryStatistics | benchmark_framework/benchmark.py:202-217 | returns exactly `SummaryOf(results)`: the per-group means, or the error when a group is empty |
| Runner.TaskRecordAt | benchmark_framework/benchmark.py:67-74 | the i-th record is the one built from the i-th item |
| Runner.TaskRecordsShape | benchmark_framework/benchmark.py:42-74 | each record copies the item's prompt and answer, takes the model's response and latency, holds peak/1024 as memory and the `evaluate` score, which lies in [0, 1] |
| Runner.RunScoresInUnitRange | benchmark_framework/benchmark.py:23-36 | after a run every recorded score lies in [0, 1] |
| Runner.AverageScoreInUnitRange | benchmark_framework/benchmark.py:207-212 | every average score lies in [0, 1] when every recorded score does |
| Runner.SummaryIsMean | benchmark_framework/benchmark.py:207-215 | a group's summary is the mean score, mean latency and mean memory of its records |
| Runner.EmptyTaskListBlocksSummary | benchmark_framework/benchmark.py:202-217 | running a task list with no items makes the summary fail |
| Report.Insert | benchmark_framework/report.py:55 | inserting grows the list by one |
| Report.Sort | benchmark_framework/report.py:55 | sorting keeps the length |
| Report.SortFacts | benchmark_framework/report.py:55 | `sorted` yields an ascending permutation of its input |
| Report.InsertPermutes | benchmark_framework/report.py:55 | insertion adds exactly the inserted value |
| Report.InsertSorted | benchmark_framework/report.py:55 | insertion into a sorted list keeps it sorted |
| Report.MaxOf | benchmark_framework/report.py:56 | `max` is an element no smaller than any other |
| Report.MinOf | benchmark_framework/report.py:57 | `min` is an element no larger than any other |
| Report.IndexOf | benchmark_framework/report.py:55-57 | `list.index` is the first position holding the value |
| Report.SelectExamples | benchmark_framework/report.py:52-57 | a group gets no selection exactly when it is empty |
| Report.ExampleSelections | benchmark_framework/report.py:50-57 | every model is covered, and within it exactly the non-empty groups |
| Report.SelectionFacts | benchmark_framework/report.py:54-57 | all three indices are in range; best and worst hold the first maximum and the first minimum; median holds the first occurrence of `sorted(scores)[n // 2]`; worst ≤ median ≤ best by score |
| Report.MedianIsUpperMedian | benchmark_framework/report.py:55 | at most n // 2 scores lie below the median pick and at most n - 1 - n // 2 above it, so it is the upper median |
| Report.CountsOfSort | benchmark_framework/report.py:55 | sorting keeps how many scores lie below or above any value |
| Report.RankCounts | benchmark_framework/report.py:55 | in a sorted list at most k values lie below rank k and at most n - 1 - k above it |
| Report.PicksIndexRecords | benchmark_framework/report.py:60-61 | every picked index reads an existing record of its group |

## Left out

- The model call, the clock and `tracemalloc`. One environment function stands for all three. It gives the response, the latency and the peak traced bytes for a model, task tag, item position and prompt, so a repeated call is assumed to give the same observation.
- `difflib.SequenceMatcher.ratio`, `exec`, `ast.parse` + `ast.dump` and `bert_score`. These are oracle parameters, and only the [0, 1] range of the ratio and of the F1 is assumed.
- Scoring.RunCode: only an exception that is a subclass of `Exception` becomes "does not run" (`benchmark_framework/benchmark.py:173` catches nothing else). The model assumes that `exec` always returns, raises nothing outside `Exception` and leaves the process unchanged. In the source, code that calls `exit()`, `quit()` or `sys.exit()` raises `SystemExit`, which escapes `evaluate_code`, `evaluate`, `benchmark_task` and `run_benchmarks` and ends the run; so does `KeyboardInterrupt`. Code that blocks on `input()` or loops forever never returns. Code that alters shared state such as `sys.modules` or `builtins` can change later `SequenceMatcher`, `ast` and `exec` calls. None of this is modelled, so the [0, 1] bound of `Scoring.Evaluate` holds only for calls that return.
- `thinking_animation` and its thread. Only the `_thinking` flag is kept, and it is modelled as set before the model call and cleared after it.
- Runner.Benchmark.QueryItem: the model call is assumed never to raise, because the environment function is total. In the source an exception from `ollama.chat` (`benchmark_framework/benchmark.py:52-54`) propagates before line 56. `_thinking` then stays true, and the animation thread is never joined and keeps spinning. `tracemalloc` stays started, and `run_benchmarks` stops with `self.results[model]` partly filled and the remaining models not run.
- Console output (`print`, `_display_interaction`) and file I/O: the `json.dump` of each task's results, `json.load` of the benchmark files, `os.makedirs`, and the markdown writing of `generate_report`. The builders receive the decoded items as values. A missing field (a `KeyError`) or a non-string field is not modelled.
- Floating point. Scores, latencies and means are exact reals. The `round(..., 4)` / `round(..., 2)` of `get_summary_statistics` is not applied.
- Runner.SummaryOf: an empty group raises `StatisticsError` in Python. The model returns a single error value that does not name the failing group.
- Text.LowerChar: `str.lower()` is modelled for ASCII and Latin-1 capitals only. Other Unicode case mappings, including those that change a string's length, are not modelled.
- Text.IsLineBreak: the boundary set of `splitlines()` is the one Python uses for `str`. Bytes semantics are not modelled.
- Dictionary iteration order. `run_benchmarks` and `get_summary_statistics` visit task types and models in an arbitrary order. The results do not depend on the order (the environment is a function), so only the final dictionaries are stated. Also not captured: the order in which `get_summary_statistics` meets an empty group.
- The efficiency ratios, the pandas ranking and the text of `generate_report` (`report.py:9-47`, `report.py:59-70`) are not modelled. Only the example selection is.
- `visualization.py` and `run_benchmark.py` are not part of this model. They cover plotting and top-level sequencing.
