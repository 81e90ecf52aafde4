/*
 * The task builders: each turns the items read from one benchmark file into
 * task records (prompt, expected answer, task tag), one per item and in the
 * same order; `load_all_benchmarks` collects the four lists under their tags.
 * Reading and decoding the JSON files is not modelled: the items arrive as
 * values.
 */
module Tasks {
  import opened Scoring

  /** One item of each input file, with the fields the builders read. */
  datatype QaEntry = QaEntry(question: string, answer: string)
  datatype CodeEntry = CodeEntry(prompt: string, solution: string)
  datatype SummaryEntry = SummaryEntry(text: string, summary: string)
  datatype ReasoningEntry = ReasoningEntry(question: string, answer: string)

  /** A task record: `{"prompt": ..., "answer": ..., "type": ...}`. */
  datatype TaskItem = TaskItem(prompt: string, answer: string, kind: string)

  // ----- prompt templates -----

  const QaHead := "Question: "
  const AnswerCue := "\nAnswer:"
  const CodeCue := "\n\nWrite your code below:\n"
  const SummaryHead := "Summarize the following text:\n\n"
  const SummaryCue := "\n\nSummary:"
  const ReasoningHead := "Reason logically and answer the question:\n\n"

  function QaPrompt(question: string): string {
    QaHead + question + AnswerCue
  }

  function CodePrompt(prompt: string): string {
    prompt + CodeCue
  }

  function SummaryPrompt(text: string): string {
    SummaryHead + text + SummaryCue
  }

  function ReasoningPrompt(question: string): string {
    ReasoningHead + question + AnswerCue
  }

  /** The text a template wrapped, given the lengths of its head and tail. */
  function Unwrap(prompt: string, head: nat, tail: nat): (inner: string)
    requires head + tail <= |prompt|
    ensures |inner| == |prompt| - head - tail
  {
    prompt[head..|prompt| - tail]
  }

  // ----- records -----

  function QaRecord(e: QaEntry): TaskItem {
    TaskItem(QaPrompt(e.question), e.answer, QaTag)
  }

  function CodeRecord(e: CodeEntry): TaskItem {
    TaskItem(CodePrompt(e.prompt), e.solution, CodeTag)
  }

  function SummaryRecord(e: SummaryEntry): TaskItem {
    TaskItem(SummaryPrompt(e.text), e.summary, SummarizationTag)
  }

  function ReasoningRecord(e: ReasoningEntry): TaskItem {
    TaskItem(ReasoningPrompt(e.question), e.answer, ReasoningTag)
  }

  // ----- builders -----

  /** The loop every builder runs: one record per item, appended in order. */
  method BuildTasks<T>(items: seq<T>, record: T -> TaskItem) returns (tasks: seq<TaskItem>)
    ensures |tasks| == |items|
    ensures forall i :: 0 <= i < |items| ==> tasks[i] == record(items[i])
  {
    tasks := [];
    for i := 0 to |items|
      invariant |tasks| == i
      invariant forall j :: 0 <= j < i ==> tasks[j] == record(items[j])
    {
      tasks := tasks + [record(items[i])];
    }
  }

  /** `create_qa_benchmark`. */
  method CreateQaBenchmark(items: seq<QaEntry>) returns (tasks: seq<TaskItem>)
    ensures |tasks| == |items|
    ensures forall i :: 0 <= i < |items| ==> tasks[i].kind == QaTag
    ensures forall i :: 0 <= i < |items| ==> tasks[i].answer == items[i].answer
    ensures forall i :: 0 <= i < |items| ==> tasks[i].prompt == QaHead + items[i].question + AnswerCue
  {
    tasks := BuildTasks(items, QaRecord);
  }

  /** `create_code_benchmark`. */
  method CreateCodeBenchmark(items: seq<CodeEntry>) returns (tasks: seq<TaskItem>)
    ensures |tasks| == |items|
    ensures forall i :: 0 <= i < |items| ==> tasks[i].kind == CodeTag
    ensures forall i :: 0 <= i < |items| ==> tasks[i].answer == items[i].solution
    ensures forall i :: 0 <= i < |items| ==> tasks[i].prompt == items[i].prompt + CodeCue
  {
    tasks := BuildTasks(items, CodeRecord);
  }

  /** `create_summarization_benchmark`. */
  method CreateSummarizationBenchmark(items: seq<SummaryEntry>) returns (tasks: seq<TaskItem>)
    ensures |tasks| == |items|
    ensures forall i :: 0 <= i < |items| ==> tasks[i].kind == SummarizationTag
    ensures forall i :: 0 <= i < |items| ==> tasks[i].answer == items[i].summary
    ensures forall i :: 0 <= i < |items| ==> tasks[i].prompt == SummaryHead + items[i].text + SummaryCue
  {
    tasks := BuildTasks(items, SummaryRecord);
  }

  /** `create_reasoning_benchmark`. */
  method CreateReasoningBenchmark(items: seq<ReasoningEntry>) returns (tasks: seq<TaskItem>)
    ensures |tasks| == |items|
    ensures forall i :: 0 <= i < |items| ==> tasks[i].kind == ReasoningTag
    ensures forall i :: 0 <= i < |items| ==> tasks[i].answer == items[i].answer
    ensures forall i :: 0 <= i < |items| ==> tasks[i].prompt == ReasoningHead + items[i].question + AnswerCue
  {
    tasks := BuildTasks(items, ReasoningRecord);
  }

  /** Every record in `tasks` carries the tag `kind`. */
  predicate AllOfKind(tasks: seq<TaskItem>, kind: string) {
    forall i :: 0 <= i < |tasks| ==> tasks[i].kind == kind
  }

  /**
   * `load_all_benchmarks`: the four task lists under exactly the four tags
   * `evaluate` dispatches on, each list holding its builder's records, in
   * item order, and so only records of its own tag.
   */
  method LoadAllBenchmarks(qa: seq<QaEntry>, code: seq<CodeEntry>, summaries: seq<SummaryEntry>, reasoning: seq<ReasoningEntry>)
    returns (tasks: map<string, seq<TaskItem>>)
    ensures tasks.Keys == {QaTag, CodeTag, SummarizationTag, ReasoningTag}
    ensures forall k :: k in tasks ==> IsKnownTaskType(k) && AllOfKind(tasks[k], k)
    ensures |tasks[QaTag]| == |qa| && |tasks[CodeTag]| == |code|
    ensures |tasks[SummarizationTag]| == |summaries| && |tasks[ReasoningTag]| == |reasoning|
    ensures forall i :: 0 <= i < |qa| ==> tasks[QaTag][i] == QaRecord(qa[i])
    ensures forall i :: 0 <= i < |code| ==> tasks[CodeTag][i] == CodeRecord(code[i])
    ensures forall i :: 0 <= i < |summaries| ==> tasks[SummarizationTag][i] == SummaryRecord(summaries[i])
    ensures forall i :: 0 <= i < |reasoning| ==> tasks[ReasoningTag][i] == ReasoningRecord(reasoning[i])
  {
    var q := CreateQaBenchmark(qa);
    var c := CreateCodeBenchmark(code);
    var s := CreateSummarizationBenchmark(summaries);
    var r := CreateReasoningBenchmark(reasoning);
    tasks := map[QaTag := q, CodeTag := c, SummarizationTag := s, ReasoningTag := r];
  }

  // ----- lemmas -----

  /** The question can be read back out of a QA prompt. */
  lemma QaPromptRoundTrip(question: string)
    ensures Unwrap(QaPrompt(question), |QaHead|, |AnswerCue|) == question
  {
    var p := QaPrompt(question);
    assert p[|QaHead|..|p| - |AnswerCue|] == question;
  }

  lemma CodePromptRoundTrip(prompt: string)
    ensures Unwrap(CodePrompt(prompt), 0, |CodeCue|) == prompt
  {
    var p := CodePrompt(prompt);
    assert p[..|p| - |CodeCue|] == prompt;
  }

  lemma SummaryPromptRoundTrip(text: string)
    ensures Unwrap(SummaryPrompt(text), |SummaryHead|, |SummaryCue|) == text
  {
    var p := SummaryPrompt(text);
    assert p[|SummaryHead|..|p| - |SummaryCue|] == text;
  }

  lemma ReasoningPromptRoundTrip(question: string)
    ensures Unwrap(ReasoningPrompt(question), |ReasoningHead|, |AnswerCue|) == question
  {
    var p := ReasoningPrompt(question);
    assert p[|ReasoningHead|..|p| - |AnswerCue|] == question;
  }

  /** Distinct questions give distinct QA prompts, and likewise for every template. */
  lemma {:induction false} PromptsInjective(x: string, y: string)
    ensures QaPrompt(x) == QaPrompt(y) ==> x == y
    ensures CodePrompt(x) == CodePrompt(y) ==> x == y
    ensures SummaryPrompt(x) == SummaryPrompt(y) ==> x == y
    ensures ReasoningPrompt(x) == ReasoningPrompt(y) ==> x == y
  {
    QaPromptRoundTrip(x);
    QaPromptRoundTrip(y);
    CodePromptRoundTrip(x);
    CodePromptRoundTrip(y);
    SummaryPromptRoundTrip(x);
    SummaryPromptRoundTrip(y);
    ReasoningPromptRoundTrip(x);
    ReasoningPromptRoundTrip(y);
  }
}
