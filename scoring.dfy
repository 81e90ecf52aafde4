/*
 * The scoring rules of the benchmark (`LLMBenchmark.evaluate` and the
 * per-task scorers it dispatches to).
 *
 * The library calls the scorers make are oracles passed in as values:
 *   - `ratio`  stands for `difflib.SequenceMatcher(None, a, b).ratio()`,
 *   - `runs`   says whether `exec(code)` completes without an exception,
 *   - `parse`  stands for `ast.dump(ast.parse(code))` (None: the parse raised),
 *   - `bert`   stands for the F1 of `bert_score` (None: the scorer raised).
 * The only thing assumed of them is that ratio and F1 lie in [0, 1].
 */
module Scoring {
  import opened Wrappers
  import opened Text
  import opened CodeExtraction

  /** A similarity measure with values in [0, 1]. */
  type Ratio = f: (string, string) -> real | forall a, b :: 0.0 <= f(a, b) <= 1.0
    witness (a: string, b: string) => 0.0

  /** A similarity scorer that may fail; when it succeeds its value lies in [0, 1]. */
  type SemanticScorer = f: (string, string) -> Option<real>
    | forall a, b :: f(a, b).Some? ==> 0.0 <= f(a, b).value <= 1.0
    witness (a: string, b: string) => None

  datatype Oracles = Oracles(
    ratio: Ratio,
    runs: string -> bool,
    parse: string -> Option<string>,
    bert: SemanticScorer)

  /**
   * `exec` parses its argument before running it, so code that runs also
   * parses.
   */
  ghost predicate ExecParsesFirst(o: Oracles) {
    forall c :: o.runs(c) ==> o.parse(c).Some?
  }

  const QaTag := "qa"
  const CodeTag := "code"
  const SummarizationTag := "summarization"
  const ReasoningTag := "reasoning"

  predicate IsKnownTaskType(taskType: string) {
    taskType == QaTag || taskType == CodeTag || taskType == SummarizationTag || taskType == ReasoningTag
  }

  function Max(a: real, b: real): real {
    if a >= b then a else b
  }

  // ----- evaluate -----

  /**
   * `evaluate`: both strings are stripped and lowercased, then the task tag
   * picks the scorer; an unknown tag scores 0.0.
   */
  function Evaluate(o: Oracles, response: string, groundTruth: string, taskType: string): (score: real)
    ensures 0.0 <= score <= 1.0
    ensures !IsKnownTaskType(taskType) ==> score == 0.0
  {
    var r := Normalize(response);
    var g := Normalize(groundTruth);
    if taskType == QaTag then EvaluateQa(o.ratio, r, g)
    else if taskType == CodeTag then EvaluateCode(o, r, g)
    else if taskType == SummarizationTag then EvaluateSemantic(o.bert, r, g)
    else if taskType == ReasoningTag then EvaluateSemantic(o.bert, r, g)
    else 0.0
  }

  // ----- question answering -----

  /** The set of whitespace-separated tokens of `s` (`set(s.split())`). */
  function Tokens(s: string): set<string> {
    set w | w in Split(s)
  }

  /** |a ∩ b| / |a ∪ b|, or 0 when the union is empty. */
  function Jaccard(a: set<string>, b: set<string>): real {
    if |a + b| == 0 then 0.0 else (|a * b| as real) / (|a + b| as real)
  }

  /**
   * `evaluate_qa`: full marks when either normalised string contains the
   * other; otherwise the larger of token Jaccard and the sequence ratio.
   */
  function EvaluateQa(ratio: Ratio, response: string, groundTruth: string): (score: real)
    ensures 0.0 <= score <= 1.0
    ensures Contains(Normalize(response), Normalize(groundTruth)) ==> score == 1.0
    ensures Contains(Normalize(groundTruth), Normalize(response)) ==> score == 1.0
  {
    var r := Normalize(response);
    var g := Normalize(groundTruth);
    if Contains(r, g) || Contains(g, r) then 1.0
    else
      JaccardBounds(Tokens(r), Tokens(g));
      Max(Jaccard(Tokens(r), Tokens(g)), ratio(r, g))
  }

  // ----- code -----

  /**
   * `ast_similarity`: the ratio of the two AST dumps, or 0.0 when either
   * snippet fails to parse.
   */
  function AstSimilarity(o: Oracles, code1: string, code2: string): (sim: real)
    ensures 0.0 <= sim <= 1.0
    ensures o.parse(code1).None? || o.parse(code2).None? ==> sim == 0.0
  {
    match (o.parse(code1), o.parse(code2))
    case (Some(d1), Some(d2)) => o.ratio(d1, d2)
    case _ => 0.0
  }

  /**
   * What the `try` block of `evaluate_code` does: the snippets handed to
   * `exec`, in order, and the score returned.
   */
  datatype CodeRun = CodeRun(executed: seq<string>, score: real)

  function RunCode(o: Oracles, response: string, groundTruth: string): CodeRun {
    var code := ExtractedCode(response);
    var truth := Strip(groundTruth);
    var sim := AstSimilarity(o, code, truth);
    if !o.runs(code) then CodeRun([code], sim)
    else if !o.runs(truth) then CodeRun([code, truth], sim)
    else CodeRun([code, truth], 0.8 + 0.2 * sim)
  }

  /** `evaluate_code`. */
  function EvaluateCode(o: Oracles, response: string, groundTruth: string): (score: real)
    ensures 0.0 <= score <= 1.0
  {
    RunCode(o, response, groundTruth).score
  }

  // ----- summarization and reasoning -----

  /**
   * `evaluate_summarization` and `evaluate_reasoning` (the two are the same
   * rule): the scorer's F1, or 0.0 when the scorer raises.
   */
  function EvaluateSemantic(bert: SemanticScorer, response: string, groundTruth: string): (score: real)
    ensures 0.0 <= score <= 1.0
    ensures bert(response, groundTruth).None? ==> score == 0.0
  {
    match bert(response, groundTruth)
    case None => 0.0
    case Some(f1) => f1
  }

  // ----- lemmas: evaluate -----

  /** Every scorer receives the stripped, lowercased strings. */
  lemma EvaluateRoutes(o: Oracles, response: string, groundTruth: string)
    ensures Evaluate(o, response, groundTruth, QaTag) == EvaluateQa(o.ratio, Normalize(response), Normalize(groundTruth))
    ensures Evaluate(o, response, groundTruth, CodeTag) == EvaluateCode(o, Normalize(response), Normalize(groundTruth))
    ensures Evaluate(o, response, groundTruth, SummarizationTag) == EvaluateSemantic(o.bert, Normalize(response), Normalize(groundTruth))
    ensures Evaluate(o, response, groundTruth, ReasoningTag) == EvaluateSemantic(o.bert, Normalize(response), Normalize(groundTruth))
  {
  }

  /** Normalising the inputs first changes no score. */
  lemma {:induction false} EvaluateIgnoresNormalization(o: Oracles, response: string, groundTruth: string, taskType: string)
    ensures Evaluate(o, Normalize(response), Normalize(groundTruth), taskType) == Evaluate(o, response, groundTruth, taskType)
  {
    NormalizeIdempotent(response);
    NormalizeIdempotent(groundTruth);
  }

  /**
   * The code scorer too sees lowercased text: a response that differs only
   * in letter case gets the same code score.
   */
  lemma {:induction false} CodeScoreIgnoresCase(o: Oracles, response: string, groundTruth: string)
    ensures Evaluate(o, Lower(response), groundTruth, CodeTag) == Evaluate(o, response, groundTruth, CodeTag)
  {
    NormalizeLower(response);
  }

  // ----- lemmas: question answering -----

  lemma {:induction false} SubsetCardinality(a: set<string>, b: set<string>)
    requires a <= b
    ensures |a| <= |b|
    ensures |a| == |b| ==> a == b
    decreases |b|
  {
    if b != {} {
      var x :| x in b;
      SubsetCardinality(a - {x}, b - {x});
      assert |b - {x}| == |b| - 1;
      if x in a {
        assert |a - {x}| == |a| - 1;
        if |a| == |b| {
          assert a == (a - {x}) + {x};
          assert b == (b - {x}) + {x};
        }
      } else {
        assert a - {x} == a;
      }
    }
  }

  lemma {:induction false} JaccardBounds(a: set<string>, b: set<string>)
    ensures 0.0 <= Jaccard(a, b) <= 1.0
  {
    SubsetCardinality(a * b, a + b);
  }

  lemma JaccardSymmetric(a: set<string>, b: set<string>)
    ensures Jaccard(a, b) == Jaccard(b, a)
  {
    assert a + b == b + a;
    assert a * b == b * a;
  }

  /** Jaccard is 1 exactly for two equal, non-empty token sets. */
  lemma {:induction false} JaccardOneIff(a: set<string>, b: set<string>)
    ensures Jaccard(a, b) == 1.0 <==> a == b && a != {}
  {
    if Jaccard(a, b) == 1.0 {
      var shared := |a * b| as real;
      var union := |a + b| as real;
      assert union > 0.0 && shared / union == 1.0;
      assert shared == union;
      SubsetCardinality(a * b, a + b);
      assert a * b == a + b;
      assert a <= b by {
        forall x | x in a ensures x in b {
          assert x in a + b;
        }
      }
      assert b <= a by {
        forall x | x in b ensures x in a {
          assert x in a + b;
        }
      }
    }
    if a == b && a != {} {
      assert a * b == a + b;
    }
  }

  /** Jaccard is 0 exactly when the token sets share nothing. */
  lemma {:induction false} JaccardZeroIff(a: set<string>, b: set<string>)
    ensures Jaccard(a, b) == 0.0 <==> a * b == {}
  {
    if a * b != {} {
      SubsetCardinality(a * b, a + b);
    }
  }

  /** The QA score is at least the token Jaccard and at least the sequence ratio. */
  lemma {:induction false} QaScoreDominates(ratio: Ratio, response: string, groundTruth: string)
    ensures EvaluateQa(ratio, response, groundTruth) >= Jaccard(Tokens(Normalize(response)), Tokens(Normalize(groundTruth)))
    ensures EvaluateQa(ratio, response, groundTruth) >= ratio(Normalize(response), Normalize(groundTruth))
  {
    JaccardBounds(Tokens(Normalize(response)), Tokens(Normalize(groundTruth)));
  }

  /** An answer compared with itself scores 1.0. */
  lemma {:induction false} QaSelfScoresOne(ratio: Ratio, s: string)
    ensures EvaluateQa(ratio, s, s) == 1.0
  {
    ContainsSelf(Normalize(s));
  }

  /** A blank ground truth, or a blank response, scores 1.0. */
  lemma {:induction false} QaBlankScoresOne(ratio: Ratio, response: string, groundTruth: string)
    requires AllSpace(groundTruth) || AllSpace(response)
    ensures EvaluateQa(ratio, response, groundTruth) == 1.0
  {
    StripSpec(response);
    StripSpec(groundTruth);
    ContainsSelf(Normalize(response));
    ContainsSelf(Normalize(groundTruth));
  }

  // ----- lemmas: code -----

  /**
   * The ground truth is executed only after the response code ran; when
   * both run the score is in the band [0.8, 1.0], otherwise it is the AST
   * similarity itself.
   */
  lemma {:induction false} CodeRunShape(o: Oracles, response: string, groundTruth: string)
    ensures var run := RunCode(o, response, groundTruth);
      var code := ExtractedCode(response);
      var truth := Strip(groundTruth);
      && 1 <= |run.executed| <= 2
      && run.executed[0] == code
      && (|run.executed| == 2 <==> o.runs(code))
      && (|run.executed| == 2 ==> run.executed[1] == truth)
      && (o.runs(code) && o.runs(truth) ==> 0.8 <= run.score <= 1.0)
      && (!(o.runs(code) && o.runs(truth)) ==> run.score == AstSimilarity(o, code, truth))
  {
    var code := ExtractedCode(response);
    var truth := Strip(groundTruth);
    var sim := AstSimilarity(o, code, truth);
    assert 0.0 <= sim <= 1.0;
  }

  /** Code that does not parse scores 0.0 (it cannot run either). */
  lemma {:induction false} UnparsableCodeScoresZero(o: Oracles, response: string, groundTruth: string)
    requires ExecParsesFirst(o)
    requires o.parse(ExtractedCode(response)).None?
    ensures EvaluateCode(o, response, groundTruth) == 0.0
  {
    var code := ExtractedCode(response);
    assert !o.runs(code);
  }

  /**
   * A runnable snippet whose AST dump the ratio rates fully similar to
   * itself scores 1.0 against itself.
   */
  lemma {:induction false} RunnableCodeMatchesItself(o: Oracles, response: string, groundTruth: string)
    requires ExtractedCode(response) == Strip(groundTruth)
    requires o.runs(Strip(groundTruth))
    requires o.parse(Strip(groundTruth)).Some?
    requires o.ratio(o.parse(Strip(groundTruth)).value, o.parse(Strip(groundTruth)).value) == 1.0
    ensures EvaluateCode(o, response, groundTruth) == 1.0
  {
  }
}
