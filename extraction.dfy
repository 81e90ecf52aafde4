/**
 * `LLMBenchmark.extract_code`: pull the candidate program out of a model's
 * free-form answer.  The first fenced block wins (the pattern
 * ```` ```(?:python)?\n(.*?)``` ```` with `.` matching newlines); without one,
 * every line from the first `def ` line to the end is taken.
 */
module CodeExtraction {
  import opened Wrappers
  import opened Text

  const Fence := "```"
  const PythonOpener := "```python\n"
  const PlainOpener := "```\n"
  const DefPrefix := "def "

  /** Where a fenced block sits: opening fence at `open`, body `s[start..end]`, closing fence at `end`. */
  datatype Block = Block(open: nat, start: nat, end: nat)

  /** The first index at or after `from` where `pat` occurs in `s` (the lazy `.*?` stops there). */
  function Find(s: string, pat: string, from: nat): (r: Option<nat>)
    ensures r.Some? ==> from <= r.value && OccursAt(s, pat, r.value)
    ensures r.Some? ==> forall q :: from <= q < r.value ==> !OccursAt(s, pat, q)
    ensures r.None? ==> forall q :: from <= q ==> !OccursAt(s, pat, q)
    decreases |s| - from
  {
    if from + |pat| > |s| then None
    else if OccursAt(s, pat, from) then Some(from)
    else Find(s, pat, from + 1)
  }

  /**
   * Length of the opening fence at `p`: "```python\n" is tried first (the
   * optional group is greedy), then "```\n"; 0 when neither is there.  The two
   * cannot both occur, so the backtracking of the pattern adds nothing.
   */
  function OpenerLength(s: string, p: nat): (n: nat)
    ensures n == 0 || n == |PlainOpener| || n == |PythonOpener|
  {
    if OccursAt(s, PythonOpener, p) then |PythonOpener|
    else if OccursAt(s, PlainOpener, p) then |PlainOpener|
    else 0
  }

  /**
   * The match of the pattern that starts at `p`, if any: an opening fence at
   * `p`, then the shortest body up to the next "```".
   */
  function BlockAt(s: string, p: nat): (r: Option<Block>)
    ensures r.Some? ==> r.value.open == p && r.value.start == p + OpenerLength(s, p) > p
    ensures r.Some? ==> r.value.start <= r.value.end && OccursAt(s, Fence, r.value.end)
    ensures r.Some? ==> forall q :: r.value.start <= q < r.value.end ==> !OccursAt(s, Fence, q)
    ensures r.None? <==> OpenerLength(s, p) == 0 || forall q :: p + OpenerLength(s, p) <= q ==> !OccursAt(s, Fence, q)
  {
    var n := OpenerLength(s, p);
    if n == 0 then None
    else
      match Find(s, Fence, p + n)
      case Some(e) => Some(Block(p, p + n, e))
      case None => None
  }

  /** The leftmost match at or after `p`, the first element `re.findall` would give. */
  function FirstBlockFrom(s: string, p: nat): (r: Option<Block>)
    ensures r.Some? ==> p <= r.value.open && BlockAt(s, r.value.open) == r
    ensures r.Some? ==> forall q :: p <= q < r.value.open ==> BlockAt(s, q).None?
    ensures r.None? ==> forall q :: p <= q ==> BlockAt(s, q).None?
    decreases |s| - p
  {
    if p > |s| then None
    else
      match BlockAt(s, p)
      case Some(b) => Some(b)
      case None => FirstBlockFrom(s, p + 1)
  }

  function FirstBlock(s: string): Option<Block> {
    FirstBlockFrom(s, 0)
  }

  /** A line that opens the fallback: its stripped form starts with "def ". */
  predicate IsDefLine(line: string) {
    StartsWith(Strip(line), DefPrefix)
  }

  /** Index of the first `def ` line, or `|lines|` when there is none. */
  function FirstDefIndex(lines: seq<string>): (k: nat)
    ensures k <= |lines|
    ensures forall j :: 0 <= j < k ==> !IsDefLine(lines[j])
    ensures k < |lines| ==> IsDefLine(lines[k])
  {
    if lines == [] then 0
    else if IsDefLine(lines[0]) then 0
    else 1 + FirstDefIndex(lines[1..])
  }

  /** The stripped body of a fenced block: a piece of the response without whitespace margins. */
  function BlockCode(response: string, b: Block): (code: string)
    requires b.start <= b.end <= |response|
    ensures Contains(response, code)
  {
    StrippedSliceContained(response, b.start, b.end);
    Strip(response[b.start..b.end])
  }

  /** The lines from the first `def ` line on, joined by "\n" and stripped. */
  function FallbackCode(response: string): string {
    var lines := SplitLines(response);
    Strip(JoinLines(lines[FirstDefIndex(lines)..]))
  }

  /**
   * What `extract_code` returns: the stripped body of the first fenced block;
   * otherwise the stripped "\n"-join of the lines from the first `def ` line on.
   */
  function ExtractedCode(response: string): (code: string)
    ensures FirstBlock(response).Some? ==> Contains(response, code)
  {
    match FirstBlock(response)
    case Some(b) => BlockCode(response, b)
    case None => FallbackCode(response)
  }

  /** `extract_code`: the first fenced block, else the lines from the first `def ` line on. */
  method ExtractCode(response: string) returns (code: string)
    ensures code == ExtractedCode(response)
  {
    var block := FirstBlock(response);
    if block.Some? {
      code := BlockCode(response, block.value);
    } else {
      var codeLines := CollectFromFirstDef(SplitLines(response));
      code := Strip(JoinLines(codeLines));
    }
  }

  /** The fallback loop of `extract_code`: an `in_code` flag that turns on at the first `def ` line. */
  method CollectFromFirstDef(lines: seq<string>) returns (codeLines: seq<string>)
    ensures codeLines == lines[FirstDefIndex(lines)..]
  {
    codeLines := CollectFrom(lines, FirstDefIndex(lines));
  }

  /** The loop itself, given where the first `def ` line is. */
  method CollectFrom(lines: seq<string>, ghost first: nat) returns (codeLines: seq<string>)
    requires first <= |lines|
    requires forall j :: 0 <= j < first ==> !IsDefLine(lines[j])
    requires first < |lines| ==> IsDefLine(lines[first])
    ensures codeLines == lines[first..]
  {
    codeLines := [];
    var inCode := false;
    for i := 0 to |lines|
      invariant inCode <==> first < i
      invariant codeLines == if inCode then lines[first..i] else []
    {
      if IsDefLine(lines[i]) {
        inCode := true;
      }
      if inCode {
        assert lines[first..i + 1] == lines[first..i] + [lines[i]];
        codeLines := codeLines + [lines[i]];
      }
    }
  }

  // ----- lemmas -----

  /** Either way the extracted code carries no whitespace margin. */
  lemma {:induction false} ExtractedCodeIsStripped(response: string)
    ensures var code := ExtractedCode(response);
      code == [] || (!IsSpace(code[0]) && !IsSpace(code[|code| - 1]))
  {
    var block := FirstBlock(response);
    if block.Some? {
      StripHasNoMargin(response[block.value.start..block.value.end]);
    } else {
      var lines := SplitLines(response);
      StripHasNoMargin(JoinLines(lines[FirstDefIndex(lines)..]));
    }
  }

  /** With no fenced block and no `def ` line, nothing is extracted. */
  lemma {:induction false} NoDefLineExtractsNothing(response: string)
    requires FirstBlock(response).None?
    requires forall line :: line in SplitLines(response) ==> !IsDefLine(line)
    ensures ExtractedCode(response) == []
  {
  }

  /**
   * The fallback keeps a suffix of the response's lines: it starts at a `def `
   * line and no earlier line is one.
   */
  lemma {:induction false} FallbackIsSuffixFromFirstDef(response: string)
    requires FirstBlock(response).None?
    requires exists line :: line in SplitLines(response) && IsDefLine(line)
    ensures exists k ::
      && 0 <= k < |SplitLines(response)|
      && IsDefLine(SplitLines(response)[k])
      && (forall j :: 0 <= j < k ==> !IsDefLine(SplitLines(response)[j]))
      && ExtractedCode(response) == Strip(JoinLines(SplitLines(response)[k..]))
  {
    var lines := SplitLines(response);
    var k := FirstDefIndex(lines);
    var line :| line in lines && IsDefLine(line);
    var j :| 0 <= j < |lines| && lines[j] == line;
    assert k <= j;
  }

  lemma {:induction false} StrippedSliceContained(s: string, lo: nat, hi: nat)
    requires lo <= hi <= |s|
    ensures Contains(s, Strip(s[lo..hi]))
  {
    var body := s[lo..hi];
    var code := Strip(body);
    StripSpec(body);
    OccursInSlice(s, lo, hi, code, LeadingSpace(body));
  }

  lemma {:induction false} OccursInSlice(s: string, lo: nat, hi: nat, w: string, i: nat)
    requires lo <= hi <= |s| && i + |w| <= hi - lo && s[lo..hi][i..i + |w|] == w
    ensures OccursAt(s, w, lo + i)
  {
    forall k | 0 <= k < |w|
      ensures s[lo + i..lo + i + |w|][k] == w[k]
    {
      assert w[k] == s[lo..hi][i + k];
    }
  }

  lemma {:induction false} OccursAtAppend(s: string, t: string, pat: string, q: nat)
    requires q + |pat| <= |s|
    ensures OccursAt(s + t, pat, q) == OccursAt(s, pat, q)
  {
    assert (s + t)[q..q + |pat|] == s[q..q + |pat|];
  }

  /** A fence cannot start inside an opening fence, so a later fence starts past the opener. */
  lemma {:induction false} FenceAfterOpener(u: string, q: nat, f: nat)
    requires OpenerLength(u, q) > 0 && OccursAt(u, Fence, f) && q < f
    ensures q + OpenerLength(u, q) <= f
  {
    var n := OpenerLength(u, q);
    var opener := if n == |PythonOpener| then PythonOpener else PlainOpener;
    assert u[q..q + n] == opener;
    assert forall j :: q + 3 <= j < q + n ==> u[j] == u[q..q + n][j - q] == opener[j - q];
    assert forall k :: 3 <= k < |opener| ==> opener[k] != '`';
    var fence := u[f..f + 3];
    assert fence == Fence;
    assert u[f] == fence[0] == '`' && u[f + 1] == fence[1] == '`' && u[f + 2] == fence[2] == '`';
  }

  /** Text after a complete first match does not change the match. */
  lemma {:induction false} FindAppend(s: string, t: string, from: nat)
    requires Find(s, Fence, from).Some?
    ensures Find(s + t, Fence, from) == Find(s, Fence, from)
  {
    var e := Find(s, Fence, from).value;
    OccursAtAppend(s, t, Fence, e);
    forall q | from <= q < e
      ensures !OccursAt(s + t, Fence, q)
    {
      OccursAtAppend(s, t, Fence, q);
    }
  }

  lemma {:induction false} BlockAtAppend(s: string, t: string, p: nat)
    requires BlockAt(s, p).Some?
    ensures BlockAt(s + t, p) == BlockAt(s, p)
  {
    var b := BlockAt(s, p).value;
    OpenerAppend(s, t, p, b.end);
    FindAppend(s, t, b.start);
  }

  /** An opener at `p` reads the same in `s + t` when `s` holds a fence past `p`. */
  lemma {:induction false} OpenerAppend(s: string, t: string, p: nat, f: nat)
    requires f + |Fence| <= |s| && OccursAt(s, Fence, f) && p < f
    requires OpenerLength(s, p) > 0 || OpenerLength(s + t, p) > 0
    ensures OpenerLength(s + t, p) == OpenerLength(s, p)
  {
    var u := s + t;
    OccursAtAppend(s, t, Fence, f);
    if OpenerLength(u, p) > 0 {
      FenceAfterOpener(u, p, f);
    }
    if OpenerLength(s, p) > 0 {
      FenceAfterOpener(s, p, f);
    }
    OccursAtAppend(s, t, PlainOpener, p);
    if p + |PythonOpener| <= |s| {
      OccursAtAppend(s, t, PythonOpener, p);
    }
  }

  /** No match can start before `b.open` in `s + t` when none does in `s`. */
  lemma {:induction false} NoEarlierBlockAppend(s: string, t: string, b: Block, q: nat)
    requires FirstBlock(s) == Some(b) && q < b.open
    ensures BlockAt(s + t, q).None?
  {
    var u := s + t;
    var n := OpenerLength(u, q);
    assert BlockAt(s, b.open) == Some(b) && BlockAt(s, q).None?;
    assert OccursAt(s, Fence, b.end);
    if n > 0 {
      OccursAtAppend(s, t, Fence, b.end);
      FenceAfterOpener(u, q, b.end);
      OpenerAppend(s, t, q, b.end);
      assert false;
    }
  }

  lemma {:induction false} FirstBlockFromFound(s: string, p: nat, b: Block)
    requires p <= b.open && BlockAt(s, b.open) == Some(b)
    requires forall q :: p <= q < b.open ==> BlockAt(s, q).None?
    ensures FirstBlockFrom(s, p) == Some(b)
    decreases b.open - p
  {
    if p < b.open {
      FirstBlockFromFound(s, p + 1, b);
    }
  }

  /** Later blocks are ignored: appending text after the first fenced block leaves the extraction unchanged. */
  lemma {:induction false} LaterTextIgnored(s: string, t: string)
    requires FirstBlock(s).Some?
    ensures FirstBlock(s + t) == FirstBlock(s)
    ensures ExtractedCode(s + t) == ExtractedCode(s)
  {
    var b := FirstBlock(s).value;
    BlockAtAppend(s, t, b.open);
    forall q | 0 <= q < b.open
      ensures BlockAt(s + t, q).None?
    {
      NoEarlierBlockAppend(s, t, b, q);
    }
    FirstBlockFromFound(s + t, 0, b);
    assert (s + t)[b.start..b.end] == s[b.start..b.end];
  }
}
