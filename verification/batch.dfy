/**
 * Batch expansion in `imagine_cmd`: N prompt texts and R repeats become an
 * ordered list of jobs, outer loop over repeats, inner loop over the prompt
 * texts in the order given, every job sharing one parameter set.
 */
module Batch {
  import opened Wrappers
  import opened Images

  /**
   * Everything an `ImaginePrompt` receives apart from its text. The float
   * options are carried as `real` and never computed with.
   */
  datatype JobParams = JobParams(
    promptStrength: real,
    initImage: Option<ImageRef>,
    initImageStrength: real,
    seed: Option<int>,
    samplerType: string,
    steps: int,
    height: int,
    width: int,
    maskImage: Option<string>,
    maskPrompt: Option<string>,
    maskExpansion: int,
    maskMode: string,
    upscale: bool,
    fixFaces: bool)

  /** One generation job: `ImaginePrompt(prompt_text, **shared)`. */
  datatype PromptSpec = PromptSpec(promptText: string, params: JobParams)

  /** The number of iterations of `for _ in range(repeats)`. */
  function RepeatCount(repeats: int): nat {
    if repeats <= 0 then 0 else repeats
  }

  /** One pass of the inner loop: a job per prompt text, in the order given. */
  function Round(texts: seq<string>, params: JobParams): seq<PromptSpec> {
    seq(|texts|, j requires 0 <= j < |texts| => PromptSpec(texts[j], params))
  }

  /** The whole nest: `repeats` rounds, one after the other. */
  function Expand(texts: seq<string>, repeats: int, params: JobParams): (r: seq<PromptSpec>)
    ensures |r| == |texts| * RepeatCount(repeats)
    ensures forall k :: 0 <= k < |r| ==> r[k].params == params
    decreases RepeatCount(repeats)
  {
    if repeats <= 0 then []
    else Expand(texts, repeats - 1, params) + Round(texts, params)
  }

  /** A multiple of `n` strictly between `-n` and `n` is zero. */
  lemma SmallMultipleIsZero(x: int, n: nat)
    requires -(n as int) < x * n < n
    ensures x == 0
  {
  }

  /** `(q * n + j) % n == j`, the arithmetic behind the indexing lemma. */
  lemma ModOfRoundPosition(q: nat, n: nat, j: nat)
    requires j < n
    ensures (q * n + j) % n == j
    ensures (q * n + j) / n == q
  {
    var a := q * n + j;
    var d, m := a / n, a % n;
    assert a == d * n + m && 0 <= m < n;
    assert (d - q) * n == j - m;
    SmallMultipleIsZero(d - q, n);
  }

  /**
   * Job `k` of the batch carries prompt text `texts[k % N]`: the prompt order
   * cycles once per repeat.
   */
  lemma {:induction false} ExpandAt(texts: seq<string>, repeats: int, params: JobParams, k: int)
    requires 0 <= k < |Expand(texts, repeats, params)|
    ensures |texts| > 0
    ensures Expand(texts, repeats, params)[k] == PromptSpec(texts[k % |texts|], params)
    decreases RepeatCount(repeats)
  {
    var n := |texts|;
    var prev := Expand(texts, repeats - 1, params);
    assert |prev| == n * (repeats - 1);
    if k < |prev| {
      ExpandAt(texts, repeats - 1, params, k);
    } else {
      ModOfRoundPosition(repeats - 1, n, k - |prev|);
    }
  }

  /**
   * Job `q * N + j` is prompt `j` of repeat `q`, for every repeat `q` and
   * every prompt position `j`.
   */
  lemma ExpandPosition(texts: seq<string>, repeats: int, params: JobParams, q: nat, j: nat)
    requires q < repeats && j < |texts|
    ensures q * |texts| + j < |Expand(texts, repeats, params)|
    ensures Expand(texts, repeats, params)[q * |texts| + j] == PromptSpec(texts[j], params)
  {
  }

  /** With at least one repeat, the first N jobs are the prompts in the order given. */
  lemma {:induction false} ExpandFirstRound(texts: seq<string>, repeats: int, params: JobParams)
    requires repeats >= 1
    ensures Expand(texts, repeats, params)[..|texts|] == Round(texts, params)
    decreases RepeatCount(repeats)
  {
    if repeats > 1 {
      ExpandFirstRound(texts, repeats - 1, params);
      var prev := Expand(texts, repeats - 1, params);
      assert |prev| >= |texts|;
      assert (prev + Round(texts, params))[..|texts|] == prev[..|texts|];
    } else {
      assert Expand(texts, repeats - 1, params) == [];
    }
  }

  /** An empty prompt list or a non-positive repeat count gives an empty batch. */
  lemma ExpandEmpty(texts: seq<string>, repeats: int, params: JobParams)
    ensures Expand(texts, repeats, params) == [] <==> texts == [] || repeats <= 0
  {
  }

  /** The `--repeats` help text: two prompts repeated three times make six jobs, alternating. */
  lemma ExpandHelpExample(params: JobParams)
    ensures var cat, dog := PromptSpec("a cat", params), PromptSpec("a dog", params);
      Expand(["a cat", "a dog"], 3, params) == [cat, dog, cat, dog, cat, dog]
  {
  }

  /**
   * The nested loop of `imagine_cmd`, appending one job at a time; it builds
   * exactly the batch `Expand` describes.
   */
  method BuildPrompts(texts: seq<string>, repeats: int, params: JobParams) returns (prompts: seq<PromptSpec>)
    ensures prompts == Expand(texts, repeats, params)
    ensures |prompts| == |texts| * RepeatCount(repeats)
  {
    prompts := [];
    var q := 0;
    while q < repeats
      invariant 0 <= q <= RepeatCount(repeats)
      invariant prompts == Expand(texts, q, params)
    {
      var j := 0;
      while j < |texts|
        invariant 0 <= j <= |texts|
        invariant prompts == Expand(texts, q, params) + Round(texts[..j], params)
      {
        assert Round(texts[..j + 1], params) == Round(texts[..j], params) + [PromptSpec(texts[j], params)];
        prompts := prompts + [PromptSpec(texts[j], params)];
        j := j + 1;
      }
      assert texts[..j] == texts;
      q := q + 1;
    }
  }
}
