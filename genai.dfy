/**
 * The pure parts of the GenAI question client (src/services/genai-quiz.service.ts):
 * the default answer time for a question it fetches, and the endpoint URL
 * built from the configured base URL. The HTTP request itself is not modelled.
 */
module GenAI {
  import opened Wrappers
  import opened Quiz
  import ArithmeticGenerator
  import EquationGenerator

  /** `getDefaultMaxTimeMs`. */
  function DefaultMaxTimeMs(mode: Mode, difficulty: Difficulty): (t: int)
    ensures mode == Equation ==> t == 25000
    ensures 15000 <= t <= 25000
  {
    match mode
    case Arithmetic =>
      (match difficulty
       case Easy => 15000
       case Medium => 20000
       case Hard => 25000)
    case Equation => 25000
  }

  /**
   * A question fetched from the GenAI service gets the same time limit as a
   * locally generated question of the same mode and difficulty.
   */
  lemma DefaultsAgreeWithGenerators(difficulty: Difficulty, draws: seq<Unit>)
    ensures |draws| >= ArithmeticGenerator.DrawsNeeded(difficulty) ==>
              ArithmeticGenerator.GenerateArithmetic(difficulty, draws).maxTimeMs ==
              DefaultMaxTimeMs(Arithmetic, difficulty)
    ensures EquationGenerator.EquationFromDraws(difficulty, draws).Some? ==>
              EquationGenerator.EquationFromDraws(difficulty, draws).value.maxTimeMs ==
              DefaultMaxTimeMs(Equation, difficulty)
  {
  }

  const MissingBaseUrl: string := "GENAI_BASE_URL is not configured"
  const GeneratePath: string := "/generate"

  predicate AllSlashes(s: string)
  {
    forall i :: 0 <= i < |s| ==> s[i] == '/'
  }

  /** `base.replace(/\/+$/, "")`: the longest run of trailing slashes removed. */
  function StripTrailingSlashes(s: string): (r: string)
    ensures r <= s
    ensures AllSlashes(s[|r|..])
    ensures r == [] || r[|r| - 1] != '/'
  {
    if |s| > 0 && s[|s| - 1] == '/' then StripTrailingSlashes(s[..|s| - 1]) else s
  }

  /** A string with no trailing slash is left alone, so stripping twice is stripping once. */
  lemma StripIdempotent(s: string)
    ensures StripTrailingSlashes(StripTrailingSlashes(s)) == StripTrailingSlashes(s)
    ensures (s == [] || s[|s| - 1] != '/') ==> StripTrailingSlashes(s) == s
  {
  }

  /**
   * The split of `s` into a part not ending in `/` and a run of slashes is
   * unique, so the stripped base is the only such prefix.
   */
  lemma {:induction false} StripUnique(s: string, p: string)
    requires p <= s && AllSlashes(s[|p|..]) && (p == [] || p[|p| - 1] != '/')
    ensures StripTrailingSlashes(s) == p
  {
    if |s| > |p| {
      assert s[|s| - 1] == s[|p|..][|s| - 1 - |p|];
      assert p <= s[..|s| - 1];
      assert s[..|s| - 1][|p|..] == s[|p|..|s| - 1];
      StripUnique(s[..|s| - 1], p);
    } else {
      assert s == p;
    }
  }

  /**
   * `${base}/generate` for the configured base URL; a missing or empty base
   * URL is an error raised before any URL is built.
   */
  function GenerateUrl(baseUrl: Option<string>): (r: Result<string, string>)
    ensures r.Failure? <==> baseUrl.None? || baseUrl.value == []
    ensures r.Failure? ==> r.error == MissingBaseUrl
    ensures r.Success? ==> r.value == StripTrailingSlashes(baseUrl.value) + GeneratePath
  {
    if baseUrl.None? || baseUrl.value == [] then Failure(MissingBaseUrl)
    else Success(StripTrailingSlashes(baseUrl.value) + GeneratePath)
  }

  /**
   * Exactly one slash comes before `generate`: the URL ends in `/generate`,
   * the character before that slash (if any) is not a slash, and what comes
   * before it is the configured base up to trailing slashes.
   */
  lemma OneSlashBeforeGenerate(baseUrl: string)
    requires baseUrl != []
    ensures var url := GenerateUrl(Some(baseUrl)).value;
            var stem := url[..|url| - |GeneratePath|];
            url[|url| - |GeneratePath|..] == GeneratePath &&
            (stem == [] || stem[|stem| - 1] != '/') &&
            stem <= baseUrl && AllSlashes(baseUrl[|stem|..])
  {
    var stem := StripTrailingSlashes(baseUrl);
    var url := stem + GeneratePath;
    assert url[..|url| - |GeneratePath|] == stem;
    assert url[|url| - |GeneratePath|..] == GeneratePath;
  }
}
