/**
  The runner adapter: what a process reads from its environment, which metadata file
  that selects, and with which status the process ends.
 */
module Runner {
  import opened Options
  import opened Errors
  import opened Decimal
  import opened Identity

  const BUILD_FAILURE_EXIT_CODE := "BUILD_FAILURE_EXIT_CODE"
  const SYSTEM_FAILURE_EXIT_CODE := "SYSTEM_FAILURE_EXIT_CODE"
  const SHORT_TOKEN := "CUSTOM_ENV_CI_RUNNER_SHORT_TOKEN"
  const PROJECT_URL := "CUSTOM_ENV_CI_PROJECT_URL"
  const PIPELINE_ID := "CUSTOM_ENV_CI_PIPELINE_ID"
  const JOB_ID := "CUSTOM_ENV_CI_JOB_ID"
  const UNKNOWN := "unknown"

  type Environment = map<string, string>

  /** os.Getenv: an unset variable reads as empty. */
  function Get(env: Environment, variable: string): string {
    if variable in env then env[variable] else ""
  }

  function Defaulted(value: string, default: string): string {
    if value == "" then default else value
  }

  /** An ID variable: empty means zero, anything else must be a 64-bit integer. */
  function IdOf(value: string): Option<int> {
    if value == "" then Some(0) else ParseInt(value, 64)
  }

  /** The identity a process takes from its environment, if both IDs can be read. */
  function RunnerDataOf(env: Environment): Option<RunnerData> {
    var pipeline, job := IdOf(Get(env, PIPELINE_ID)), IdOf(Get(env, JOB_ID));
    if pipeline.None? || job.None? then None
    else Some(RunnerData(
        Defaulted(Get(env, SHORT_TOKEN), UNKNOWN), Defaulted(Get(env, PROJECT_URL), UNKNOWN),
        pipeline.value, job.value))
  }

  // ----- environment to file -----

  /** Canonical notation of a non-negative or negative ID, or none at all. */
  predicate PlainId(value: string) {
    value == "" || Canonical(value)
  }

  lemma IdsCompareAsText(v: string, w: string)
    requires PlainId(v) && PlainId(w) && IdOf(v).Some? && IdOf(w).Some?
    ensures IdOf(v) == IdOf(w) <==> Defaulted(v, "0") == Defaulted(w, "0")
  {
    ParsePrint(0, 64);
    assert Print(0) == "0" && InRange(0, 64);
    PrintParse(Defaulted(v, "0"), 64);
    PrintParse(Defaulted(w, "0"), 64);
  }

  /**
    Two processes use the same metadata file exactly when their tokens, project URLs,
    pipeline IDs and job IDs are equal as texts, after the defaults "unknown" and "0".
   */
  lemma EnvironmentIdentity(dir: string, hash: string -> string, e: Environment, f: Environment)
    requires RunnerDataOf(e).Some? && RunnerDataOf(f).Some?
    requires HexDigest(hash) && Separates(hash, RunnerDataOf(e).value, RunnerDataOf(f).value)
    requires '/' !in Get(e, SHORT_TOKEN) && '/' !in Get(f, SHORT_TOKEN)
    requires PlainId(Get(e, PIPELINE_ID)) && PlainId(Get(f, PIPELINE_ID)) && PlainId(Get(e, JOB_ID)) && PlainId(Get(f, JOB_ID))
    requires '-' !in Get(e, PIPELINE_ID) && '-' !in Get(f, PIPELINE_ID)
    ensures MetadataPath(dir, hash, RunnerDataOf(e).value) == MetadataPath(dir, hash, RunnerDataOf(f).value)
      <==>
      && Defaulted(Get(e, SHORT_TOKEN), UNKNOWN) == Defaulted(Get(f, SHORT_TOKEN), UNKNOWN)
      && Defaulted(Get(e, PROJECT_URL), UNKNOWN) == Defaulted(Get(f, PROJECT_URL), UNKNOWN)
      && Defaulted(Get(e, PIPELINE_ID), "0") == Defaulted(Get(f, PIPELINE_ID), "0")
      && Defaulted(Get(e, JOB_ID), "0") == Defaulted(Get(f, JOB_ID), "0")
  {
    hide MetadataPath, HexDigest, Separates, Get, IdOf, Canonical;
    var a, b := RunnerDataOf(e).value, RunnerDataOf(f).value;
    IdsCompareAsText(Get(e, PIPELINE_ID), Get(f, PIPELINE_ID));
    IdsCompareAsText(Get(e, JOB_ID), Get(f, JOB_ID));
    UnsignedIsNatural(Get(e, PIPELINE_ID));
    UnsignedIsNatural(Get(f, PIPELINE_ID));
    PathIsInjective(dir, hash, a, b);
  }

  lemma UnsignedIsNatural(v: string)
    requires IdOf(v).Some? && '-' !in v
    ensures IdOf(v).value >= 0
  {
  }

  /** A decimal number with an optional sign and any number of leading zeros. */
  predicate IsDecimal(value: string, sign: string, digits: string) {
    value == sign + digits && sign in {"", "-", "+"} && digits != [] && AllDigits(digits)
  }

  function Signed(sign: string, digits: string): int
    requires AllDigits(digits)
  {
    var magnitude: int := Value(digits);
    if sign == "-" then -magnitude else magnitude
  }

  /** An ID written in decimal is accepted exactly when it fits 64 bits, however it is written. */
  lemma DecimalIds(value: string, sign: string, digits: string)
    requires IsDecimal(value, sign, digits)
    ensures var n := Signed(sign, digits);
      IdOf(value) == if -0x8000_0000_0000_0000 <= n <= 0x7fff_ffff_ffff_ffff then Some(n) else None
  {
    WordSizes();
    hide Pow2, InRange, Value;
    assert value[|sign|..] == digits;
    assert sign == "" ==> value[0] == digits[0];
    assert sign != "" ==> value[0] == sign[0];
  }

  /** Nothing is accepted but decimal numbers and the empty text. */
  lemma OnlyDecimalIds(value: string) returns (sign: string, digits: string)
    requires value != "" && IdOf(value).Some?
    ensures IsDecimal(value, sign, digits)
  {
    var signed := value[0] == '-' || value[0] == '+';
    sign, digits := if signed then [value[0]] else "", if signed then value[1..] else value;
    assert value == sign + digits;
    assert sign in {"", "-", "+"};
  }

  /** A number that is set in the environment is read as that number, exactly when it fits; an ID that is not set is zero. */
  lemma EnvironmentIsRead(env: Environment, variable: string, n: int, bits: nat)
    requires bits > 0
    ensures variable in env && env[variable] == Print(n) ==>
      ParseInt(Get(env, variable), bits) == if InRange(n, bits) then Some(n) else None
    ensures variable in env && env[variable] == Print(n) && InRange(n, 64) ==> IdOf(Get(env, variable)) == Some(n)
    ensures variable !in env ==> ParseInt(Get(env, variable), bits) == None && IdOf(Get(env, variable)) == Some(0)
  {
    hide InRange;
    ParsePrint(n, bits);
    ParsePrint(n, 64);
    PrintIsCanonical(n);
  }

  /** An ID that does not fit 64 bits is rejected, with or without a sign and leading zeros. */
  lemma OverflowIsRejected(env: Environment, variable: string, sign: string, digits: string)
    requires variable in {PIPELINE_ID, JOB_ID} && IsDecimal(Get(env, variable), sign, digits)
    requires !(-0x8000_0000_0000_0000 <= Signed(sign, digits) <= 0x7fff_ffff_ffff_ffff)
    ensures RunnerDataOf(env) == None
  {
    DecimalIds(Get(env, variable), sign, digits);
  }

  // ----- the adapter -----

  class Adapter {
    var buildFailureExitCode: int
    var systemFailureExitCode: int
    var shortToken: string
    var projectUrl: string
    var pipelineId: int
    var jobId: int

    constructor ()
      ensures buildFailureExitCode == 0 && systemFailureExitCode == 0
      ensures shortToken == "" && projectUrl == "" && pipelineId == 0 && jobId == 0
    {
      buildFailureExitCode, systemFailureExitCode, shortToken, projectUrl, pipelineId, jobId := 0, 0, "", "", 0, 0;
    }

    /** The status the process is told to exit with. */
    method GenerateExitFromError(err: Error) returns (exitCode: int)
      ensures exitCode == if IsBuildFailure(err) then buildFailureExitCode else systemFailureExitCode
    {
      exitCode := systemFailureExitCode;
      var found := Is(err, BuildFailure);
      if found {
        exitCode := buildFailureExitCode;
      }
    }
  }

  method GetExitCodeFromVariable(env: Environment, variable: string, wordBits: nat) returns (exitCode: int, err: Error)
    requires wordBits > 0
    ensures err == NIL <==> ParseInt(Get(env, variable), wordBits).Some?
    ensures exitCode == if err == NIL then ParseInt(Get(env, variable), wordBits).value else -1
    ensures !IsBuildFailure(err)
  {
    match ParseInt(Get(env, variable), wordBits)
    case None => return -1, Wrap(ParsingExitCode, [Leaf(NotParsable)]);
    case Some(n) => return n, NIL;
  }

  method GetVariableInt64Value(env: Environment, variable: string) returns (n: int, err: Error)
    ensures err == NIL <==> IdOf(Get(env, variable)).Some?
    ensures n == if err == NIL then IdOf(Get(env, variable)).value else -1
    ensures !IsBuildFailure(err)
  {
    var value := Get(env, variable);
    if value == "" {
      return 0, NIL;
    }
    match ParseInt(value, 64)
    case None => return -1, Wrap(ParsingInt64, [Leaf(NotParsable)]);
    case Some(m) => return m, NIL;
  }

  datatype Outcome = Exit(code: int) | Panic

  /** One process of the driver, with the global adapter of package runner. */
  class Process {
    const env: Environment
    const wordBits: nat          // the width of Go's int: 32 or 64
    var adapter: Adapter?

    constructor (env: Environment, wordBits: nat)
      requires wordBits > 0
      ensures this.env == env && this.wordBits == wordBits && adapter == null
    {
      this.env, this.wordBits, this.adapter := env, wordBits, null;
    }

    function BuildCode(): Option<int>
      requires wordBits > 0
    {
      ParseInt(Get(env, BUILD_FAILURE_EXIT_CODE), wordBits)
    }

    function SystemCode(): Option<int>
      requires wordBits > 0
    {
      ParseInt(Get(env, SYSTEM_FAILURE_EXIT_CODE), wordBits)
    }

    /**
      Fills a new adapter, variable by variable, up to the first one that cannot be read;
      the field of that one becomes -1, those after it stay zero.
     */
    method InitAdapter() returns (err: Error)
      requires wordBits > 0
      modifies this
      ensures adapter != null && fresh(adapter) && !IsBuildFailure(err)
      ensures err == NIL <==> BuildCode().Some? && SystemCode().Some? && RunnerDataOf(env).Some?
      ensures err == NIL ==>
        RunnerData(adapter.shortToken, adapter.projectUrl, adapter.pipelineId, adapter.jobId) == RunnerDataOf(env).value
      ensures
        var build := ParseInt(Get(env, "BUILD_FAILURE_EXIT_CODE"), wordBits);
        var system := ParseInt(Get(env, "SYSTEM_FAILURE_EXIT_CODE"), wordBits);
        && build == BuildCode() && system == SystemCode()
        && adapter.buildFailureExitCode == (if build.Some? then build.value else -1)
        && adapter.systemFailureExitCode == (if build.None? then 0 else if system.Some? then system.value else -1)
      ensures
        var read := BuildCode().Some? && SystemCode().Some?;
        var token, url := Get(env, "CUSTOM_ENV_CI_RUNNER_SHORT_TOKEN"), Get(env, "CUSTOM_ENV_CI_PROJECT_URL");
        var pipeline, job := IdOf(Get(env, "CUSTOM_ENV_CI_PIPELINE_ID")), IdOf(Get(env, "CUSTOM_ENV_CI_JOB_ID"));
        && adapter.shortToken == (if !read then "" else if token == "" then "unknown" else token)
        && adapter.projectUrl == (if !read then "" else if url == "" then "unknown" else url)
        && adapter.pipelineId == (if !read then 0 else if pipeline.Some? then pipeline.value else -1)
        && adapter.jobId == (if !read || pipeline.None? then 0 else if job.Some? then job.value else -1)
    {
      hide Get, IdOf, ParseInt, IsBuildFailure;
      adapter := new Adapter();

      adapter.buildFailureExitCode, err := GetExitCodeFromVariable(env, BUILD_FAILURE_EXIT_CODE, wordBits);
      if err != NIL {
        return;
      }

      adapter.systemFailureExitCode, err := GetExitCodeFromVariable(env, SYSTEM_FAILURE_EXIT_CODE, wordBits);
      if err != NIL {
        return;
      }

      adapter.shortToken := Defaulted(Get(env, SHORT_TOKEN), UNKNOWN);
      adapter.projectUrl := Defaulted(Get(env, PROJECT_URL), UNKNOWN);

      adapter.pipelineId, err := GetVariableInt64Value(env, PIPELINE_ID);
      if err != NIL {
        return;
      }

      adapter.jobId, err := GetVariableInt64Value(env, JOB_ID);
    }

    /** Hooks run in order until one fails; `ran` of them did. */
    method ExecuteHooks(hooks: seq<Error>) returns (err: Error, ran: nat)
      ensures ran <= |hooks| && forall i :: 0 <= i < ran - 1 ==> hooks[i] == NIL
      ensures err == NIL <==> forall i :: 0 <= i < |hooks| ==> hooks[i] == NIL
      ensures err == NIL ==> ran == |hooks|
      ensures err != NIL ==> ran > 0 && hooks[ran - 1] != NIL && err == Wrap(HookFailure, hooks[ran - 1])
    {
      ran := 0;
      while ran < |hooks|
        invariant ran <= |hooks| && forall i :: 0 <= i < ran ==> hooks[i] == NIL
      {
        var outcome := hooks[ran];
        ran := ran + 1;
        if outcome != NIL {
          return Wrap(HookFailure, outcome), ran;
        }
      }
      return NIL, ran;
    }

    /** `custom <stage>`: initialise the adapter, then execute the stage, which ends with `stageErr`. */
    method ExecuteStage(stageErr: Error) returns (err: Error)
      requires wordBits > 0
      modifies this
      ensures adapter != null && fresh(adapter)
      ensures var ready := BuildCode().Some? && SystemCode().Some? && RunnerDataOf(env).Some?;
        && (ready ==> err == stageErr)
        && (!ready ==> err != NIL && !IsBuildFailure(err))
      ensures adapter.buildFailureExitCode == if BuildCode().Some? then BuildCode().value else -1
      ensures adapter.systemFailureExitCode
        == if BuildCode().None? then 0 else if SystemCode().Some? then SystemCode().value else -1
    {
      var initErr := InitAdapter();
      if initErr != NIL {
        return Wrap(InitializingAdapter, initErr);
      }
      return stageErr;
    }

    /**
      The process from start to end, for the outcomes of its hooks and of its stage. It panics exactly
      when a hook fails. Otherwise a failure before the system failure code was read ends
      with 0 or -1, and every other failure with a configured code.
     */
    method Execute(hooks: seq<Error>, stageErr: Error) returns (outcome: Outcome)
      requires wordBits > 0 && adapter == null
      modifies this
      ensures outcome == Panic <==> exists i :: 0 <= i < |hooks| && hooks[i] != NIL
      ensures outcome.Exit? && BuildCode().None? ==> outcome == Exit(0)
      ensures outcome.Exit? && BuildCode().Some? && SystemCode().None? ==> outcome == Exit(-1)
      ensures outcome.Exit? && BuildCode().Some? && SystemCode().Some? && RunnerDataOf(env).None? ==>
        outcome == Exit(SystemCode().value)
      ensures outcome.Exit? && BuildCode().Some? && SystemCode().Some? && RunnerDataOf(env).Some? ==>
        outcome == Exit(
          if stageErr == NIL then 0
          else if IsBuildFailure(stageErr) then BuildCode().value
          else SystemCode().value)
    {
      var err, _ := ExecuteHooks(hooks);
      if err == NIL {
        err := ExecuteStage(stageErr);
      }
      if err == NIL {
        return Exit(0);
      }
      if adapter == null {
        return Panic;
      }
      var code := adapter.GenerateExitFromError(err);
      return Exit(code);
    }
  }
}
