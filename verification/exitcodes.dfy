/** Which exit code a failing stage leads to: the driver's own layers, the stages and the process, put together. */
module ExitCodes {
  import opened Options
  import opened Errors
  import opened Protocol
  import Decimal
  import Session
  import SshExecutor
  import Aws
  import Runner

  /** However many other layers surround it, an error is a build failure exactly when the inner error is. */
  lemma ClassificationIgnoresWrappers(layers: Error, err: Error)
    requires forall i :: 0 <= i < |layers| ==> !LinkIs(layers[i], BuildFailure)
    ensures IsBuildFailure(layers + err) <==> IsBuildFailure(err)
    ensures IsBuildFailure(err) <==> exists i :: 0 <= i < |err| && LinkIs(err[i], BuildFailure)
  {
  }

  // ----- below the stages -----

  /** The answer reports a build failure only if one of the library errors behind it is one. */
  ghost predicate Passes(r: Response, libraries: set<Error>) {
    (r.Fail? || r.RunFailed?) && IsBuildFailure(r.err) ==> exists e :: e in libraries && IsBuildFailure(e)
  }

  /** The answer of the SSH executor: it runs the script it is given on the host it is given, and reports the first failure. */
  method AnswerSsh(executor: SshExecutor.Executor, req: Request, answers: SshExecutor.Answers)
      returns (resp: Response, ghost libraries: set<Error>)
    requires req.Ssh? && executor.Valid() && Session.Completes(answers.session)
    modifies executor
    ensures executor.Valid() && Fits(req, resp) && Passes(resp, libraries) && libraries == SshExecutor.LibraryErrors(answers)
    ensures resp == Ok <==> SshExecutor.FirstError(answers) == NIL
    ensures resp.Fail? ==> Carries(resp.err, SshExecutor.FirstError(answers))
    ensures resp == Ok ==>
      var c, n, i := old(executor.clients), old(executor.sessions), |old(executor.log)|;
      && |executor.log| == i + 5
      && executor.log[i] == SshExecutor.Dialled(c, req.host + ":" + Decimal.Print(req.port), req.user, req.key)
      && executor.log[i + 2] == SshExecutor.Ran(c, n, req.script, NIL)
    ensures resp == Ok && Session.ContextDone !in answers.session ==> Session.ScriptResult(answers.session) == Some(NIL)
  {
    hide Decimal.Print;
    var err := executor.Execute(SshExecutor.Target(req.host, req.port, req.user, req.key), req.script, answers);
    libraries := SshExecutor.LibraryErrors(answers);
    resp := if err == NIL then Ok else Fail(err);
    if IsBuildFailure(err) {
      SshExecutor.NoneOfItsOwn(answers);
    }
    if Session.ContextDone !in answers.session {
      SshExecutor.SuccessMeans(answers);
    }
  }

  /** The answer of the AWS adapter to a launch; along with an error it gives no ARN. */
  method AnswerRunTask(fargate: Aws.AwsFargate, req: Request, publicKey: string, answer: Aws.RunTaskOutput)
      returns (resp: Response, ghost libraries: set<Error>)
    requires req.RunTask?
    ensures Fits(req, resp) && Passes(resp, libraries) && libraries == {answer.err}
    ensures if fargate.ecsReady && fargate.ec2Ready && answer.err == NIL then resp == Started(answer.arn)
            else resp.RunFailed? && resp.arn == ""
    ensures fargate.ecsReady && fargate.ec2Ready && resp.RunFailed? ==> Carries(resp.err, answer.err)
  {
    var arn, err, _ := fargate.RunTask(map["SSH_PUBLIC_KEY" := publicKey], answer);
    libraries := {answer.err};
    resp := if err == NIL then Started(arn) else RunFailed(arn, err);
  }

  /** The answers of the AWS adapter to the other calls. */
  method AnswerFargate(fargate: Aws.AwsFargate, req: Request, first: Error, usePublicIp: bool, second: Error, privateIp: string, publicIp: string)
      returns (resp: Response, ghost libraries: set<Error>)
    requires req.InitFargate? || req.WaitRunning? || req.StopTask? || req.GetIP?
    modifies fargate
    ensures Fits(req, resp) && Passes(resp, libraries) && libraries == {first, second}
    ensures
      var ready := old(fargate.ecsReady && fargate.ec2Ready);
      var failed := first != NIL || (req.GetIP? && usePublicIp && second != NIL);
      && (resp.Fail? <==> failed || (!ready && !req.InitFargate?))
      && (resp.Ip? ==> resp.ip == if usePublicIp then publicIp else privateIp)
    ensures req.InitFargate? && resp == Ok ==> fargate.ecsReady && fargate.ec2Ready
  {
    var err;
    libraries := {first, second};
    if req.InitFargate? {
      err := fargate.Initialize(first);
    } else if req.GetIP? {
      var address;
      address, err := fargate.GetContainerIP(usePublicIp, first, privateIp, second, publicIp);
      return if err == NIL then Ip(address) else Fail(err), libraries;
    } else {
      err := fargate.CallEcs(first);
    }
    resp := if err == NIL then Ok else Fail(err);
  }

  // ----- the stages -----

  predicate NoBuildFailure(p: Proc) {
    match p
    case PStop(_, _, err) => BuildFailure !in err
    case Done(_, err) => BuildFailure !in err
    case _ => true
  }

  /** A stage that was answered without build failures has none in its error. */
  predicate Ordinary(r: Response) {
    r.Fail? || r.RunFailed? ==> BuildFailure !in r.err
  }

  lemma CompensateNoBuildFailure(arn: Arn, cause: Cause, err: Error)
    requires BuildFailure !in err
    ensures NoBuildFailure(Compensate(arn, cause, err))
  {
  }

  lemma ResumeNoBuildFailure(cfg: Cfg, p: Proc, r: Response)
    requires Active(p) && Fits(Pending(cfg, p), r) && NoBuildFailure(p) && Ordinary(r)
    ensures NoBuildFailure(Resume(cfg, p, r))
  {
    hide Compensate;
    forall arn, cause, err {:trigger Compensate(arn, cause, err)} | BuildFailure !in err
      ensures NoBuildFailure(Compensate(arn, cause, err))
    {
      CompensateNoBuildFailure(arn, cause, err);
    }
  }

  /** What the libraries reported behind each of the calls. */
  ghost predicate Behind(es: seq<Event>, libraries: seq<set<Error>>) {
    |libraries| == |es| && forall i {:trigger es[i]} :: 0 <= i < |es| ==> Passes(es[i].resp, libraries[i])
  }

  /** No stage reports a build failure of its own making, nor does anything below it in the driver. */
  lemma {:induction false} StagesReportSystemFailures(cfg: Cfg, start: Proc, es: seq<Event>, libraries: seq<set<Error>>, p: Proc)
    requires Drive(cfg, start, es) == Some(p) && NoBuildFailure(start) && Behind(es, libraries)
    ensures !NoBuildFailure(p) ==> exists i, e :: 0 <= i < |libraries| && e in libraries[i] && IsBuildFailure(e)
    ensures p.Done? && IsBuildFailure(p.err) ==> exists i, e :: 0 <= i < |libraries| && e in libraries[i] && IsBuildFailure(e)
    decreases |es|
  {
    if es != [] && !NoBuildFailure(p) {
      var n := |es| - 1;
      var front := es[..n];
      var q := Drive(cfg, start, front).value;
      if NoBuildFailure(q) {
        if Ordinary(es[n].resp) {
          ResumeNoBuildFailure(cfg, q, es[n].resp);
        }
        assert Passes(es[n].resp, libraries[n]);
        var e :| e in libraries[n] && IsBuildFailure(e);
      } else {
        StagesReportSystemFailures(cfg, start, front, libraries[..n], q);
        var i, e :| 0 <= i < n && e in libraries[..n][i] && IsBuildFailure(e);
        assert e in libraries[i];
      }
    }
  }

  // ----- the process -----

  /**
    A process from start to end, whose variables can be read and whose hooks succeed. Unless a library reports a
    build failure, it ends with 0 when its stage succeeds and with the system failure code
    otherwise, also when it is the job's script that failed.
   */
  method ExecuteStageProcess(
      process: Runner.Process, hooks: seq<Error>,
      ghost cfg: Cfg, ghost start: Proc, ghost es: seq<Event>, ghost libraries: seq<set<Error>>, ghost stage: Stage, stageErr: Error)
      returns (outcome: Runner.Outcome)
    requires process.wordBits > 0 && process.adapter == null
    requires process.BuildCode().Some? && process.SystemCode().Some? && Runner.RunnerDataOf(process.env).Some?
    requires forall i :: 0 <= i < |hooks| ==> hooks[i] == NIL
    requires NoBuildFailure(start) && Drive(cfg, start, es) == Some(Done(stage, stageErr))
    requires Behind(es, libraries) && forall i, e :: 0 <= i < |libraries| && e in libraries[i] ==> !IsBuildFailure(e)
    modifies process
    ensures outcome == Runner.Exit(if stageErr == NIL then 0 else process.SystemCode().value)
  {
    StagesReportSystemFailures(cfg, start, es, libraries, Done(stage, stageErr));
    outcome := process.Execute(hooks, stageErr);
  }
}
