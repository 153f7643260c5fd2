/**
  What one stage process can reach: its metadata file, the cluster, and its context. Every call
  may fail, others may move in between, and the process's own file may vanish.
 */
module Outside {
  import opened Options
  import opened Errors
  import opened Protocol

  /** Around one call: the state it met, whether the context was cancelled, and the state it left. */
  datatype Around = Around(pre: Shared, cancelled: bool, post: Shared)

  class World {
    const path: Path
    const adapter: bool          // Fargate is the AWS adapter, which returns no ARN along with an error
    var files: map<Path, Bytes>
    var tasks: map<Arn, Task>
    var cancelled: bool
    ghost var log: seq<Event>
    ghost var trail: seq<Around>

    ghost function Current(): Shared
      reads this
    {
      Shared(files, tasks)
    }

    /** The contents of the process's metadata file. */
    ghost function Own(): Option<Bytes>
      reads this
    {
      OwnIn(files, path)
    }

    /** Every call in the log had a possible effect, except for a failed launch by another implementation of Fargate. */
    ghost predicate Valid()
      reads this
    {
      && |log| == |trail|
      && forall i {:trigger log[i]} :: 0 <= i < |log| ==>
           adapter || !log[i].resp.RunFailed? ==>
             Effect(trail[i].cancelled, log[i].req, log[i].resp, trail[i].pre, trail[i].post)
    }

    constructor (path: Path, adapter: bool, files: map<Path, Bytes>, tasks: map<Arn, Task>)
      ensures Valid() && this.path == path && this.adapter == adapter && this.files == files && this.tasks == tasks && !cancelled && log == []
    {
      this.path, this.adapter, this.files, this.tasks, this.cancelled := path, adapter, files, tasks, false;
      log, trail := [], [];
    }

    /** Other processes, the cluster and signals move. */
    method Disturb()
      modifies this`files, this`tasks, this`cancelled
      ensures Own() == old(Own()) || Own() == None
      ensures old(cancelled) ==> cancelled
    {
      var otherFiles: map<Path, Bytes> := *;
      var otherTasks: map<Arn, Task> := *;
      var vanishes: bool := *;
      var signal: bool := *;
      files := if path in files && !vanishes then otherFiles[path := files[path]] else otherFiles - {path};
      tasks := otherTasks;
      cancelled := cancelled || signal;
    }

    method SomeError() returns (e: Error)
      ensures e != NIL
    {
      e := *;
      if e == NIL {
        e := [Leaf(External(0))];
      }
    }

    /** One call to the outside. */
    method Call(req: Request) returns (resp: Response)
      requires Valid()
      modifies this
      ensures Valid() && Fits(req, resp) && log == old(log) + [Event(req, resp)]
      ensures |trail| == |old(trail)| + 1 && old(trail) <= trail && trail[|old(trail)|].post == Current()
      ensures adapter || !resp.RunFailed? ==> Effect(trail[|old(trail)|].cancelled, req, resp, trail[|old(trail)|].pre, Current())
      ensures OwnIn(trail[|old(trail)|].pre.files, path) in {old(Own()), None}
      ensures !req.WriteFile? && !req.Remove? ==> Own() == old(Own()) || Own() == None
    {
      hide Effect, Fits;
      Disturb();
      ghost var pre := Current();
      ghost var met := cancelled;
      resp := Respond(req);
      log := log + [Event(req, resp)];
      trail := trail + [Around(pre, met, Current())];
    }

    /** The answer, with its effect. */
    method Respond(req: Request) returns (resp: Response)
      modifies this`files, this`tasks
      ensures Fits(req, resp)
      ensures adapter || !resp.RunFailed? ==> Effect(cancelled, req, resp, old(Current()), Current())
      ensures !req.WriteFile? && !req.Remove? ==> files == old(files)
    {
      var e := SomeError();
      var succeed: bool := *;
      match req {
        case RunTask(pub) => resp := Launch(pub, succeed, e);
        case StopTask(a) => resp := Stop(a, succeed, e);
        case WriteFile(p, b) => resp := Write(p, b, succeed, e);
        case Remove(p) => resp := Unlink(p, succeed, e);
        case _ => resp := Observe(req, succeed, e);
      }
    }

    /** A call that changes nothing here. */
    method Observe(req: Request, succeed: bool, e: Error) returns (resp: Response)
      requires !req.RunTask? && !req.StopTask? && !req.WriteFile? && !req.Remove? && e != NIL
      ensures Effect(cancelled, req, resp, Current(), Current())
    {
      var pair: KeyPair := *;
      var bytes: Bytes := *;
      resp := Fail(e);
      if succeed {
        if req.InitFargate? || req.Ssh? {
          resp := Ok;
        } else if req.CreateKey? {
          resp := Key(pair);
        } else if req.ReadScript? {
          resp := Content(bytes);
        } else if req.WaitRunning? && !cancelled && req.arn in tasks && tasks[req.arn].status == Running {
          resp := Ok;
        } else if req.GetIP? && !cancelled && req.arn in tasks {
          resp := Ip(tasks[req.arn].ip);
        } else if req.Exists? {
          resp := Found(req.path in files);
        } else if req.ReadFile? && req.path in files {
          resp := Content(files[req.path]);
        }
      }
    }

    method Launch(pub: Bytes, succeed: bool, e: Error) returns (resp: Response)
      requires e != NIL
      modifies this`tasks
      ensures Fits(RunTask(pub), resp) && files == old(files)
      ensures adapter || !resp.RunFailed? ==> Effect(cancelled, RunTask(pub), resp, old(Current()), Current())
    {
      var a: Arn := *;
      var ip: string := *;
      var answered: bool := *;
      if succeed && !cancelled && a != "" && a !in tasks {
        tasks := tasks[a := Task(Provisioning, pub, ip)];
        assert Launches(old(Current()), a, pub, Current());
        resp := if answered then Started(a) else RunFailed(if adapter then "" else a, e);
      } else {
        resp := RunFailed(if adapter then "" else a, e);
      }
    }

    method Stop(a: Arn, succeed: bool, e: Error) returns (resp: Response)
      requires e != NIL
      modifies this`tasks
      ensures Effect(cancelled, StopTask(a), resp, old(Current()), Current())
    {
      var answered: bool := *;
      resp := Fail(e);
      if succeed && !cancelled && a in tasks {
        tasks := tasks[a := tasks[a].(status := Stopped)];
        if answered {
          resp := Ok;
        }
      }
    }

    method Write(p: Path, b: Bytes, succeed: bool, e: Error) returns (resp: Response)
      requires e != NIL
      modifies this`files
      ensures Effect(cancelled, WriteFile(p, b), resp, old(Current()), Current())
    {
      var begun: bool := *;
      var k: nat := *;
      resp := Fail(e);
      if succeed {
        files := files[p := b];
        resp := Ok;
      } else if begun && 0 <= k <= |b| {
        files := files[p := b[..k]];
        assert Current() == WriteIn(old(Current()), p, b[..k]);
      }
    }

    method Unlink(p: Path, succeed: bool, e: Error) returns (resp: Response)
      requires e != NIL
      modifies this`files
      ensures Effect(cancelled, Remove(p), resp, old(Current()), Current())
    {
      var answered: bool := *;
      resp := Fail(e);
      if succeed && p in files {
        files := files - {p};
        if answered {
          resp := Ok;
        }
      }
    }
  }

  function OwnIn(files: map<Path, Bytes>, path: Path): Option<Bytes> {
    if path in files then Some(files[path]) else None
  }
}
