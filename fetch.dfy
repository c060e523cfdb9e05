/** The existence-skipping download primitive over an abstract filesystem, and the
    fail-fast execution of a sequence of download steps. */
module Fetching {
  import opened Types
  import opened Errors
  import Layout

  /** What an HTTP GET of a URL yields once its body is read: the body (whatever the
      status code) or a transport failure. */
  datatype Response = Body(data: seq<byte>) | TransportError

  /** What creating a file and writing a body to it does: creation fails (nothing
      changes), the write fails after `written` bytes, or the whole body is written. */
  datatype WriteResult = CreateFails | WriteFails(written: nat) | Written

  /** The outside world as seen by a download: the network and the operating system's
      answers for directory creation and file creation. */
  datatype Env = Env(
    remote: string -> Response,
    mkdirOk: string -> bool,
    create: string -> WriteResult)

  type Files = map<string, seq<byte>>

  /** The effect of a stage: its status, the files afterwards, the URLs it requested. */
  datatype Effect = Effect(status: Status, files: Files, requests: seq<string>)

  function Prefix(data: seq<byte>, n: nat): seq<byte>
  {
    data[..if n < |data| then n else |data|]
  }

  /** Creating (or truncating) the file at `path` and writing `data` to it. */
  function WriteFile(files: Files, path: string, data: seq<byte>, env: Env): (r: (Status, Files))
    ensures r.0.Done? <==> env.create(path).Written?
    ensures r.0.Done? ==> r.1 == files[path := data]
    ensures env.create(path).CreateFails? ==> r.1 == files
    ensures r.1.Keys <= files.Keys + {path}
    ensures forall q :: q in files && q != path ==> q in r.1 && r.1[q] == files[q]
  {
    match env.create(path)
    case CreateFails => (Failed(FilesystemError(path)), files)
    case WriteFails(n) => (Failed(FilesystemError(path)), files[path := Prefix(data, n)])
    case Written => (Done, files[path := data])
  }

  /** The body a URL yields (empty when the request fails). */
  function Fetched(env: Env, url: string): seq<byte>
  {
    match env.remote(url)
    case Body(data) => data
    case TransportError => []
  }

  /** Nothing to do for this download: no URL, or the file is already there. */
  predicate Skipped(files: Files, url: string, path: string)
  {
    url == "" || path in files
  }

  /** The download of `url` to `path` goes through when it is attempted. */
  predicate Completes(env: Env, url: string, path: string)
  {
    env.mkdirOk(Layout.ParentDir(path)) && env.remote(url).Body? && env.create(path).Written?
  }

  /** One download. */
  function DownloadEffect(files: Files, url: string, path: string, env: Env): (e: Effect)
    ensures Skipped(files, url, path) ==> e == Effect(Done, files, [])
    ensures e.status.Done? <==> Skipped(files, url, path) || Completes(env, url, path)
    ensures !Skipped(files, url, path) && e.status.Done? ==> e.files == files[path := Fetched(env, url)]
    ensures forall q :: q in files ==> q in e.files && e.files[q] == files[q]
    ensures e.files.Keys <= files.Keys + {path}
    ensures e.requests == if Skipped(files, url, path) || !env.mkdirOk(Layout.ParentDir(path)) then [] else [url]
  {
    if Skipped(files, url, path) then Effect(Done, files, [])
    else
      var folder := Layout.ParentDir(path);
      if !env.mkdirOk(folder) then Effect(Failed(FilesystemError(folder)), files, [])
      else match env.remote(url)
        case TransportError => Effect(Failed(FetchError(url)), files, [url])
        case Body(data) =>
          var (status, files') := WriteFile(files, path, data, env);
          Effect(status, files', [url])
  }

  /** A second identical download finds the file the first one left and does nothing,
      whatever the first one's outcome. */
  lemma DownloadIdempotent(files: Files, url: string, path: string, env: Env)
    ensures var e := DownloadEffect(files, url, path, env);
      (e.status.Done? || e.files != files) ==>
      DownloadEffect(e.files, url, path, env) == Effect(Done, e.files, [])
  {
    var e := DownloadEffect(files, url, path, env);
    if !Skipped(files, url, path) && (e.status.Done? || e.files != files) {
      assert path in e.files;
    }
  }

  /** A write that fails part-way leaves a file that every later download of the same
      path treats as complete: the truncated body is kept. */
  lemma TruncatedFileIsKept(files: Files, url: string, path: string, env: Env, n: nat)
    requires url != "" && path !in files
    requires env.mkdirOk(Layout.ParentDir(path)) && env.remote(url).Body?
    requires env.create(path) == WriteFails(n) && n < |env.remote(url).data|
    ensures var e := DownloadEffect(files, url, path, env);
      e.status.Failed? && e.files[path] == env.remote(url).data[..n] && e.files[path] != env.remote(url).data &&
      DownloadEffect(e.files, url, path, env) == Effect(Done, e.files, [])
  {
  }

  /** The filesystem a download acts on; the only state the launcher changes. */
  class FileSystem {
    var files: Files

    constructor (initial: Files)
      ensures files == initial
    {
      files := initial;
    }

    /** Downloads `url` to `fullPath` unless there is no URL or the file exists. */
    method Download(url: string, fullPath: string, env: Env) returns (status: Status)
      modifies this
      ensures var e := DownloadEffect(old(files), url, fullPath, env);
        status == e.status && files == e.files
    {
      if url == "" || fullPath in files {
        return Done;
      }
      var folder := Layout.ParentDir(fullPath);
      if !env.mkdirOk(folder) {
        return Failed(FilesystemError(folder));
      }
      var response := env.remote(url);
      if response.TransportError? {
        return Failed(FetchError(url));
      }
      match env.create(fullPath)
      case CreateFails =>
        return Failed(FilesystemError(fullPath));
      case WriteFails(n) =>
        files := files[fullPath := Prefix(response.data, n)];
        return Failed(FilesystemError(fullPath));
      case Written =>
        files := files[fullPath := response.data];
        return Done;
    }
  }

  /** One step of a stage's plan: a download, or the error the stage stops with there. */
  datatype Step = Fetch(url: string, path: string) | Abort(error: Error)

  /** The paths a plan downloads to, in order. */
  function Paths(steps: seq<Step>): (r: seq<string>)
    ensures |r| <= |steps|
  {
    if steps == [] then []
    else (if steps[0].Fetch? then [steps[0].path] else []) + Paths(steps[1..])
  }

  /** For a plan of downloads only, the paths are the steps' paths, position by position. */
  lemma {:induction false} PathsOfDownloads(steps: seq<Step>)
    requires forall i :: 0 <= i < |steps| ==> steps[i].Fetch?
    ensures |Paths(steps)| == |steps|
    ensures forall i :: 0 <= i < |steps| ==> Paths(steps)[i] == steps[i].path
  {
    if steps != [] {
      PathsOfDownloads(steps[1..]);
    }
  }

  /** The plan carried out step by step, stopping at the first failure. */
  function Run(files: Files, steps: seq<Step>, env: Env): (e: Effect)
    decreases |steps|
    ensures forall q :: q in files ==> q in e.files && e.files[q] == files[q]
    ensures forall q :: q in e.files ==> q in files || q in Paths(steps)
  {
    if steps == [] then Effect(Done, files, [])
    else match steps[0]
      case Abort(err) => Effect(Failed(err), files, [])
      case Fetch(url, path) =>
        var first := DownloadEffect(files, url, path, env);
        if first.status.Failed? then first
        else
          var rest := Run(first.files, steps[1..], env);
          Effect(rest.status, rest.files, first.requests + rest.requests)
  }

  /** A one-step plan is that step. */
  lemma RunSingle(files: Files, s: Step, env: Env)
    ensures Run(files, [s], env).status ==
      (if s.Abort? then Failed(s.error) else DownloadEffect(files, s.url, s.path, env).status)
    ensures Run(files, [s], env).files ==
      (if s.Abort? then files else DownloadEffect(files, s.url, s.path, env).files)
  {
    assert [s][1..] == [];
  }

  /** Running two plans one after the other: the second runs only if the first succeeded. */
  function Then(first: Effect, second: Effect): Effect
  {
    if first.status.Failed? then first
    else Effect(second.status, second.files, first.requests + second.requests)
  }

  lemma {:induction false} PathsAppend(a: seq<Step>, b: seq<Step>)
    ensures Paths(a + b) == Paths(a) + Paths(b)
  {
    if a == [] {
      assert a + b == b;
    } else {
      assert (a + b)[0] == a[0];
      assert (a + b)[1..] == a[1..] + b;
      PathsAppend(a[1..], b);
    }
  }

  /** Fail-fast: a plan followed by another behaves as the first and then, only if
      that one succeeded, the second from where the first left the filesystem. */
  lemma {:induction false} RunAppend(files: Files, a: seq<Step>, b: seq<Step>, env: Env)
    decreases |a|
    ensures Run(files, a + b, env) == Then(Run(files, a, env), Run(Run(files, a, env).files, b, env))
  {
    if a == [] {
      assert a + b == b;
    } else {
      assert (a + b)[0] == a[0];
      assert (a + b)[1..] == a[1..] + b;
      match a[0]
      case Abort(err) =>
      case Fetch(url, path) =>
        var first := DownloadEffect(files, url, path, env);
        if first.status.Done? {
          RunAppend(first.files, a[1..], b, env);
          var ra := Run(first.files, a[1..], env);
          var rb := Run(ra.files, b, env);
          if ra.status.Done? {
            assert first.requests + (ra.requests + rb.requests) == (first.requests + ra.requests) + rb.requests;
          }
        }
    }
  }

  /** The first error stops the plan: after a failed prefix, nothing more is
      requested and no file changes. */
  lemma FailFast(files: Files, a: seq<Step>, b: seq<Step>, env: Env)
    requires Run(files, a, env).status.Failed?
    ensures Run(files, a + b, env) == Run(files, a, env)
  {
    RunAppend(files, a, b, env);
  }

  /** A plan with an abort in it never succeeds. */
  lemma {:induction false} AbortFails(files: Files, steps: seq<Step>, env: Env, i: nat)
    requires i < |steps| && steps[i].Abort?
    decreases |steps|
    ensures Run(files, steps, env).status.Failed?
  {
    if i > 0 && steps[0].Fetch? {
      var first := DownloadEffect(files, steps[0].url, steps[0].path, env);
      if first.status.Done? {
        AbortFails(first.files, steps[1..], env, i - 1);
      }
    }
  }

  /** A successful plan had no aborts and left a file at every path it had a URL for. */
  lemma {:induction false} SuccessMaterializes(files: Files, steps: seq<Step>, env: Env)
    decreases |steps|
    requires Run(files, steps, env).status.Done?
    ensures forall i :: 0 <= i < |steps| ==> steps[i].Fetch?
    ensures forall i :: 0 <= i < |steps| && steps[i].url != "" ==> steps[i].path in Run(files, steps, env).files
  {
    if steps != [] {
      var first := DownloadEffect(files, steps[0].url, steps[0].path, env);
      SuccessMaterializes(first.files, steps[1..], env);
      forall i | 0 <= i < |steps|
        ensures steps[i].Fetch?
        ensures steps[i].url != "" ==> steps[i].path in Run(files, steps, env).files
      {
        if i > 0 {
          assert steps[i] == steps[1..][i - 1];
        }
      }
    }
  }

  /** A plan whose every target is already present does nothing and requests nothing. */
  lemma {:induction false} RunAllPresent(files: Files, steps: seq<Step>, env: Env)
    decreases |steps|
    requires forall i :: 0 <= i < |steps| ==> steps[i].Fetch? && Skipped(files, steps[i].url, steps[i].path)
    ensures Run(files, steps, env) == Effect(Done, files, [])
  {
    if steps != [] {
      RunAllPresent(files, steps[1..], env);
    }
  }

  /** Idempotence: running a plan again on what a successful run left changes nothing
      and performs no network request. */
  lemma RunIdempotent(files: Files, steps: seq<Step>, env: Env)
    requires Run(files, steps, env).status.Done?
    ensures var after := Run(files, steps, env).files;
      Run(after, steps, env) == Effect(Done, after, [])
  {
    SuccessMaterializes(files, steps, env);
    RunAllPresent(Run(files, steps, env).files, steps, env);
  }

  /** A plan that succeeded has nothing left to do on any filesystem that still has the
      files it left: every step is skipped, nothing changes and nothing is requested. */
  lemma RerunLater(files: Files, steps: seq<Step>, env: Env, later: Files)
    requires Run(files, steps, env).status.Done?
    requires forall q :: q in Run(files, steps, env).files ==> q in later
    ensures Run(later, steps, env) == Effect(Done, later, [])
  {
    SuccessMaterializes(files, steps, env);
    RunAllPresent(later, steps, env);
  }

  /** Downloads with the same destination have the same source. */
  predicate Coherent(steps: seq<Step>)
  {
    forall i, j :: 0 <= i < |steps| && 0 <= j < |steps| && steps[i].Fetch? && steps[j].Fetch? &&
      steps[i].path == steps[j].path
      ==> steps[i].url == steps[j].url
  }

  /** Downloads with the same source have the same destination. */
  predicate SourceKeyed(steps: seq<Step>)
  {
    forall i, j :: 0 <= i < |steps| && 0 <= j < |steps| && steps[i].Fetch? && steps[j].Fetch? &&
      steps[i].url == steps[j].url
      ==> steps[i].path == steps[j].path
  }

  /** A step that cannot make its plan fail, judged against the files at the start. */
  predicate StepOk(files: Files, s: Step, env: Env)
  {
    s.Fetch? && (Skipped(files, s.url, s.path) || Completes(env, s.url, s.path))
  }

  /** For a coherent plan, success is decided step by step against the initial files,
      so it does not depend on the order of the steps. */
  lemma {:induction false} RunSucceedsIff(files: Files, steps: seq<Step>, env: Env)
    decreases |steps|
    requires Coherent(steps)
    ensures Run(files, steps, env).status.Done? <==> forall s :: s in steps ==> StepOk(files, s, env)
  {
    if steps != [] {
      var s := steps[0];
      var rest := steps[1..];
      assert Coherent(rest) by {
        forall i, j | 0 <= i < |rest| && 0 <= j < |rest| && rest[i].Fetch? && rest[j].Fetch? && rest[i].path == rest[j].path
          ensures rest[i].url == rest[j].url
        {
          assert rest[i] == steps[i + 1] && rest[j] == steps[j + 1];
        }
      }
      assert forall t :: t in rest ==> t in steps;
      assert s in steps;
      if s.Fetch? {
        var first := DownloadEffect(files, s.url, s.path, env);
        if first.status.Done? {
          RunSucceedsIff(first.files, rest, env);
          forall t | t in rest
            ensures StepOk(first.files, t, env) <==> StepOk(files, t, env)
          {
            if first.files != files && t.Fetch? && t.path == s.path {
              var j :| 0 <= j < |rest| && rest[j] == t;
              assert steps[j + 1] == t && steps[0] == s;
            }
          }
        }
      }
    }
  }

  /** What a successful coherent plan leaves: every old file unchanged, every new file
      at a path the plan downloads to, holding the body of that path's source. */
  lemma {:induction false} RunSuccessFiles(files: Files, steps: seq<Step>, env: Env)
    decreases |steps|
    requires Coherent(steps)
    requires Run(files, steps, env).status.Done?
    ensures var after := Run(files, steps, env).files;
      forall q :: q in after && q !in files ==>
        exists s :: s in steps && s.Fetch? && s.url != "" && s.path == q && after[q] == Fetched(env, s.url)
    ensures var after := Run(files, steps, env).files;
      forall s :: s in steps && s.Fetch? && s.url != "" && s.path !in files ==>
        s.path in after && after[s.path] == Fetched(env, s.url)
  {
    if steps != [] {
      var s := steps[0];
      var rest := steps[1..];
      assert Coherent(rest) by {
        forall i, j | 0 <= i < |rest| && 0 <= j < |rest| && rest[i].Fetch? && rest[j].Fetch? && rest[i].path == rest[j].path
          ensures rest[i].url == rest[j].url
        {
          assert rest[i] == steps[i + 1] && rest[j] == steps[j + 1];
        }
      }
      var first := DownloadEffect(files, s.url, s.path, env);
      RunSuccessFiles(first.files, rest, env);
      var after := Run(files, steps, env).files;
      assert after == Run(first.files, rest, env).files;
      forall q | q in after && q !in files
        ensures exists t :: t in steps && t.Fetch? && t.url != "" && t.path == q && after[q] == Fetched(env, t.url)
      {
        if q in first.files {
          assert q == s.path && after[q] == first.files[q];
          assert s in steps;
        } else {
          var t :| t in rest && t.Fetch? && t.url != "" && t.path == q && after[q] == Fetched(env, t.url);
          assert t in steps;
        }
      }
      forall t | t in steps && t.Fetch? && t.url != "" && t.path !in files
        ensures t.path in after && after[t.path] == Fetched(env, t.url)
      {
        var j :| 0 <= j < |steps| && steps[j] == t;
        if t.path in first.files {
          assert s.Fetch? && t.path == s.path;
          assert t.url == s.url by { assert steps[0] == s; }
        } else {
          assert j != 0;
          assert rest[j - 1] == t;
        }
      }
    }
  }

  /** Two runs that keep the same old files, and whose new files each come from a step
      the other run delivered too, leave the same files. */
  lemma SameNewFiles(files: Files, fa: Files, fb: Files, a: seq<Step>, b: seq<Step>, env: Env)
    requires forall q :: q in files ==> q in fa && fa[q] == files[q]
    requires forall q :: q in files ==> q in fb && fb[q] == files[q]
    requires forall s :: s in a <==> s in b
    requires forall q :: q in fa && q !in files ==>
      exists s :: s in a && s.Fetch? && s.url != "" && s.path == q && fa[q] == Fetched(env, s.url)
    requires forall q :: q in fb && q !in files ==>
      exists s :: s in b && s.Fetch? && s.url != "" && s.path == q && fb[q] == Fetched(env, s.url)
    requires forall s :: s in a && s.Fetch? && s.url != "" && s.path !in files ==>
      s.path in fa && fa[s.path] == Fetched(env, s.url)
    requires forall s :: s in b && s.Fetch? && s.url != "" && s.path !in files ==>
      s.path in fb && fb[s.path] == Fetched(env, s.url)
    ensures fa == fb
  {
    forall q | q in fa
      ensures q in fb && fa[q] == fb[q]
    {
      if q !in files {
        var s :| s in a && s.Fetch? && s.url != "" && s.path == q && fa[q] == Fetched(env, s.url);
        assert s in b;
      }
    }
    forall q | q in fb
      ensures q in fa
    {
      if q !in files {
        var s :| s in b && s.Fetch? && s.url != "" && s.path == q && fb[q] == Fetched(env, s.url);
        assert s in a;
      }
    }
  }

  /** Two coherent plans with the same steps in any order and any multiplicity agree on
      success, and on the files they leave when they succeed. */
  lemma OrderIndependent(files: Files, a: seq<Step>, b: seq<Step>, env: Env)
    requires Coherent(a) && Coherent(b)
    requires forall s :: s in a <==> s in b
    ensures Run(files, a, env).status.Done? <==> Run(files, b, env).status.Done?
    ensures Run(files, a, env).status.Done? ==> Run(files, a, env).files == Run(files, b, env).files
  {
    RunSucceedsIff(files, a, env);
    RunSucceedsIff(files, b, env);
    if Run(files, a, env).status.Done? {
      RunSuccessFiles(files, a, env);
      RunSuccessFiles(files, b, env);
      SameNewFiles(files, Run(files, a, env).files, Run(files, b, env).files, a, b, env);
    }
  }

  /** Some step of the plan downloads from `url`, which is not empty, to a path missing
      from `files`. */
  predicate MissingSource(files: Files, steps: seq<Step>, url: string)
  {
    exists s :: s in steps && s.Fetch? && s.url != "" && s.url == url && s.path !in files
  }

  /** A plan requests a URL only for a destination that was missing at the start. */
  lemma {:induction false} RequestedWereMissing(files: Files, steps: seq<Step>, env: Env)
    decreases |steps|
    ensures forall u :: u in Run(files, steps, env).requests ==> MissingSource(files, steps, u)
  {
    if steps != [] && steps[0].Fetch? {
      var s := steps[0];
      assert s in steps;
      var first := DownloadEffect(files, s.url, s.path, env);
      if first.status.Done? {
        var rest := steps[1..];
        RequestedWereMissing(first.files, rest, env);
        forall u | u in Run(files, steps, env).requests
          ensures MissingSource(files, steps, u)
        {
          if u in Run(first.files, rest, env).requests {
            var t :| t in rest && t.Fetch? && t.url != "" && t.url == u && t.path !in first.files;
            assert t in steps;
          }
        }
      }
    }
  }

  predicate Distinct(r: seq<string>)
  {
    forall i, j :: 0 <= i < j < |r| ==> r[i] != r[j]
  }

  lemma DistinctCons(u: string, r: seq<string>)
    requires Distinct(r) && u !in r
    ensures Distinct([u] + r)
  {
    var r' := [u] + r;
    forall i, j | 0 <= i < j < |r'|
      ensures r'[i] != r'[j]
    {
      assert r'[j] == r[j - 1];
      if i > 0 {
        assert r'[i] == r[i - 1];
      }
    }
  }

  /** When each source has one destination, a plan requests every URL at most once:
      two resources with one content hash cost one request. */
  lemma {:induction false} RequestsOnce(files: Files, steps: seq<Step>, env: Env)
    requires SourceKeyed(steps)
    decreases |steps|
    ensures Distinct(Run(files, steps, env).requests)
  {
    if steps != [] && steps[0].Fetch? {
      var s := steps[0];
      var rest := steps[1..];
      var first := DownloadEffect(files, s.url, s.path, env);
      if first.status.Done? {
        assert SourceKeyed(rest) by {
          forall i, j | 0 <= i < |rest| && 0 <= j < |rest| && rest[i].Fetch? && rest[j].Fetch? && rest[i].url == rest[j].url
            ensures rest[i].path == rest[j].path
          {
            assert rest[i] == steps[i + 1] && rest[j] == steps[j + 1];
          }
        }
        RequestsOnce(first.files, rest, env);
        var rr := Run(first.files, rest, env).requests;
        if first.requests != [] {
          assert first.requests == [s.url] && s.path in first.files;
          RequestedWereMissing(first.files, rest, env);
          assert !MissingSource(first.files, rest, s.url) by {
            forall t | t in rest && t.Fetch? && t.url == s.url
              ensures t.path in first.files
            {
              var j :| 0 <= j < |rest| && rest[j] == t;
              assert steps[j + 1] == t && steps[0] == s;
            }
          }
          assert s.url !in rr;
          DistinctCons(s.url, rr);
        }
      }
    }
  }
}
