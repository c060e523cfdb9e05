/** Version lookup and the download stages for libraries, the client jar and the
    asset index document. */
module Resolve {
  import opened Types
  import opened Errors
  import opened Platform
  import opened Layout
  import opened Fetching

  /** The first entry of the version index with exactly the given id. */
  function FirstMatching(versions: seq<Version>, id: string): (r: Option<Version>)
    ensures r.None? <==> forall i :: 0 <= i < |versions| ==> versions[i].id != id
    ensures r.Some? ==> exists i :: 0 <= i < |versions| && versions[i] == r.value && r.value.id == id &&
                                   forall j :: 0 <= j < i ==> versions[j].id != id
  {
    if versions == [] then None
    else if versions[0].id == id then Some(versions[0])
    else
      var r := FirstMatching(versions[1..], id);
      assert forall i :: 0 < i < |versions| ==> versions[i] == versions[1..][i - 1];
      r
  }

  /** Looks the configured version up in the index: the first entry with exactly that
      id, or an error naming the version. */
  method GetVersion(cfg: Config, versions: seq<Version>) returns (r: Result<Version>)
    ensures r == match FirstMatching(versions, cfg.minecraftVersion)
                 case Some(v) => Success(v)
                 case None => Failure(NotFound(cfg.minecraftVersion))
  {
    var i := 0;
    while i < |versions|
      invariant 0 <= i <= |versions|
      invariant FirstMatching(versions[i..], cfg.minecraftVersion) == FirstMatching(versions, cfg.minecraftVersion)
    {
      assert versions[i..][1..] == versions[i + 1..];
      if versions[i].id == cfg.minecraftVersion {
        return Success(versions[i]);
      }
      i := i + 1;
    }
    return Failure(NotFound(cfg.minecraftVersion));
  }

  /** The downloads of one library: its artifact, then, when it has classifiers, the
      native variant for the platform, or the stop on an unknown platform. */
  function LibraryPlan(root: string, os: Os, lib: Library): seq<Step>
  {
    var libPath := LibrariesPath(root);
    var artifact := lib.downloads.artifact;
    [Fetch(artifact.url, libPath + artifact.path)] +
    (match lib.downloads.classifiers
     case None => []
     case Some(c) =>
       match Native(os, c)
       case Some(native) => [Fetch(native.url, libPath + native.path)]
       case None => [Abort(UnsupportedOs("download libraries"))])
  }

  /** The downloads of all libraries, in order. */
  function LibrariesPlan(root: string, os: Os, libs: seq<Library>): seq<Step>
  {
    if libs == [] then [] else LibraryPlan(root, os, libs[0]) + LibrariesPlan(root, os, libs[1..])
  }

  /** How many libraries carry classifiers. */
  function WithClassifiers(libs: seq<Library>): nat
  {
    if libs == [] then 0
    else (if libs[0].downloads.classifiers.Some? then 1 else 0) + WithClassifiers(libs[1..])
  }

  lemma {:induction false} LibrariesPlanConcat(root: string, os: Os, a: seq<Library>, b: seq<Library>)
    ensures LibrariesPlan(root, os, a + b) == LibrariesPlan(root, os, a) + LibrariesPlan(root, os, b)
  {
    if a == [] {
      assert a + b == b;
    } else {
      assert (a + b)[0] == a[0];
      assert (a + b)[1..] == a[1..] + b;
      LibrariesPlanConcat(root, os, a[1..], b);
    }
  }

  /** On a known platform every library yields its artifact and, when it has classifiers,
      exactly one native variant, all at paths under the libraries directory. */
  lemma {:induction false} LibrariesPlanShape(root: string, os: Os, libs: seq<Library>)
    requires !os.Other?
    ensures var plan := LibrariesPlan(root, os, libs);
      |plan| == |libs| + WithClassifiers(libs) &&
      (forall i :: 0 <= i < |plan| ==> plan[i].Fetch? && LibrariesPath(root) <= plan[i].path) &&
      |Paths(plan)| == |plan|
  {
    if libs != [] {
      LibrariesPlanShape(root, os, libs[1..]);
      var head := LibraryPlan(root, os, libs[0]);
      var tail := LibrariesPlan(root, os, libs[1..]);
      PathsAppend(head, tail);
      assert Paths(head) == Paths(tail[..0]) + Paths(head) by {
        assert tail[..0] == [];
      }
      assert forall i :: 0 <= i < |head| ==> head[i].Fetch? && LibrariesPath(root) <= head[i].path;
      assert |Paths(head)| == |head| by {
        if |head| == 2 {
          assert head[1..][1..] == [];
        }
      }
    }
  }

  /** A library with classifiers on an unknown platform makes the library stage fail. */
  lemma {:induction false} UnsupportedOsFails(files: Files, root: string, libs: seq<Library>, env: Env, k: nat)
    requires k < |libs| && libs[k].downloads.classifiers.Some?
    ensures Run(files, LibrariesPlan(root, Other, libs), env).status.Failed?
  {
    LibrariesPlanConcat(root, Other, libs[..k], libs[k..]);
    assert libs[..k] + libs[k..] == libs;
    var before := LibrariesPlan(root, Other, libs[..k]);
    var here := LibraryPlan(root, Other, libs[k]);
    assert LibrariesPlan(root, Other, libs[k..]) == here + LibrariesPlan(root, Other, libs[k + 1..]);
    var plan := LibrariesPlan(root, Other, libs);
    assert plan[|before| + 1] == here[1] == Abort(UnsupportedOs("download libraries"));
    AbortFails(files, plan, env, |before| + 1);
  }

  /** Without classifiers the platform plays no part. */
  lemma {:induction false} PlatformIrrelevantWithoutClassifiers(root: string, os1: Os, os2: Os, libs: seq<Library>)
    requires forall i :: 0 <= i < |libs| ==> libs[i].downloads.classifiers.None?
    ensures LibrariesPlan(root, os1, libs) == LibrariesPlan(root, os2, libs)
  {
    if libs != [] {
      PlatformIrrelevantWithoutClassifiers(root, os1, os2, libs[1..]);
    }
  }

  /** The stage is fail-fast: once the downloads of the first `i` libraries have failed,
      the later libraries are not looked at. */
  lemma LibrariesFailFast(files: Files, root: string, os: Os, libs: seq<Library>, i: nat, env: Env)
    requires i <= |libs|
    requires Run(files, LibrariesPlan(root, os, libs[..i]), env).status.Failed?
    ensures Run(files, LibrariesPlan(root, os, libs), env) == Run(files, LibrariesPlan(root, os, libs[..i]), env)
  {
    LibrariesPlanConcat(root, os, libs[..i], libs[i..]);
    assert libs[..i] + libs[i..] == libs;
    FailFast(files, LibrariesPlan(root, os, libs[..i]), LibrariesPlan(root, os, libs[i..]), env);
  }

  /** The run over the libraries from `i` on: the `i`-th library's downloads, and only
      when they succeed, the run over the rest from where they left the files. */
  lemma RunFromLibrary(files: Files, root: string, os: Os, libs: seq<Library>, i: nat, env: Env)
    requires i < |libs|
    ensures var one := Run(files, LibraryPlan(root, os, libs[i]), env);
      var all := Run(files, LibrariesPlan(root, os, libs[i..]), env);
      (one.status.Failed? ==> all.status == one.status && all.files == one.files) &&
      (one.status.Done? ==>
         var rest := Run(one.files, LibrariesPlan(root, os, libs[i + 1..]), env);
         all.status == rest.status && all.files == rest.files)
  {
    assert libs[i..][1..] == libs[i + 1..];
    RunAppend(files, LibraryPlan(root, os, libs[i]), LibrariesPlan(root, os, libs[i + 1..]), env);
  }

  /** The body of the library loop for one library: its artifact, then its native
      variant when it has classifiers. */
  method DownloadLibrary(fs: FileSystem, root: string, os: Os, lib: Library, env: Env) returns (status: Status)
    modifies fs
    ensures var e := Run(old(fs.files), LibraryPlan(root, os, lib), env);
      status == e.status && fs.files == e.files
  {
    var libPath := LibrariesPath(root);
    var artifact := lib.downloads.artifact;
    ghost var plan := LibraryPlan(root, os, lib);
    assert plan[0] == Fetch(artifact.url, libPath + artifact.path);
    status := fs.Download(artifact.url, libPath + artifact.path, env);
    if status.Failed? {
      return;
    }
    ghost var mid := fs.files;
    match lib.downloads.classifiers {
      case None =>
        assert plan[1..] == [];
      case Some(c) =>
        match os {
          case Linux =>
            status := fs.Download(c.nativesLinux.url, libPath + c.nativesLinux.path, env);
          case Windows =>
            status := fs.Download(c.nativesWindows.url, libPath + c.nativesWindows.path, env);
          case Darwin =>
            status := fs.Download(c.nativesMacos.url, libPath + c.nativesMacos.path, env);
          case Other =>
            status := Failed(UnsupportedOs("download libraries"));
        }
        assert plan[1..][1..] == [];
        assert Run(mid, plan[1..], env).status == status && Run(mid, plan[1..], env).files == fs.files;
    }
  }

  /** One turn of the library loop: the `i`-th library's downloads. A failure is the
      outcome of the whole run from `i` on; after a success, the run over the rest from
      the new files has the outcome of the run from `i` on from the old ones. */
  method DownloadNext(fs: FileSystem, root: string, os: Os, libraries: seq<Library>, i: nat, env: Env)
    returns (status: Status)
    requires i < |libraries|
    modifies fs
    ensures var all := Run(old(fs.files), LibrariesPlan(root, os, libraries[i..]), env);
      status.Failed? ==> status == all.status && fs.files == all.files
    ensures var all := Run(old(fs.files), LibrariesPlan(root, os, libraries[i..]), env);
      var rest := Run(fs.files, LibrariesPlan(root, os, libraries[i + 1..]), env);
      status.Done? ==> rest.status == all.status && rest.files == all.files
  {
    RunFromLibrary(fs.files, root, os, libraries, i, env);
    status := DownloadLibrary(fs, root, os, libraries[i], env);
  }

  /** Downloads every library's artifact and, where it has classifiers, its native
      variant for the platform; stops at the first error. */
  method DownloadLibraries(fs: FileSystem, cfg: Config, os: Os, libraries: seq<Library>, env: Env)
    returns (status: Status)
    modifies fs
    ensures var e := Run(old(fs.files), LibrariesPlan(cfg.minecraftPath, os, libraries), env);
      status == e.status && fs.files == e.files
  {
    var root := cfg.minecraftPath;
    ghost var goal := Run(fs.files, LibrariesPlan(root, os, libraries), env);
    var i := 0;
    assert libraries[i..] == libraries;
    while i < |libraries|
      invariant 0 <= i <= |libraries|
      invariant var e := Run(fs.files, LibrariesPlan(root, os, libraries[i..]), env);
        e.status == goal.status && e.files == goal.files
    {
      status := DownloadNext(fs, root, os, libraries, i, env);
      if status.Failed? {
        return;
      }
      i := i + 1;
    }
    assert libraries[i..] == [];
    status := Done;
  }

  /** The client jar's download. */
  function ClientStep(root: string, d: VersionDetails): Step
  {
    Fetch(d.downloads.client.url, ClientPath(root, d))
  }

  /** Downloads the client jar to `versions/<id>/<id>.jar`. */
  method DownloadClient(fs: FileSystem, cfg: Config, d: VersionDetails, env: Env) returns (status: Status)
    modifies fs
    ensures var e := Run(old(fs.files), [ClientStep(cfg.minecraftPath, d)], env);
      status == e.status && fs.files == e.files
  {
    status := fs.Download(d.downloads.client.url, ClientPath(cfg.minecraftPath, d), env);
  }

  /** The asset index document's download. */
  function IndexStep(root: string, index: AssetIndex): Step
  {
    Fetch(index.url, IndexPath(root, index))
  }

  /** Downloads the asset index document to `assets/indexes/<id>.json`. */
  method DownloadIndexJson(fs: FileSystem, cfg: Config, index: AssetIndex, env: Env) returns (status: Status)
    modifies fs
    ensures var e := Run(old(fs.files), [IndexStep(cfg.minecraftPath, index)], env);
      status == e.status && fs.files == e.files
  {
    var indexesPath := AssetsPath(cfg.minecraftPath) + "indexes/";
    assert indexesPath + index.id + ".json" == IndexPath(cfg.minecraftPath, index);
    status := fs.Download(index.url, indexesPath + index.id + ".json", env);
  }
}
