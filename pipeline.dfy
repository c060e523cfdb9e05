/** The launcher's run: look the version up, fetch its details, then download the
    libraries, the client jar, the asset index and the resources, and write the launch
    script; the first failing stage ends the run and is reported under its name. */
module Pipeline {
  import opened Types
  import opened Errors
  import opened Platform
  import opened Layout
  import opened Fetching
  import opened Strings
  import opened Resolve
  import opened Resources
  import opened ClassPath
  import opened Script

  /** The documents the launcher requests and decodes: the version index, the details of
      a version and an asset index, each by URL, or the error of requesting or decoding. */
  datatype Documents = Documents(
    manifest: string -> Result<VersionManifest>,
    details: string -> Result<VersionDetails>,
    assets: string -> Result<AssetsData>)

  /** How a run ends: completed, or stopped at the named stage with its error. */
  datatype Report = Completed | Aborted(stage: string, cause: Error)

  /** How far a run gets before the resource stage: stopped with its report and the
      files at that point, or through the asset index with the version's details, the
      asset index document and the files so far. */
  datatype Progress =
    | Stopped(report: Report, files: Files)
    | Reached(d: VersionDetails, assets: AssetsData, files: Files)

  /** The version's details, or the document stage that failed and its error. */
  datatype Located = Missing(stage: string, cause: Error) | Found(d: VersionDetails)

  /** The document stages: the version index, the lookup and the details, each after the
      previous succeeded. */
  function Locate(cfg: Config, docs: Documents): (r: Located)
    ensures r.Found? <==>
      var m := docs.manifest(VersionManifestUrl);
      m.Success? && FirstMatching(m.value.versions, cfg.minecraftVersion).Some? &&
      docs.details(FirstMatching(m.value.versions, cfg.minecraftVersion).value.url).Success?
  {
    var m := docs.manifest(VersionManifestUrl);
    if m.Failure? then Missing("get version manifest", m.error)
    else match FirstMatching(m.value.versions, cfg.minecraftVersion)
    case None => Missing("get version", NotFound(cfg.minecraftVersion))
    case Some(v) =>
      var details := docs.details(v.url);
      if details.Failure? then Missing("get version details", details.error)
      else Found(details.value)
  }

  /** The download stages up to the asset index, each after the previous succeeded: the
      libraries, the client jar, the asset index document and its download. */
  function Install(files: Files, root: string, os: Os, d: VersionDetails, docs: Documents, env: Env): (p: Progress)
    ensures p.Stopped? ==> p.report.Aborted?
    ensures p.Reached? ==> p.d == d
    ensures forall q :: q in files ==> q in p.files && p.files[q] == files[q]
  {
    var libs := Run(files, LibrariesPlan(root, os, d.libraries), env);
    if libs.status.Failed? then Stopped(Aborted("get libraries", libs.status.error), libs.files)
    else
      var client := Run(libs.files, [ClientStep(root, d)], env);
      if client.status.Failed? then Stopped(Aborted("get client", client.status.error), client.files)
      else
        var assets := docs.assets(d.assetIndex.url);
        if assets.Failure? then Stopped(Aborted("get assets", assets.error), client.files)
        else
          var index := Run(client.files, [IndexStep(root, d.assetIndex)], env);
          if index.status.Failed? then Stopped(Aborted("get assets index json", index.status.error), index.files)
          else Reached(d, assets.value, index.files)
  }

  /** The stages of a run up to the asset index. */
  function Prepare(files: Files, cfg: Config, os: Os, docs: Documents, env: Env): (p: Progress)
    ensures p.Stopped? ==> p.report.Aborted?
    ensures forall q :: q in files ==> q in p.files && p.files[q] == files[q]
  {
    match Locate(cfg, docs)
    case Missing(stage, cause) => Stopped(Aborted(stage, cause), files)
    case Found(d) => Install(files, cfg.minecraftPath, os, d, docs, env)
  }

  /** `order` is an iteration order of the asset map, when the run gets that far. */
  predicate OrderFor(p: Progress, order: seq<string>)
  {
    p.Reached? ==> Enumerates(order, p.assets.objects)
  }

  /** The rest of a run from where `Prepare` left it: a stopped run stays stopped; one that
      got through the asset index runs the resource stage with the map's keys in `order`,
      then writes the script. */
  function Finish(p: Progress, cfg: Config, os: Os, env: Env, clean: string -> string, order: seq<string>): (r: (Report, Files))
    requires OrderFor(p, order)
    ensures p.Stopped? ==> r == (p.report, p.files)
    ensures forall q :: q in p.files ==> q in r.1
    ensures forall q :: q in p.files && q != "start.sh" && q != "start.bat" ==> r.1[q] == p.files[q]
  {
    match p
    case Stopped(report, f) => (report, f)
    case Reached(d, assets, f) =>
      var resources := Run(f, ResourcesPlan(cfg.minecraftPath, assets.objects, order), env);
      if resources.status.Failed? then (Aborted("get resources", resources.status.error), resources.files)
      else
        var script := ScriptEffect(resources.files, cfg, os, d, clean, env);
        if script.0.Failed? then (Aborted("create executable file", script.0.error), script.1)
        else (Completed, script.1)
  }

  /** A whole run, with the resource stage taking the map's keys in `order`: the report
      and the files it leaves. The first stage that fails ends the run under its label,
      with the files as that stage left them; a run whose every stage succeeds completes. */
  function Outcome(files: Files, cfg: Config, os: Os, docs: Documents, env: Env,
                   clean: string -> string, order: seq<string>): (r: (Report, Files))
    requires OrderFor(Prepare(files, cfg, os, docs, env), order)
    ensures forall q :: q in files ==> q in r.1
    ensures forall q :: q in files && q != "start.sh" && q != "start.bat" ==> r.1[q] == files[q]
  {
    Finish(Prepare(files, cfg, os, docs, env), cfg, os, env, clean, order)
  }

  /** Every path present before is still present after. */
  predicate Kept(before: Files, after: Files)
  {
    forall q :: q in before ==> q in after
  }

  /** The installation a completed run leaves: every library file and native variant,
      the client jar and the asset index (where their URL is not empty), every resource
      object, and the launch script holding its header and command line. */
  predicate Installed(files: Files, cfg: Config, os: Os, d: VersionDetails, assets: AssetsData, clean: string -> string)
    requires !os.Other?
  {
    var root := cfg.minecraftPath;
    var plan := LibrariesPlan(root, os, d.libraries);
    var file := Platform.Script(os).value;
    var classPath := Join(Entries(root, os, d, clean), Separator(os).value);
    (forall i :: 0 <= i < |plan| && plan[i].Fetch? && plan[i].url != "" ==> plan[i].path in files) &&
    (d.downloads.client.url != "" ==> ClientPath(root, d) in files) &&
    (d.assetIndex.url != "" ==> IndexPath(root, d.assetIndex) in files) &&
    (forall k :: k in assets.objects ==> |assets.objects[k].hash| >= 2 && ObjectPath(root, assets.objects[k].hash) in files) &&
    file.name in files && files[file.name] == Utf8(ScriptText(file, cfg, d, classPath))
  }

  /** Presence after a plan that succeeded, and after later stages that keep every path. */
  lemma PlanPresence(files: Files, plan: seq<Step>, env: Env, later: Files)
    requires Run(files, plan, env).status.Done?
    requires Kept(Run(files, plan, env).files, later)
    ensures forall i :: 0 <= i < |plan| && plan[i].Fetch? && plan[i].url != "" ==> plan[i].path in later
  {
    SuccessMaterializes(files, plan, env);
  }

  /** What a run that got through the asset index did: each of its download stages
      succeeded on the files the previous one left, and the asset index document came
      from the details' URL. */
  lemma InstallReached(files: Files, root: string, os: Os, d: VersionDetails, docs: Documents, env: Env)
    requires Install(files, root, os, d, docs, env).Reached?
    ensures var p := Install(files, root, os, d, docs, env);
      var libs := Run(files, LibrariesPlan(root, os, p.d.libraries), env);
      var client := Run(libs.files, [ClientStep(root, p.d)], env);
      var index := Run(client.files, [IndexStep(root, p.d.assetIndex)], env);
      libs.status.Done? && client.status.Done? && index.status.Done? && p.files == index.files &&
      docs.assets(p.d.assetIndex.url) == Success(p.assets)
  {
  }

  /** What a completed run did after the asset index: the resource stage succeeded, and
      so did writing the script, whose files are the run's. */
  lemma CompletedFinish(files: Files, cfg: Config, os: Os, docs: Documents, env: Env,
                        clean: string -> string, order: seq<string>)
    requires OrderFor(Prepare(files, cfg, os, docs, env), order)
    requires Outcome(files, cfg, os, docs, env, clean, order).0.Completed?
    ensures var p := Prepare(files, cfg, os, docs, env);
      p.Reached? && Enumerates(order, p.assets.objects) &&
      var resources := Run(p.files, ResourcesPlan(cfg.minecraftPath, p.assets.objects, order), env);
      var script := ScriptEffect(resources.files, cfg, os, p.d, clean, env);
      resources.status.Done? && script.0.Done? && Outcome(files, cfg, os, docs, env, clean, order).1 == script.1
  {
  }

  /** The installation the download stages and the script leave when each succeeds. */
  lemma InstalledBy(files: Files, cfg: Config, os: Os, d: VersionDetails, assets: AssetsData,
                    env: Env, clean: string -> string, order: seq<string>)
    requires Enumerates(order, assets.objects)
    requires var root := cfg.minecraftPath;
      var libs := Run(files, LibrariesPlan(root, os, d.libraries), env);
      var client := Run(libs.files, [ClientStep(root, d)], env);
      var index := Run(client.files, [IndexStep(root, d.assetIndex)], env);
      var resources := Run(index.files, ResourcesPlan(root, assets.objects, order), env);
      libs.status.Done? && client.status.Done? && index.status.Done? && resources.status.Done? &&
      ScriptEffect(resources.files, cfg, os, d, clean, env).0.Done?
    ensures !os.Other?
    ensures var root := cfg.minecraftPath;
      var libs := Run(files, LibrariesPlan(root, os, d.libraries), env);
      var client := Run(libs.files, [ClientStep(root, d)], env);
      var index := Run(client.files, [IndexStep(root, d.assetIndex)], env);
      var resources := Run(index.files, ResourcesPlan(root, assets.objects, order), env);
      !os.Other? && Installed(ScriptEffect(resources.files, cfg, os, d, clean, env).1, cfg, os, d, assets, clean)
  {
    var root := cfg.minecraftPath;
    var libs := Run(files, LibrariesPlan(root, os, d.libraries), env);
    var client := Run(libs.files, [ClientStep(root, d)], env);
    var index := Run(client.files, [IndexStep(root, d.assetIndex)], env);
    var resources := Run(index.files, ResourcesPlan(root, assets.objects, order), env);
    var last := ScriptEffect(resources.files, cfg, os, d, clean, env).1;
    assert Kept(resources.files, last);
    assert Kept(index.files, last);
    assert Kept(client.files, last);
    assert Kept(libs.files, last);
    PlanPresence(files, LibrariesPlan(root, os, d.libraries), env, last);
    PlanPresence(libs.files, [ClientStep(root, d)], env, last);
    PlanPresence(client.files, [IndexStep(root, d.assetIndex)], env, last);
    ResourcesOutcome(index.files, root, assets.objects, order, env);
  }

  /** A completed run ran on a known platform, got through the asset index, and left the
      whole installation in place. */
  lemma CompletedInstalls(files: Files, cfg: Config, os: Os, docs: Documents, env: Env,
                          clean: string -> string, order: seq<string>)
    requires OrderFor(Prepare(files, cfg, os, docs, env), order)
    requires Outcome(files, cfg, os, docs, env, clean, order).0.Completed?
    ensures var p := Prepare(files, cfg, os, docs, env);
      !os.Other? && p.Reached? && Installed(Outcome(files, cfg, os, docs, env, clean, order).1, cfg, os, p.d, p.assets, clean)
  {
    var p := Prepare(files, cfg, os, docs, env);
    CompletedFinish(files, cfg, os, docs, env, clean, order);
    InstallReached(files, cfg.minecraftPath, os, p.d, docs, env);
    InstalledBy(files, cfg, os, p.d, p.assets, env, clean, order);
  }

  /** After the download stages got through the asset index, running them again over
      files that kept the ones they left gets through again and changes nothing. */
  lemma InstallAgain(files: Files, root: string, os: Os, d: VersionDetails, docs: Documents, env: Env, later: Files)
    requires Install(files, root, os, d, docs, env).Reached?
    requires Kept(Install(files, root, os, d, docs, env).files, later)
    ensures Install(later, root, os, d, docs, env) == Reached(d, Install(files, root, os, d, docs, env).assets, later)
    ensures Run(later, LibrariesPlan(root, os, d.libraries), env).requests == []
    ensures Run(later, [ClientStep(root, d)], env).requests == []
    ensures Run(later, [IndexStep(root, d.assetIndex)], env).requests == []
  {
    InstallReached(files, root, os, d, docs, env);
    var libs := Run(files, LibrariesPlan(root, os, d.libraries), env);
    var client := Run(libs.files, [ClientStep(root, d)], env);
    assert Kept(client.files, later);
    assert Kept(libs.files, later);
    RerunLater(files, LibrariesPlan(root, os, d.libraries), env, later);
    RerunLater(libs.files, [ClientStep(root, d)], env, later);
    RerunLater(client.files, [IndexStep(root, d.assetIndex)], env, later);
  }

  /** Running the launcher again after a completed run, in any resource order, completes
      again and changes nothing: every download is skipped and the script is rewritten
      with the same bytes. */
  lemma RerunChangesNothing(files: Files, cfg: Config, os: Os, docs: Documents, env: Env,
                            clean: string -> string, o1: seq<string>, o2: seq<string>)
    requires OrderFor(Prepare(files, cfg, os, docs, env), o1)
    requires Outcome(files, cfg, os, docs, env, clean, o1).0.Completed?
    requires OrderFor(Prepare(Outcome(files, cfg, os, docs, env, clean, o1).1, cfg, os, docs, env), o2)
    ensures var first := Outcome(files, cfg, os, docs, env, clean, o1);
      Outcome(first.1, cfg, os, docs, env, clean, o2) == first
    ensures var first := Outcome(files, cfg, os, docs, env, clean, o1);
      var again := Prepare(first.1, cfg, os, docs, env);
      var root := cfg.minecraftPath;
      again.Reached? && again.files == first.1 &&
      Run(first.1, LibrariesPlan(root, os, again.d.libraries), env).requests == [] &&
      Run(first.1, [ClientStep(root, again.d)], env).requests == [] &&
      Run(first.1, [IndexStep(root, again.d.assetIndex)], env).requests == [] &&
      Run(first.1, ResourcesPlan(root, again.assets.objects, o2), env).requests == []
  {
    var root := cfg.minecraftPath;
    var p := Prepare(files, cfg, os, docs, env);
    CompletedFinish(files, cfg, os, docs, env, clean, o1);
    var resources := Run(p.files, ResourcesPlan(root, p.assets.objects, o1), env);
    var last := ScriptEffect(resources.files, cfg, os, p.d, clean, env).1;
    assert Kept(resources.files, last);
    assert Kept(p.files, last);
    InstallAgain(files, root, os, p.d, docs, env, last);
    assert Prepare(last, cfg, os, docs, env) == Reached(p.d, p.assets, last);
    ResourcesRerun(p.files, root, p.assets.objects, o1, o2, env, last);
    ScriptEffectIdempotent(resources.files, cfg, os, p.d, clean, env);
  }

  /** A run that got through the asset index found the version in the index, and its
      details and asset index document are the ones the documents give. */
  lemma PrepareFound(files: Files, cfg: Config, os: Os, docs: Documents, env: Env)
    requires Prepare(files, cfg, os, docs, env).Reached?
    ensures var p := Prepare(files, cfg, os, docs, env);
      var m := docs.manifest(VersionManifestUrl);
      m.Success? && FirstMatching(m.value.versions, cfg.minecraftVersion).Some? &&
      docs.details(FirstMatching(m.value.versions, cfg.minecraftVersion).value.url) == Success(p.d) &&
      docs.assets(p.d.assetIndex.url) == Success(p.assets)
  {
    var p := Prepare(files, cfg, os, docs, env);
    InstallReached(files, cfg.minecraftPath, os, p.d, docs, env);
  }

  /** The download stages up to the asset index, stopping at the first that fails. */
  method Downloads(fs: FileSystem, cfg: Config, os: Os, d: VersionDetails, docs: Documents, env: Env)
    returns (p: Progress)
    modifies fs
    ensures p == Install(old(fs.files), cfg.minecraftPath, os, d, docs, env) && fs.files == p.files
  {
    var status := DownloadLibraries(fs, cfg, os, d.libraries, env);
    if status.Failed? {
      return Stopped(Aborted("get libraries", status.error), fs.files);
    }

    status := DownloadClient(fs, cfg, d, env);
    if status.Failed? {
      return Stopped(Aborted("get client", status.error), fs.files);
    }

    var assets := docs.assets(d.assetIndex.url);
    if assets.Failure? {
      return Stopped(Aborted("get assets", assets.error), fs.files);
    }

    status := DownloadIndexJson(fs, cfg, d.assetIndex, env);
    if status.Failed? {
      return Stopped(Aborted("get assets index json", status.error), fs.files);
    }
    return Reached(d, assets.value, fs.files);
  }

  /** The stages after the details were found: the downloads, the resource stage and the
      script, stopping at the first that fails. */
  method InstallVersion(fs: FileSystem, cfg: Config, os: Os, d: VersionDetails, docs: Documents, env: Env,
                        clean: string -> string)
    returns (report: Report, ghost order: seq<string>)
    modifies fs
    ensures OrderFor(Install(old(fs.files), cfg.minecraftPath, os, d, docs, env), order)
    ensures (report, fs.files) == Finish(Install(old(fs.files), cfg.minecraftPath, os, d, docs, env), cfg, os, env, clean, order)
  {
    order := [];
    var p := Downloads(fs, cfg, os, d, docs, env);
    if p.Stopped? {
      return p.report, order;
    }
    var status;
    status, order := DownloadResources(fs, cfg, p.assets, env);
    if status.Failed? {
      return Aborted("get resources", status.error), order;
    }

    status := CreateExecutableFile(fs, cfg, os, d, clean, env);
    if status.Failed? {
      return Aborted("create executable file", status.error), order;
    }
    return Completed, order;
  }

  /** One run of the launcher over the filesystem. `order` is the iteration order the
      resource stage took. */
  method Launch(fs: FileSystem, cfg: Config, os: Os, docs: Documents, env: Env, clean: string -> string)
    returns (report: Report, ghost order: seq<string>)
    modifies fs
    ensures OrderFor(Prepare(old(fs.files), cfg, os, docs, env), order)
    ensures (report, fs.files) == Outcome(old(fs.files), cfg, os, docs, env, clean, order)
    ensures var m := docs.manifest(VersionManifestUrl);
      m.Failure? ==> report == Aborted("get version manifest", m.error) && fs.files == old(fs.files)
    ensures var m := docs.manifest(VersionManifestUrl);
      m.Success? && FirstMatching(m.value.versions, cfg.minecraftVersion).None? ==>
        report == Aborted("get version", NotFound(cfg.minecraftVersion)) && fs.files == old(fs.files)
    ensures var m := docs.manifest(VersionManifestUrl);
      m.Success? && FirstMatching(m.value.versions, cfg.minecraftVersion).Some? &&
      docs.details(FirstMatching(m.value.versions, cfg.minecraftVersion).value.url).Failure? ==>
        report == Aborted("get version details", docs.details(FirstMatching(m.value.versions, cfg.minecraftVersion).value.url).error) &&
        fs.files == old(fs.files)
    ensures forall q :: q in old(fs.files) && q != "start.sh" && q != "start.bat" ==>
      q in fs.files && fs.files[q] == old(fs.files)[q]
    ensures report.Completed? ==>
      var m := docs.manifest(VersionManifestUrl);
      !os.Other? && m.Success? && FirstMatching(m.value.versions, cfg.minecraftVersion).Some? &&
      var v := FirstMatching(m.value.versions, cfg.minecraftVersion).value;
      docs.details(v.url).Success? &&
      var d := docs.details(v.url).value;
      docs.assets(d.assetIndex.url).Success? &&
      Installed(fs.files, cfg, os, d, docs.assets(d.assetIndex.url).value, clean)
  {
    order := [];
    var manifest := docs.manifest(VersionManifestUrl);
    if manifest.Failure? {
      return Aborted("get version manifest", manifest.error), order;
    }
    var version := GetVersion(cfg, manifest.value.versions);
    if version.Failure? {
      return Aborted("get version", version.error), order;
    }
    var details := docs.details(version.value.url);
    if details.Failure? {
      return Aborted("get version details", details.error), order;
    }
    ghost var start := fs.files;
    assert Locate(cfg, docs) == Found(details.value);
    report, order := InstallVersion(fs, cfg, os, details.value, docs, env, clean);
    if report.Completed? {
      CompletedInstalls(start, cfg, os, docs, env, clean, order);
      PrepareFound(start, cfg, os, docs, env);
    }
  }
}
