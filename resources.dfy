/** The resource stage: every object of the asset index fetched from its hash-sharded
    remote location to its hash-sharded local file, in the map's iteration order. */
module Resources {
  import opened Types
  import opened Errors
  import opened Layout
  import opened Fetching

  /** The download of one resource. Slicing a hash shorter than two bytes is a runtime
      panic of the launcher; the model reports it as the stage's error. Hashes are taken
      to be ASCII hex digests, so a character here is one byte there. */
  function ResourceStep(root: string, asset: Asset): Step
  {
    if |asset.hash| < 2 then Abort(Panic(asset.hash))
    else Fetch(ObjectUrl(asset.hash), ObjectPath(root, asset.hash))
  }

  /** The downloads of the resources named by `order`, in that order. */
  function ResourcesPlan(root: string, objects: map<string, Asset>, order: seq<string>): seq<Step>
    requires forall i :: 0 <= i < |order| ==> order[i] in objects
  {
    seq(|order|, i requires 0 <= i < |order| => ResourceStep(root, objects[order[i]]))
  }

  /** `order` is an iteration order of the map: each key exactly once. */
  predicate Enumerates(order: seq<string>, objects: map<string, Asset>)
  {
    Distinct(order) &&
    (forall i :: 0 <= i < |order| ==> order[i] in objects) &&
    (forall k :: k in objects ==> k in order)
  }

  /** The keys of a set in some order. */
  ghost function SomeOrder(s: set<string>): (r: seq<string>)
    ensures Distinct(r)
    ensures forall i :: 0 <= i < |r| ==> r[i] in s
    ensures forall k :: k in s ==> k in r
    decreases s
  {
    if s == {} then []
    else
      var k :| k in s;
      [k] + SomeOrder(s - {k})
  }

  /** Resources are keyed by content hash: one local file per remote location and back. */
  lemma ResourcesPlanKeyed(root: string, objects: map<string, Asset>, order: seq<string>)
    requires forall i :: 0 <= i < |order| ==> order[i] in objects
    ensures Coherent(ResourcesPlan(root, objects, order))
    ensures SourceKeyed(ResourcesPlan(root, objects, order))
  {
    var plan := ResourcesPlan(root, objects, order);
    forall i, j | 0 <= i < |plan| && 0 <= j < |plan| && plan[i].Fetch? && plan[j].Fetch?
      ensures plan[i].path == plan[j].path ==> plan[i].url == plan[j].url
      ensures plan[i].url == plan[j].url ==> plan[i].path == plan[j].path
    {
      ObjectLayout(root, objects[order[i]].hash, objects[order[j]].hash);
    }
  }

  /** The plans of two iteration orders hold the same steps. */
  lemma SameSteps(root: string, objects: map<string, Asset>, o1: seq<string>, o2: seq<string>)
    requires Enumerates(o1, objects) && Enumerates(o2, objects)
    ensures forall s :: s in ResourcesPlan(root, objects, o1) <==> s in ResourcesPlan(root, objects, o2)
  {
    var p1, p2 := ResourcesPlan(root, objects, o1), ResourcesPlan(root, objects, o2);
    forall s | s in p1
      ensures s in p2
    {
      var i :| 0 <= i < |p1| && p1[i] == s;
      var j :| 0 <= j < |o2| && o2[j] == o1[i];
      assert p2[j] == s;
    }
    forall s | s in p2
      ensures s in p1
    {
      var j :| 0 <= j < |p2| && p2[j] == s;
      var i :| 0 <= i < |o1| && o1[i] == o2[j];
      assert p1[i] == s;
    }
  }

  /** Map iteration order does not matter: any two orders agree on whether the stage
      succeeds and, when it does, on the files it leaves. */
  lemma ResourcesOrderIndependent(files: Files, root: string, objects: map<string, Asset>,
                                  o1: seq<string>, o2: seq<string>, env: Env)
    requires Enumerates(o1, objects) && Enumerates(o2, objects)
    ensures var r1, r2 := Run(files, ResourcesPlan(root, objects, o1), env), Run(files, ResourcesPlan(root, objects, o2), env);
      (r1.status.Done? <==> r2.status.Done?) && (r1.status.Done? ==> r1.files == r2.files)
  {
    ResourcesPlanKeyed(root, objects, o1);
    ResourcesPlanKeyed(root, objects, o2);
    SameSteps(root, objects, o1, o2);
    OrderIndependent(files, ResourcesPlan(root, objects, o1), ResourcesPlan(root, objects, o2), env);
  }

  /** Resources sharing a content hash cost a single request: no URL is requested twice. */
  lemma ResourcesRequestedOnce(files: Files, root: string, objects: map<string, Asset>, order: seq<string>, env: Env)
    requires forall i :: 0 <= i < |order| ==> order[i] in objects
    ensures Distinct(Run(files, ResourcesPlan(root, objects, order), env).requests)
  {
    ResourcesPlanKeyed(root, objects, order);
    RequestsOnce(files, ResourcesPlan(root, objects, order), env);
  }

  /** The stage succeeds exactly when every resource's download can go through, and then
      every resource's file is in place, new ones holding the body of their URL. */
  lemma ResourcesOutcome(files: Files, root: string, objects: map<string, Asset>, order: seq<string>, env: Env)
    requires Enumerates(order, objects)
    ensures var r := Run(files, ResourcesPlan(root, objects, order), env);
      r.status.Done? <==> forall k :: k in objects ==> StepOk(files, ResourceStep(root, objects[k]), env)
    ensures var r := Run(files, ResourcesPlan(root, objects, order), env);
      r.status.Done? ==> forall k :: k in objects ==>
        |objects[k].hash| >= 2 && ObjectPath(root, objects[k].hash) in r.files &&
        (ObjectPath(root, objects[k].hash) !in files ==>
           r.files[ObjectPath(root, objects[k].hash)] == Fetched(env, ObjectUrl(objects[k].hash)))
  {
    var plan := ResourcesPlan(root, objects, order);
    ResourcesPlanKeyed(root, objects, order);
    RunSucceedsIff(files, plan, env);
    forall k | k in objects
      ensures ResourceStep(root, objects[k]) in plan
    {
      var i :| 0 <= i < |order| && order[i] == k;
      assert plan[i] == ResourceStep(root, objects[k]);
    }
    assert (forall s :: s in plan ==> StepOk(files, s, env)) <==>
           (forall k :: k in objects ==> StepOk(files, ResourceStep(root, objects[k]), env));
    if Run(files, plan, env).status.Done? {
      RunSuccessFiles(files, plan, env);
      forall k | k in objects
        ensures |objects[k].hash| >= 2
      {
        assert StepOk(files, ResourceStep(root, objects[k]), env);
      }
    }
  }

  /** Once the stage succeeded, a later run in any iteration order, over files that kept
      the ones it left, skips every resource: nothing changes and nothing is requested. */
  lemma ResourcesRerun(files: Files, root: string, objects: map<string, Asset>,
                       o1: seq<string>, o2: seq<string>, env: Env, later: Files)
    requires Enumerates(o1, objects) && Enumerates(o2, objects)
    requires Run(files, ResourcesPlan(root, objects, o1), env).status.Done?
    requires forall q :: q in Run(files, ResourcesPlan(root, objects, o1), env).files ==> q in later
    ensures Run(later, ResourcesPlan(root, objects, o2), env) == Effect(Done, later, [])
  {
    ResourcesOutcome(files, root, objects, o1, env);
    var plan := ResourcesPlan(root, objects, o2);
    forall i | 0 <= i < |plan|
      ensures plan[i].Fetch? && Skipped(later, plan[i].url, plan[i].path)
    {
      assert o2[i] in objects;
    }
    RunAllPresent(later, plan, env);
  }

  /** Running the plan of one more resource continues the run of the earlier ones. */
  lemma ResourcesPlanSnoc(files: Files, root: string, objects: map<string, Asset>, order: seq<string>, name: string, env: Env)
    requires forall i :: 0 <= i < |order| ==> order[i] in objects
    requires name in objects
    ensures var before := Run(files, ResourcesPlan(root, objects, order), env);
      Run(files, ResourcesPlan(root, objects, order + [name]), env) ==
      Then(before, Run(before.files, [ResourceStep(root, objects[name])], env))
  {
    assert ResourcesPlan(root, objects, order + [name]) == ResourcesPlan(root, objects, order) + [ResourceStep(root, objects[name])];
    RunAppend(files, ResourcesPlan(root, objects, order), [ResourceStep(root, objects[name])], env);
  }

  /** After a run over `done` that failed or covered every key, `done` extends to an
      iteration order of the whole map with the same outcome (fail-fast). */
  lemma CompleteOrder(files: Files, root: string, objects: map<string, Asset>,
                      done: seq<string>, remaining: set<string>, env: Env) returns (order: seq<string>)
    requires forall i :: 0 <= i < |done| ==> done[i] in objects
    requires Distinct(done)
    requires remaining <= objects.Keys
    requires forall k :: k in objects ==> (k in remaining <==> k !in done)
    requires remaining == {} || Run(files, ResourcesPlan(root, objects, done), env).status.Failed?
    ensures Enumerates(order, objects)
    ensures Run(files, ResourcesPlan(root, objects, order), env) == Run(files, ResourcesPlan(root, objects, done), env)
  {
    var rest := SomeOrder(remaining);
    order := done + rest;
    if remaining == {} {
      assert rest == [];
      assert order == done;
    } else {
      FailFast(files, ResourcesPlan(root, objects, done), ResourcesPlan(root, objects, rest), env);
      assert ResourcesPlan(root, objects, order) == ResourcesPlan(root, objects, done) + ResourcesPlan(root, objects, rest);
    }
    forall i, j | 0 <= i < j < |order|
      ensures order[i] != order[j]
    {
      if j >= |done| && i < |done| {
        assert order[j] in remaining;
      }
    }
  }

  /** Downloads every object of the asset index, in whatever order the map is iterated;
      stops at the first error. `order` is the iteration order the run took. */
  method DownloadResources(fs: FileSystem, cfg: Config, assets: AssetsData, env: Env)
    returns (status: Status, ghost order: seq<string>)
    modifies fs
    ensures Enumerates(order, assets.objects)
    ensures var e := Run(old(fs.files), ResourcesPlan(cfg.minecraftPath, assets.objects, order), env);
      status == e.status && fs.files == e.files
    ensures status.Done? <==> forall k :: k in assets.objects ==>
      StepOk(old(fs.files), ResourceStep(cfg.minecraftPath, assets.objects[k]), env)
    ensures status.Done? ==> forall k :: k in assets.objects ==>
      |assets.objects[k].hash| >= 2 && ObjectPath(cfg.minecraftPath, assets.objects[k].hash) in fs.files
  {
    var root := cfg.minecraftPath;
    var objects := assets.objects;
    var objectsPath := AssetsPath(root) + "objects/";
    ghost var start := fs.files;
    var remaining := objects.Keys;
    order := [];
    status := Done;
    while remaining != {} && status.Done?
      invariant remaining <= objects.Keys
      invariant forall i :: 0 <= i < |order| ==> order[i] in objects
      invariant Distinct(order)
      invariant forall k :: k in objects ==> (k in remaining <==> k !in order)
      invariant var e := Run(start, ResourcesPlan(root, objects, order), env);
        status == e.status && fs.files == e.files
      decreases remaining
    {
      var name :| name in remaining;
      var val := objects[name];
      ghost var before := Run(start, ResourcesPlan(root, objects, order), env);
      ResourcesPlanSnoc(start, root, objects, order, name, env);
      if |val.hash| < 2 {
        status := Failed(Panic(val.hash));
      } else {
        var url := ResourcesUrl + "/" + val.hash[..2] + "/" + val.hash;
        var fullPath := objectsPath + val.hash[..2] + "/" + val.hash;
        assert url == ObjectUrl(val.hash) && fullPath == ObjectPath(root, val.hash);
        status := fs.Download(url, fullPath, env);
      }
      RunSingle(before.files, ResourceStep(root, val), env);
      order := order + [name];
      remaining := remaining - {name};
    }
    order := CompleteOrder(start, root, objects, order, remaining, env);
    ResourcesOutcome(start, root, objects, order, env);
  }
}
