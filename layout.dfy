/** The installation tree: where every downloaded file goes, relative to the installation
    root, and the hash-sharded remote location of resources. */
module Layout {
  import opened Types

  const VersionManifestUrl := "https://launchermeta.mojang.com/mc/game/version_manifest.json"
  const ResourcesUrl := "https://resources.download.minecraft.net"

  function AssetsPath(root: string): string { root + "/assets/" }

  function LibrariesPath(root: string): string { root + "/libraries/" }

  function ClientPath(root: string, d: VersionDetails): string
  {
    root + "/versions/" + d.id + "/" + d.id + ".jar"
  }

  function IndexPath(root: string, index: AssetIndex): string
  {
    AssetsPath(root) + "indexes/" + index.id + ".json"
  }

  function ObjectsPath(root: string): string { AssetsPath(root) + "objects/" }

  /** `<base>/<first two characters of hash>/<hash>`, the sharded name of a resource. */
  function Sharded(base: string, hash: string): string
    requires |hash| >= 2
  {
    base + hash[..2] + "/" + hash
  }

  function ObjectUrl(hash: string): string
    requires |hash| >= 2
  {
    Sharded(ResourcesUrl + "/", hash)
  }

  function ObjectPath(root: string, hash: string): string
    requires |hash| >= 2
  {
    Sharded(ObjectsPath(root), hash)
  }

  /** The directory part of a slash-separated path: everything before the last `/`,
      `/` when that is the only slash at the front, `.` when there is none. */
  function ParentDir(p: string): string
  {
    if |p| == 0 then "."
    else if p[|p| - 1] == '/' then (if |p| == 1 then "/" else p[..|p| - 1])
    else ParentDir(p[..|p| - 1])
  }

  /** The directory of `dir/name` is `dir` when the name has no slash. */
  lemma {:induction false} ParentDirOfChild(dir: string, name: string)
    requires dir != []
    requires '/' !in name
    ensures ParentDir(dir + "/" + name) == dir
  {
    if name == [] {
      assert (dir + "/" + name)[..|dir|] == dir;
    } else {
      var p := dir + "/" + name;
      assert p[..|p| - 1] == dir + "/" + name[..|name| - 1];
      assert name[|name| - 1] in name;
      ParentDirOfChild(dir, name[..|name| - 1]);
    }
  }

  /** Descending from `base`, a resource's sharded name determines its hash. */
  lemma ShardedInjective(base: string, h1: string, h2: string)
    requires |h1| >= 2 && |h2| >= 2
    requires Sharded(base, h1) == Sharded(base, h2)
    ensures h1 == h2
  {
    var s1, s2 := Sharded(base, h1), Sharded(base, h2);
    assert |h1| == |h2|;
    assert s1[|base| + 3..] == h1;
    assert s2[|base| + 3..] == h2;
  }

  /** Every resource has its own local file and its own remote location, and the
      local file lives in the shard directory named by the hash's first two characters. */
  lemma ObjectLayout(root: string, h1: string, h2: string)
    requires |h1| >= 2 && |h2| >= 2
    ensures ObjectPath(root, h1) == ObjectPath(root, h2) ==> h1 == h2
    ensures ObjectUrl(h1) == ObjectUrl(h2) ==> h1 == h2
    ensures ObjectPath(root, h1) == root + "/assets/objects/" + h1[..2] + "/" + h1
    ensures ObjectUrl(h1) == ResourcesUrl + "/" + h1[..2] + "/" + h1
    ensures '/' !in h1 ==> ParentDir(ObjectPath(root, h1)) == ObjectsPath(root) + h1[..2]
  {
    if ObjectPath(root, h1) == ObjectPath(root, h2) {
      ShardedInjective(ObjectsPath(root), h1, h2);
    }
    if ObjectUrl(h1) == ObjectUrl(h2) {
      ShardedInjective(ResourcesUrl + "/", h1, h2);
    }
    if '/' !in h1 {
      ParentDirOfChild(ObjectsPath(root) + h1[..2], h1);
    }
  }

  /** A version's client jar is keyed by the version id: different ids, different files. */
  lemma ClientPathInjective(root: string, d1: VersionDetails, d2: VersionDetails)
    requires ClientPath(root, d1) == ClientPath(root, d2)
    ensures d1.id == d2.id
  {
    var p1, p2 := ClientPath(root, d1), ClientPath(root, d2);
    var k := |root + "/versions/"|;
    assert |d1.id| == |d2.id|;
    assert p1[k..k + |d1.id|] == d1.id;
    assert p2[k..k + |d2.id|] == d2.id;
  }

  /** The four kinds of download targets lie in disjoint subtrees of the root, so a
      library, the client jar, the asset index and a resource never share a file. */
  lemma LayoutDisjoint(root: string, lib: string, d: VersionDetails, index: AssetIndex, hash: string)
    requires |hash| >= 2
    ensures LibrariesPath(root) + lib != ClientPath(root, d)
    ensures LibrariesPath(root) + lib != IndexPath(root, index)
    ensures LibrariesPath(root) + lib != ObjectPath(root, hash)
    ensures ClientPath(root, d) != IndexPath(root, index)
    ensures ClientPath(root, d) != ObjectPath(root, hash)
    ensures IndexPath(root, index) != ObjectPath(root, hash)
  {
    var n := |root|;
    var l, c, i, o := LibrariesPath(root) + lib, ClientPath(root, d), IndexPath(root, index), ObjectPath(root, hash);
    assert l[n + 1] == 'l';
    assert c[n + 1] == 'v';
    assert i[n + 1] == 'a' && i[n + 8] == 'i';
    assert o[n + 1] == 'a' && o[n + 8] == 'o';
  }
}
