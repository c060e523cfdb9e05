/** The class path: every library file the library stage downloads to, cleaned and
    followed by the platform's separator, then the cleaned client jar path. */
module ClassPath {
  import opened Types
  import opened Errors
  import opened Platform
  import opened Layout
  import opened Fetching
  import opened Strings
  import opened Resolve

  /** `clean` applied to every path (path normalisation is a parameter of the model). */
  function Cleaned(paths: seq<string>, clean: string -> string): (r: seq<string>)
    ensures |r| == |paths|
    ensures forall i :: 0 <= i < |paths| ==> r[i] == clean(paths[i])
  {
    seq(|paths|, i requires 0 <= i < |paths| => clean(paths[i]))
  }

  /** The class path entries: the library plan's paths in order, then the client jar. */
  function Entries(root: string, os: Os, d: VersionDetails, clean: string -> string): seq<string>
  {
    Cleaned(Paths(LibrariesPlan(root, os, d.libraries)), clean) + [clean(ClientPath(root, d))]
  }

  lemma CleanedAppend(a: seq<string>, b: seq<string>, clean: string -> string)
    ensures Cleaned(a + b, clean) == Cleaned(a, clean) + Cleaned(b, clean)
  {
  }

  /** The class path of the first `i + 1` libraries continues that of the first `i`. */
  lemma ClassPathStep(root: string, os: Os, libs: seq<Library>, i: nat, clean: string -> string, sep: char)
    requires i < |libs|
    ensures Terminated(Cleaned(Paths(LibrariesPlan(root, os, libs[..i + 1])), clean), sep) ==
      Terminated(Cleaned(Paths(LibrariesPlan(root, os, libs[..i])), clean), sep) +
      Terminated(Cleaned(Paths(LibraryPlan(root, os, libs[i])), clean), sep)
  {
    var before := LibrariesPlan(root, os, libs[..i]);
    var here := LibraryPlan(root, os, libs[i]);
    assert libs[..i + 1] == libs[..i] + [libs[i]];
    LibrariesPlanConcat(root, os, libs[..i], [libs[i]]);
    assert LibrariesPlan(root, os, [libs[i]]) == here + LibrariesPlan(root, os, []);
    assert here + [] == here;
    PathsAppend(before, here);
    CleanedAppend(Paths(before), Paths(here), clean);
    TerminatedAppend(Cleaned(Paths(before), clean), Cleaned(Paths(here), clean), sep);
  }

  /** The class path part one library contributes on a known platform. */
  lemma LibraryEntries(root: string, os: Os, lib: Library, clean: string -> string, sep: char)
    requires !os.Other?
    ensures var libPath := LibrariesPath(root);
      Terminated(Cleaned(Paths(LibraryPlan(root, os, lib)), clean), sep) ==
      clean(libPath + lib.downloads.artifact.path) + [sep] +
      (match lib.downloads.classifiers
       case None => ""
       case Some(c) => clean(libPath + Native(os, c).value.path) + [sep])
  {
    var libPath := LibrariesPath(root);
    var here := LibraryPlan(root, os, lib);
    var first := clean(libPath + lib.downloads.artifact.path);
    match lib.downloads.classifiers {
      case None =>
        assert Paths(here) == [libPath + lib.downloads.artifact.path];
        assert Cleaned(Paths(here), clean) == [first];
        assert Terminated([first], sep) == first + [sep] + Terminated([], sep);
      case Some(c) =>
        var native := Native(os, c).value;
        var second := clean(libPath + native.path);
        assert here == [Fetch(lib.downloads.artifact.url, libPath + lib.downloads.artifact.path),
                        Fetch(native.url, libPath + native.path)];
        assert here[1..][1..] == [];
        assert Paths(here) == [libPath + lib.downloads.artifact.path, libPath + native.path];
        assert Cleaned(Paths(here), clean) == [first, second];
        TerminatedPair(first, second, sep);
    }
  }

  lemma TerminatedPair(x: string, y: string, sep: char)
    ensures Terminated([x, y], sep) == x + [sep] + (y + [sep])
  {
    assert [y][1..] == [];
    assert Terminated([y], sep) == y + [sep] + "";
    assert y + [sep] + "" == y + [sep];
    assert [x, y][1..] == [y];
  }

  /** The body of the class path loop for one library: its artifact, then its native
      variant when it has classifiers, each cleaned and followed by the separator. */
  method AppendLibrary(classPath: string, root: string, os: Os, lib: Library, clean: string -> string, separator: char)
    returns (r: string)
    requires !os.Other?
    ensures r == classPath + Terminated(Cleaned(Paths(LibraryPlan(root, os, lib)), clean), separator)
  {
    var libPath := LibrariesPath(root);
    r := classPath + clean(libPath + lib.downloads.artifact.path) + [separator];
    match lib.downloads.classifiers {
      case None =>
      case Some(c) =>
        var native: Artifact;
        match os {
          case Linux => native := c.nativesLinux;
          case Windows => native := c.nativesWindows;
          case Darwin => native := c.nativesMacos;
        }
        assert native == Native(os, c).value;
        r := r + clean(libPath + native.path) + [separator];
    }
    LibraryEntries(root, os, lib, clean, separator);
  }

  /** Builds the class path for the platform; fails on an unknown platform even when
      there are no libraries. */
  method CreateClassPath(cfg: Config, os: Os, d: VersionDetails, clean: string -> string)
    returns (r: Result<string>)
    ensures r.Failure? <==> os.Other?
    ensures r.Failure? ==> r.error == UnsupportedOs("choosing separator")
    ensures r.Success? ==> r.value == Join(Entries(cfg.minecraftPath, os, d, clean), Separator(os).value)
  {
    var separator: char;
    match os {
      case Linux => separator := ':';
      case Darwin => separator := ':';
      case Windows => separator := ';';
      case Other => return Failure(UnsupportedOs("choosing separator"));
    }
    var root := cfg.minecraftPath;
    var libs := d.libraries;
    var classPath := "";
    var i := 0;
    while i < |libs|
      invariant 0 <= i <= |libs|
      invariant classPath == Terminated(Cleaned(Paths(LibrariesPlan(root, os, libs[..i])), clean), separator)
    {
      classPath := AppendLibrary(classPath, root, os, libs[i], clean, separator);
      ClassPathStep(root, os, libs, i, clean, separator);
      i := i + 1;
    }
    assert libs[..i] == libs;
    JoinSnoc(Cleaned(Paths(LibrariesPlan(root, os, libs)), clean), clean(ClientPath(root, d)), separator);
    classPath := classPath + clean(ClientPath(root, d));
    return Success(classPath);
  }

  /** The class path has one entry per library, one per library with classifiers, and
      the client jar last. */
  lemma EntriesShape(root: string, os: Os, d: VersionDetails, clean: string -> string)
    requires !os.Other?
    ensures var e := Entries(root, os, d, clean);
      |e| == |d.libraries| + WithClassifiers(d.libraries) + 1 && e[|e| - 1] == clean(ClientPath(root, d))
  {
    LibrariesPlanShape(root, os, d.libraries);
  }

  /** The class path is the library entries, each followed by the separator, then the
      client jar with no separator after it. */
  lemma ClassPathEndsWithClient(root: string, os: Os, d: VersionDetails, clean: string -> string)
    requires !os.Other?
    ensures var sep := Separator(os).value;
      var cp := Join(Entries(root, os, d, clean), sep);
      cp == Terminated(Cleaned(Paths(LibrariesPlan(root, os, d.libraries)), clean), sep) + clean(ClientPath(root, d))
  {
    JoinSnoc(Cleaned(Paths(LibrariesPlan(root, os, d.libraries)), clean), clean(ClientPath(root, d)), Separator(os).value);
  }

  /** When no cleaned path contains the separator, splitting the class path at the
      separator gives back exactly its entries. */
  lemma ClassPathSplits(root: string, os: Os, d: VersionDetails, clean: string -> string)
    requires !os.Other?
    requires var e := Entries(root, os, d, clean);
      forall i :: 0 <= i < |e| ==> Separator(os).value !in e[i]
    ensures Split(Join(Entries(root, os, d, clean), Separator(os).value), Separator(os).value) == Entries(root, os, d, clean)
  {
    SplitJoin(Entries(root, os, d, clean), Separator(os).value);
  }
}
