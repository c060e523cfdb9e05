/** The launch script: which file, which header, and the one command line it holds. */
module Script {
  import opened Types
  import opened Errors
  import opened Platform
  import opened Layout
  import opened Fetching
  import opened Strings
  import opened ClassPath

  /** The concatenation of a list of strings, in order. */
  function Concat(parts: seq<string>): string
  {
    if parts == [] then "" else parts[0] + Concat(parts[1..])
  }

  /** The command line: the launcher's concatenation, piece by piece. */
  function CommandLine(cfg: Config, d: VersionDetails, classPath: string): string
  {
    Concat(CommandParts(cfg, d, classPath))
  }

  function CommandParts(cfg: Config, d: VersionDetails, classPath: string): seq<string>
  {
    ["java ",
     "-Xms", cfg.initialHeapSize, "m ",
     "-Xmx", cfg.maxHeapSize, "m ",
     "-cp ", classPath, " ", d.mainClass, " ",
     "--username ", cfg.username, " ",
     "--gameDir ", cfg.minecraftPath, " ",
     "--assetIndex ", d.assetIndex.id, " ",
     "--assetsDir ", AssetsPath(cfg.minecraftPath), " ",
     "--accessToken ", cfg.accessToken, " ",
     "--version ", d.id]
  }

  /** The argument vector the command line stands for: the runtime, the heap bounds,
      the class path, the entry point and the named parameters in their fixed order. */
  function LaunchArgs(cfg: Config, d: VersionDetails, classPath: string): seq<string>
  {
    ["java",
     "-Xms" + cfg.initialHeapSize + "m",
     "-Xmx" + cfg.maxHeapSize + "m",
     "-cp", classPath,
     d.mainClass,
     "--username", cfg.username,
     "--gameDir", cfg.minecraftPath,
     "--assetIndex", d.assetIndex.id,
     "--assetsDir", AssetsPath(cfg.minecraftPath),
     "--accessToken", cfg.accessToken,
     "--version", d.id]
  }

  /** Joining a suffix: its first element, the separator, then the rest joined. */
  lemma JoinSuffix(a: seq<string>, k: nat, sep: char)
    requires k + 1 < |a|
    ensures Join(a[k..], sep) == a[k] + [sep] + Join(a[k + 1..], sep)
  {
    assert a[k..][1..] == a[k + 1..];
  }

  /** Concatenating a suffix: its first piece, then the rest. */
  lemma ConcatSuffix(parts: seq<string>, i: nat)
    requires i < |parts|
    ensures Concat(parts[i..]) == parts[i] + Concat(parts[i + 1..])
  {
    assert parts[i..][1..] == parts[i + 1..];
  }

  /** An argument written as one piece that already ends in the space. */
  lemma OnePiece(a: seq<string>, k: nat, p: seq<string>, m: nat)
    requires k + 1 < |a| && m < |p|
    requires a[k] + " " == p[m]
    requires Join(a[k + 1..], ' ') == Concat(p[m + 1..])
    ensures Join(a[k..], ' ') == Concat(p[m..])
  {
    JoinSuffix(a, k, ' ');
    ConcatSuffix(p, m);
  }

  /** An argument written as its value, then a separate space. */
  lemma TwoPieces(a: seq<string>, k: nat, p: seq<string>, m: nat)
    requires k + 1 < |a| && m + 1 < |p|
    requires a[k] == p[m] && p[m + 1] == " "
    requires Join(a[k + 1..], ' ') == Concat(p[m + 2..])
    ensures Join(a[k..], ' ') == Concat(p[m..])
  {
    JoinSuffix(a, k, ' ');
    ConcatSuffix(p, m);
    ConcatSuffix(p, m + 1);
  }

  /** An argument written as a prefix, a value and a suffix ending in the space. */
  lemma ThreePieces(a: seq<string>, k: nat, p: seq<string>, m: nat)
    requires k + 1 < |a| && m + 2 < |p|
    requires a[k] + " " == p[m] + p[m + 1] + p[m + 2]
    requires Join(a[k + 1..], ' ') == Concat(p[m + 3..])
    ensures Join(a[k..], ' ') == Concat(p[m..])
  {
    JoinSuffix(a, k, ' ');
    ConcatSuffix(p, m);
    ConcatSuffix(p, m + 1);
    ConcatSuffix(p, m + 2);
  }

  /** Arguments 12 to 16 of the command line, each with its pieces. */
  lemma JoinsLate(a: seq<string>, p: seq<string>)
    requires |a| == 18 && |p| == 29
    requires a[12] + " " == p[21]
    requires a[13] == p[22] && p[23] == " "
    requires a[14] + " " == p[24]
    requires a[15] == p[25] && p[26] == " "
    requires a[16] + " " == p[27]
    requires a[17] == p[28]
    ensures Join(a[12..], ' ') == Concat(p[21..])
  {
    assert Join(a[17..], ' ') == Concat(p[28..]) by {
      assert a[17..] == [a[17]];
      ConcatSuffix(p, 28);
      assert p[29..] == [];
    }
    OnePiece(a, 16, p, 27);
    TwoPieces(a, 15, p, 25);
    OnePiece(a, 14, p, 24);
    TwoPieces(a, 13, p, 22);
    OnePiece(a, 12, p, 21);
  }

  /** Arguments 6 to 11 of the command line, each with its pieces. */
  lemma JoinsMiddle(a: seq<string>, p: seq<string>)
    requires |a| == 18 && |p| == 29
    requires a[6] + " " == p[12]
    requires a[7] == p[13] && p[14] == " "
    requires a[8] + " " == p[15]
    requires a[9] == p[16] && p[17] == " "
    requires a[10] + " " == p[18]
    requires a[11] == p[19] && p[20] == " "
    requires Join(a[12..], ' ') == Concat(p[21..])
    ensures Join(a[6..], ' ') == Concat(p[12..])
  {
    TwoPieces(a, 11, p, 19);
    OnePiece(a, 10, p, 18);
    TwoPieces(a, 9, p, 16);
    OnePiece(a, 8, p, 15);
    TwoPieces(a, 7, p, 13);
    OnePiece(a, 6, p, 12);
  }

  /** Arguments 0 to 5 of the command line, each with its pieces. */
  lemma JoinsEarly(a: seq<string>, p: seq<string>)
    requires |a| == 18 && |p| == 29
    requires a[0] + " " == p[0]
    requires a[1] + " " == p[1] + p[2] + p[3]
    requires a[2] + " " == p[4] + p[5] + p[6]
    requires a[3] + " " == p[7]
    requires a[4] == p[8] && p[9] == " "
    requires a[5] == p[10] && p[11] == " "
    requires Join(a[6..], ' ') == Concat(p[12..])
    ensures Join(a[0..], ' ') == Concat(p[0..])
  {
    TwoPieces(a, 5, p, 10);
    TwoPieces(a, 4, p, 8);
    OnePiece(a, 3, p, 7);
    ThreePieces(a, 2, p, 4);
    ThreePieces(a, 1, p, 1);
    OnePiece(a, 0, p, 0);
  }

  /** Eighteen arguments joined by spaces are twenty-nine pieces concatenated, when
      each argument but the last, followed by its space, is the concatenation of its
      pieces. */
  lemma JoinsPieces(a: seq<string>, p: seq<string>)
    requires |a| == 18 && |p| == 29
    requires a[0] + " " == p[0]
    requires a[1] + " " == p[1] + p[2] + p[3]
    requires a[2] + " " == p[4] + p[5] + p[6]
    requires a[3] + " " == p[7]
    requires a[4] == p[8] && p[9] == " "
    requires a[5] == p[10] && p[11] == " "
    requires a[6] + " " == p[12]
    requires a[7] == p[13] && p[14] == " "
    requires a[8] + " " == p[15]
    requires a[9] == p[16] && p[17] == " "
    requires a[10] + " " == p[18]
    requires a[11] == p[19] && p[20] == " "
    requires a[12] + " " == p[21]
    requires a[13] == p[22] && p[23] == " "
    requires a[14] + " " == p[24]
    requires a[15] == p[25] && p[26] == " "
    requires a[16] + " " == p[27]
    requires a[17] == p[28]
    ensures Join(a, ' ') == Concat(p)
  {
    JoinsLate(a, p);
    JoinsMiddle(a, p);
    JoinsEarly(a, p);
    assert a[0..] == a && p[0..] == p;
  }

  /** The command line is its arguments separated by single spaces. */
  lemma CommandLineJoinsArgs(cfg: Config, d: VersionDetails, classPath: string)
    ensures CommandLine(cfg, d, classPath) == Join(LaunchArgs(cfg, d, classPath), ' ')
  {
    JoinsPieces(LaunchArgs(cfg, d, classPath), CommandParts(cfg, d, classPath));
  }

  /** When no argument contains a space, the script's command line splits back into
      exactly the argument vector. */
  lemma CommandLineSplits(cfg: Config, d: VersionDetails, classPath: string)
    requires var a := LaunchArgs(cfg, d, classPath);
      forall i :: 0 <= i < |a| ==> ' ' !in a[i]
    ensures Split(CommandLine(cfg, d, classPath), ' ') == LaunchArgs(cfg, d, classPath)
  {
    CommandLineJoinsArgs(cfg, d, classPath);
    SplitJoin(LaunchArgs(cfg, d, classPath), ' ');
  }

  /** The UTF-8 encoding of one character. */
  function EncodeChar(c: char): (r: seq<byte>)
    ensures 1 <= |r| <= 4
    ensures (c as int < 0x80) <==> (|r| == 1)
    ensures c as int < 0x80 ==> r == [c as int as byte]
  {
    var n := c as int;
    if n < 0x80 then [n as byte]
    else if n < 0x800 then [(0xC0 + n / 0x40) as byte, (0x80 + n % 0x40) as byte]
    else if n < 0x10000 then [(0xE0 + n / 0x1000) as byte, (0x80 + n / 0x40 % 0x40) as byte, (0x80 + n % 0x40) as byte]
    else [(0xF0 + n / 0x40000) as byte, (0x80 + n / 0x1000 % 0x40) as byte,
          (0x80 + n / 0x40 % 0x40) as byte, (0x80 + n % 0x40) as byte]
  }

  /** The bytes written for a string. */
  function Utf8(s: string): (r: seq<byte>)
    ensures |r| >= |s|
  {
    if s == [] then [] else EncodeChar(s[0]) + Utf8(s[1..])
  }

  lemma {:induction false} Utf8Append(a: string, b: string)
    ensures Utf8(a + b) == Utf8(a) + Utf8(b)
  {
    if a == [] {
      assert a + b == b;
    } else {
      assert (a + b)[1..] == a[1..] + b;
      Utf8Append(a[1..], b);
    }
  }

  /** The script text: its header, then the command line. */
  function ScriptText(file: ScriptFile, cfg: Config, d: VersionDetails, classPath: string): string
  {
    file.prefix + CommandLine(cfg, d, classPath)
  }

  /** What writing the launch script does to the filesystem: nothing but the error on an
      unknown platform; otherwise the platform's script file is created and written with
      its header and the command line over the run's class path. */
  function ScriptEffect(files: Files, cfg: Config, os: Os, d: VersionDetails,
                        clean: string -> string, env: Env): (r: (Status, Files))
    ensures os.Other? ==> r == (Failed(UnsupportedOs("choosing separator")), files)
    ensures r.0.Done? <==> !os.Other? && env.create(Platform.Script(os).value.name).Written?
    ensures r.0.Done? ==>
      var file := Platform.Script(os).value;
      var classPath := Join(Entries(cfg.minecraftPath, os, d, clean), Separator(os).value);
      r.1 == files[file.name := Utf8(ScriptText(file, cfg, d, classPath))]
    ensures forall q :: q in files ==> q in r.1
    ensures forall q :: q in files && q != "start.sh" && q != "start.bat" ==> r.1[q] == files[q]
  {
    if os.Other? then (Failed(UnsupportedOs("choosing separator")), files)
    else
      var file := Platform.Script(os).value;
      var classPath := Join(Entries(cfg.minecraftPath, os, d, clean), Separator(os).value);
      WriteFile(files, file.name, Utf8(ScriptText(file, cfg, d, classPath)), env)
  }

  /** Writing the script again after it was written changes nothing: the same bytes go to
      the same file. */
  lemma ScriptEffectIdempotent(files: Files, cfg: Config, os: Os, d: VersionDetails,
                               clean: string -> string, env: Env)
    requires ScriptEffect(files, cfg, os, d, clean, env).0.Done?
    ensures var once := ScriptEffect(files, cfg, os, d, clean, env);
      ScriptEffect(once.1, cfg, os, d, clean, env) == once
  {
    var file := Platform.Script(os).value;
    var classPath := Join(Entries(cfg.minecraftPath, os, d, clean), Separator(os).value);
    var data := Utf8(ScriptText(file, cfg, d, classPath));
    var once := ScriptEffect(files, cfg, os, d, clean, env).1;
    assert once == files[file.name := data];
    assert once[file.name := data] == once;
  }

  /** Writes the launch script: `start.sh` with an interpreter line on the Unix-like
      platforms, `start.bat` on Windows, an error elsewhere. An existing script is
      overwritten. */
  method CreateExecutableFile(fs: FileSystem, cfg: Config, os: Os, d: VersionDetails,
                              clean: string -> string, env: Env) returns (status: Status)
    modifies fs
    ensures os.Other? ==> status == Failed(UnsupportedOs("choosing separator")) && fs.files == old(fs.files)
    ensures !os.Other? ==>
      var file := Platform.Script(os).value;
      var classPath := Join(Entries(cfg.minecraftPath, os, d, clean), Separator(os).value);
      (status, fs.files) == WriteFile(old(fs.files), file.name, Utf8(ScriptText(file, cfg, d, classPath)), env)
    ensures (status, fs.files) == ScriptEffect(old(fs.files), cfg, os, d, clean, env)
  {
    var cp := CreateClassPath(cfg, os, d, clean);
    if cp.Failure? {
      return Failed(cp.error);
    }
    var fileName: string, prefix: string;
    match os {
      case Linux => fileName, prefix := "start.sh", "#! /bin/sh \n";
      case Darwin => fileName, prefix := "start.sh", "#! /bin/sh \n";
      case Windows => fileName, prefix := "start.bat", "";
    }
    var data := Utf8(prefix + CommandLine(cfg, d, cp.value));
    match env.create(fileName)
    case CreateFails =>
      return Failed(FilesystemError(fileName));
    case WriteFails(n) =>
      fs.files := fs.files[fileName := Prefix(data, n)];
      return Failed(FilesystemError(fileName));
    case Written =>
      fs.files := fs.files[fileName := data];
      return Done;
  }
}
