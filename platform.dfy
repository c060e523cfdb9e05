/** The running platform as an explicit value, and what the launcher derives from it:
    the class path separator, the launch script's name and header, the native variant. */
module Platform {
  import opened Types

  datatype Os = Linux | Windows | Darwin | Other

  /** The class path separator: `:` on the Unix-like platforms, `;` on Windows,
      none (an error for the caller) on any other platform. */
  function Separator(os: Os): (r: Option<char>)
    ensures r.Some? <==> !os.Other?
    ensures r == Some(':') <==> os.Linux? || os.Darwin?
    ensures r == Some(';') <==> os.Windows?
  {
    match os
    case Linux => Some(':')
    case Darwin => Some(':')
    case Windows => Some(';')
    case Other => None
  }

  /** The native variant of a library for the platform; none on an unknown platform. */
  function Native(os: Os, c: Classifiers): (r: Option<Artifact>)
    ensures r.Some? <==> !os.Other?
    ensures os.Linux? ==> r == Some(c.nativesLinux)
    ensures os.Windows? ==> r == Some(c.nativesWindows)
    ensures os.Darwin? ==> r == Some(c.nativesMacos)
  {
    match os
    case Linux => Some(c.nativesLinux)
    case Windows => Some(c.nativesWindows)
    case Darwin => Some(c.nativesMacos)
    case Other => None
  }

  /** The launch script: a file name and the text put before the command line. */
  datatype ScriptFile = ScriptFile(name: string, prefix: string)

  function Script(os: Os): (r: Option<ScriptFile>)
    ensures r.Some? <==> !os.Other?
    ensures os.Linux? || os.Darwin? ==> r == Some(ScriptFile("start.sh", "#! /bin/sh \n"))
    ensures os.Windows? ==> r == Some(ScriptFile("start.bat", ""))
  {
    match os
    case Linux => Some(ScriptFile("start.sh", "#! /bin/sh \n"))
    case Darwin => Some(ScriptFile("start.sh", "#! /bin/sh \n"))
    case Windows => Some(ScriptFile("start.bat", ""))
    case Other => None
  }

  /** The class path separator, the native variant and the launch script are decided on
      the same platforms; the separator and the script file agree on Windows against the
      Unix-like platforms, and only the Unix-like script carries an interpreter line. */
  lemma PlatformsAgree(os: Os, c: Classifiers)
    ensures Separator(os).Some? <==> Script(os).Some?
    ensures Native(os, c).Some? <==> Script(os).Some?
    ensures Script(os).Some? ==> (Separator(os) == Some(';') <==> Script(os).value.name == "start.bat")
    ensures Script(os).Some? ==> (Script(os).value.prefix != "" <==> Separator(os) == Some(':'))
  {
  }
}
