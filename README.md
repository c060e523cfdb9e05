# A verified model of the game launcher's install pipeline

The launcher (`main.go`) installs one version of the game under an installation root and
writes a launch script. It runs as a fixed sequence of stages:

1. It reads the version index and picks the first entry whose id is the requested version.
2. It reads that version's details.
3. It downloads every library, plus the library's native variant for the running platform.
4. It downloads the client jar, then the asset index document, then every resource object.
5. It writes `start.sh` (Linux, macOS) or `start.bat` (Windows). The script holds one
   `java` command line with the class path and the launch parameters.

Each download is skipped when there is no URL or when the target file already exists. The
first error ends the run.

The model is split into eleven modules:

- `Types` mirrors the decoded documents of `model.go` and the run configuration. The
  configuration is the global variables of `main.go:23`, held in a record.
- `Errors` holds the error kinds, `Result` and the stage `Status`.
- `Platform` holds the platform (`Linux | Windows | Darwin | Other`, standing for the
  running system's tag) and the three platform tables: separator, native variant and
  script file.
- `Strings` holds joining with a separator (`Join`), terminating every element with one
  (`Terminated`) and splitting at one (`Split`), with the lemmas that splitting undoes
  joining.
- `Layout` holds the installation tree: library, client jar, asset index and sharded
  object paths, and the sharded resource URL.
- `Fetching` models `download` over an abstract filesystem:
  - a `FileSystem` class whose one field maps paths to bytes;
  - an environment of oracles for the network, directory creation and file creation.

  A stage's downloads are modelled as a plan of steps (`Step`). `Run` carries a plan out
  fail-fast. The general facts about stages are proved once, about `Run`: fail-fast,
  append-only, idempotence, success conditions and order independence.
- `Resolve` holds:
  - the version lookup (`GetVersion`, a loop proved against `FirstMatching`);
  - the library plan and `DownloadLibraries`, a loop proved equal to running that plan;
  - the client and asset-index downloads.
- `Resources` models the resource stage. It loops over the asset map in an arbitrary
  iteration order, returns that order as a ghost value, and is proved against the plan of
  that order. The lemmas show that the outcome does not depend on the order.
- `ClassPath` models `createClassPath`. It is a loop accumulating the class path string,
  proved equal to the separator-join of its entries. The entries are the library plan's
  paths, cleaned, then the cleaned client jar.
- `Script` holds the launch script's text: header plus command line. It is proved to be
  the 18-argument vector joined by spaces. It also holds the file written, byte-encoded.
- `Pipeline` models `main`. `Outcome` is the whole run as a function, stage by stage, with
  the stage labels of its error messages. `Launch` runs the stage methods and is proved to
  give `Outcome`'s report and files for the iteration order its resource stage took.

## Model

| member | source | states |
|---|---|---|
| Resolve.FirstMatching | main.go:107-114 | Result is absent exactly when no index entry has the id; otherwise it is an entry with that id, and every earlier entry has a different id (first exact match) |
| Resolve.GetVersion | main.go:107-114 | Linear search returns the first exact match, or fails with `NotFound` naming the requested version exactly when there is none |
| Layout.AssetsPath | main.go:25-27 | Assets directory: the root followed by `/assets/` |
| Layout.LibrariesPath | main.go:131 | Libraries directory: the root followed by `/libraries/`, as both the library loop and the class path build it |
| Layout.ClientPath | main.go:29-31 | Client jar: `root/versions/<id>/<id>.jar` for the version's id |
| Layout.IndexPath | main.go:203-205 | Asset index document: `<assets directory>indexes/<index id>.json` |
| Layout.ObjectsPath | main.go:190 | Objects directory: `<assets directory>objects/` |
| Layout.Sharded | main.go:193-194 | Sharded name below a base: the base, the hash's first two characters, `/`, then the whole hash |
| Layout.ObjectUrl | main.go:193 | Remote location of an object: the resources base, `/`, then the sharded hash |
| Layout.ObjectPath | main.go:194 | Local file of an object: the sharded hash below the objects directory |
| Layout.ParentDir | main.go:217 | Directory part of a path: everything before the last `/`, `/` for a path starting with its only slash, `.` for a path with none; unlike `path.Dir`, the result is not cleaned |
| Layout.ObjectLayout | main.go:189-195 | Object path is `root/assets/objects/<hash[0:2]>/<hash>`; URL is `<base>/<hash[0:2]>/<hash>`; both determine the hash; for a hash without `/`, the object's parent directory is its shard directory |
| Layout.ShardedInjective | main.go:193-194 | Below a fixed base, the sharded name determines the hash |
| Layout.ClientPathInjective | main.go:29-31 | Client jar path `root/versions/<id>/<id>.jar` determines the version id |
| Layout.LayoutDisjoint | main.go:130-210 | A library file, the client jar, the asset index and a resource object never share a path string (compared as strings, before the operating system resolves `.`, `..` or repeated slashes) |
| Layout.ParentDirOfChild | main.go:217 | `ParentDir(dir + "/" + name)` is `dir` when the name has no slash and `dir` is not empty |
| Platform.Separator | main.go:160-167 | Separator is `:` exactly on Linux and macOS, `;` exactly on Windows, and absent on any other platform |
| Platform.Native | main.go:173-181 | Native variant is the platform's own classifier on the three known platforms and absent otherwise |
| Platform.Script | main.go:256-265 | `start.sh` with the interpreter line on Linux and macOS, `start.bat` with no header on Windows, nothing otherwise |
| Platform.PlatformsAgree | main.go:160-181 | Separator, native variant and script are decided on the same platforms; `;` goes with `start.bat` and `:` with the interpreter line |
| Fetching.WriteFile | main.go:233-242 | Creating and writing one file: success exactly when the write completes, leaving exactly the data; a failed create changes nothing; only that path changes |
| Fetching.Fetched | main.go:222-231 | Body a request of the URL yields, whatever its HTTP status; empty on a transport failure |
| Fetching.Skipped | main.go:213-215 | A download has nothing to do exactly when its URL is empty or a file exists at its path |
| Fetching.Completes | main.go:217-242 | An attempted download goes through exactly when the parent directory can be made, the request yields a body and the whole body is written |
| Fetching.PathsOfDownloads | main.go:133-147 | For a plan of downloads only, the target paths are the steps' paths, one per step and position by position |
| Fetching.DownloadEffect | main.go:212-245 | No URL or an existing file: success, nothing changes, nothing requested. Otherwise success exactly when the directory, request and write all go through, and the new file then holds exactly the fetched body. Existing files are never altered; at most the target path is added; one request unless skipped or the directory fails |
| Fetching.FileSystem.Download | main.go:212-245 | The imperative download's status and new filesystem are those of `DownloadEffect` |
| Fetching.DownloadIdempotent | main.go:213-215 | Repeating a download that succeeded or left a file does nothing and requests nothing |
| Fetching.TruncatedFileIsKept | main.go:233-242 | A write failing part-way leaves a truncated file; every later download of that path skips it as complete |
| Fetching.Run | main.go:130-155 | Running a stage's plan never alters or removes an existing file and only adds files at the plan's paths |
| Fetching.RunAppend | main.go:130-155 | Two plans in sequence: the first, then the second only if the first succeeded, from where the first left the files |
| Fetching.FailFast | main.go:132-135 | After a failed prefix, later steps change nothing and request nothing |
| Fetching.AbortFails | main.go:146-150 | A plan containing an error step never succeeds |
| Fetching.SuccessMaterializes | main.go:212-245 | A plan that succeeded had no error step and left a file at every path it had a URL for |
| Fetching.RerunLater | main.go:212-216 | A plan that succeeded, run again on any filesystem that kept its files, succeeds with no change and no request |
| Fetching.RunIdempotent | main.go:213-215 | Running a plan again on what its successful run left changes nothing and makes no request |
| Fetching.RunSucceedsIff | main.go:192-200 | For a plan where one path means one URL, success holds iff every step is skipped or would complete against the initial files |
| Fetching.RunSuccessFiles | main.go:192-200 | After a successful coherent run, every new file came from some step, holding that step's body; every step's file is in place |
| Fetching.SameNewFiles | main.go:192-200 | Two runs over the same steps adding only files justified by those steps leave the same filesystem |
| Fetching.OrderIndependent | main.go:192-200 | Two orderings of the same coherent steps agree on success and, when successful, on the files they leave |
| Fetching.RequestedWereMissing | main.go:212-226 | Every request is for a step whose URL is non-empty and whose file was missing at the start |
| Fetching.RequestsOnce | main.go:192-200 | When one URL means one path, no URL is requested twice in a run |
| Resolve.LibraryPlan | main.go:132-153 | One library's downloads: its artifact below the libraries directory, then, when it has classifiers, the platform's native variant below the same directory, or the unsupported-platform error on an unknown platform |
| Resolve.LibrariesPlan | main.go:130-155 | The library stage's downloads: each library's downloads, in the order of the list |
| Resolve.ClientStep | main.go:208-210 | The client jar's download: the version's client URL to the client jar path |
| Resolve.IndexStep | main.go:203-206 | The asset index's download: its URL to the asset index document path |
| Resolve.LibrariesPlanShape | main.go:130-155 | On a known platform, one download per library plus one per library with classifiers, with no error step, every path below the libraries directory |
| Resolve.UnsupportedOsFails | main.go:146-150 | A library with classifiers on an unknown platform makes the library stage fail |
| Resolve.PlatformIrrelevantWithoutClassifiers | main.go:137-138 | Without classifiers, the library stage does not depend on the platform |
| Resolve.LibrariesFailFast | main.go:132-135 | Once the first `i` libraries failed, later libraries are not looked at |
| Resolve.LibrariesPlanConcat | main.go:131-154 | Plan of concatenated library lists is the concatenation of their plans |
| Resolve.DownloadLibrary | main.go:132-153 | One loop iteration: artifact, then the platform's native variant, or the unsupported-platform error |
| Resolve.DownloadNext | main.go:132-153 | One turn of the library loop: a failure is the outcome of the whole stage from that library on; after a success, the rest of the stage from the new files has that same outcome |
| Resolve.DownloadLibraries | main.go:130-155 | The imperative loop's status and files are those of running the library plan |
| Resolve.DownloadClient | main.go:208-210 | Downloads the client jar to `versions/<id>/<id>.jar` |
| Resolve.DownloadIndexJson | main.go:203-206 | Downloads the asset index document to `assets/indexes/<id>.json` |
| Resources.ResourceStep | main.go:193-195 | One object's download: the sharded URL to the sharded local file, or the panic error for a hash shorter than two |
| Resources.ResourcesPlan | main.go:192-198 | Resource stage's downloads: one per object, in the given iteration order of the map |
| Resources.ResourcesPlanKeyed | main.go:192-195 | In the resource plan, one path means one URL and one URL means one path |
| Resources.ResourcesOrderIndependent | main.go:192-200 | Any two iteration orders of the asset map agree on success and, when the stage succeeds, on the resulting files |
| Resources.ResourcesRerun | main.go:192-198 | Once the resource stage succeeded, running it again in any iteration order over files that kept its own succeeds with no change and no request |
| Resources.ResourcesRequestedOnce | main.go:192-200 | Objects sharing a hash cost one request at most |
| Resources.ResourcesOutcome | main.go:192-200 | Stage succeeds iff every object's download can go through; then every object's file exists and new ones hold the body of their URL |
| Resources.DownloadResources | main.go:189-201 | Loop over the map in some iteration order: equal to running that order's plan; succeeds iff every object is fine; then every object file exists; a hash shorter than two is an error |
| ClassPath.Cleaned | main.go:170-185 | `filepath.Clean` applied to every path, in order |
| ClassPath.Entries | main.go:168-185 | Class path entries: the paths of the library stage's downloads, cleaned and in order, then the cleaned client jar path |
| ClassPath.LibraryEntries | main.go:170-183 | One library's class path part: its cleaned artifact path and separator, then its cleaned native path and separator when it has classifiers |
| ClassPath.AppendLibrary | main.go:170-183 | Loop body appends exactly that library's class path part |
| ClassPath.ClassPathStep | main.go:169-184 | Class path of one more library continues the previous one |
| ClassPath.CreateClassPath | main.go:157-187 | Fails, with the separator error, exactly on an unknown platform, even with no libraries; otherwise the entries joined by the platform's separator |
| ClassPath.EntriesShape | main.go:168-186 | `|libs| + |libs with classifiers| + 1` entries, the cleaned client jar last |
| ClassPath.ClassPathEndsWithClient | main.go:185 | Every library entry followed by the separator, then the client jar with none after it |
| ClassPath.ClassPathSplits | main.go:168-186 | When no entry contains the separator, splitting the class path at it gives back exactly the entries |
| Script.CommandParts | main.go:273-284 | The command line's pieces in the order the launcher concatenates them: `java `, the heap flags, `-cp `, the class path, the main class and the named parameters with their values |
| Script.CommandLine | main.go:273-284 | The command line: those pieces concatenated |
| Script.LaunchArgs | main.go:273-284 | The argument vector the command line stands for: `java`, the two heap flags, `-cp` and the class path, the main class, then each named parameter followed by its value |
| Script.ScriptText | main.go:273 | Script text: the platform's header, then the command line |
| Script.Utf8 | main.go:273 | Bytes written: each character's UTF-8 encoding, in order |
| Script.CommandLineJoinsArgs | main.go:273-284 | Concatenated command line is exactly the 18 arguments (`java`, heap flags, `-cp`, class path, main class, named parameters in order) separated by single spaces |
| Script.CommandLineSplits | main.go:273-284 | When no argument contains a space, the command line splits back into exactly that argument vector |
| Script.EncodeChar | main.go:273 | UTF-8 encoding of one character is one to four bytes, a single byte exactly for ASCII |
| Script.Utf8Append | main.go:273 | Encoding a concatenation is the concatenation of the encodings |
| Script.ScriptEffect | main.go:251-288 | Writing the script: on an unknown platform the separator error and nothing written; otherwise success exactly when the platform's script file can be created and fully written, and then that file holds the header and command line; every existing path stays, and every file but the two script names is unchanged |
| Script.ScriptEffectIdempotent | main.go:268-284 | Writing the script again after it was written leaves the same status and files |
| Script.CreateExecutableFile | main.go:251-288 | Unknown platform: the class path error, nothing written. Otherwise the platform's script file is created with its header and command line, as `WriteFile` describes |
| Pipeline.Locate | main.go:40-57 | The document stages: the details are found exactly when the version index was read, an entry has the requested id and its details were read; otherwise the first failing of "get version manifest", "get version" (with `NotFound`) or "get version details" and its error |
| Pipeline.Install | main.go:59-77 | The download stages up to the asset index in source order, each after the previous succeeded: a failure stops under "get libraries", "get client", "get assets" or "get assets index json" with the files that stage left; every existing file is unchanged |
| Pipeline.Prepare | main.go:40-77 | The stages up to the asset index: the document stages, then the download stages; a stopped run carries an abort report, and every existing file is unchanged |
| Pipeline.Finish | main.go:79-87 | What follows: a stopped run keeps its report and files; otherwise the resource stage, stopping under "get resources", then the script, stopping under "create executable file", and `Completed` when both succeed; existing paths stay and all but the script files are unchanged |
| Pipeline.Outcome | main.go:33-90 | A whole run: the first failing stage ends it under its label with the files as that stage left them, and a run whose every stage succeeds is `Completed`; existing paths stay and all but the script files are unchanged |
| Pipeline.PlanPresence | main.go:33-90 | Files a successful stage left are still there after later stages that keep every path |
| Pipeline.InstallReached | main.go:59-77 | A run through the asset index ran the library, client and index downloads successfully one after another, and the asset document came from the details' URL |
| Pipeline.CompletedFinish | main.go:79-87 | A completed run ran the resource stage in the given order and the script write, both successfully, and its files are the script write's |
| Pipeline.InstalledBy | main.go:59-88 | When libraries, client, index, resources and script all succeed one after another, the platform is known and the whole installation is in place |
| Pipeline.CompletedInstalls | main.go:33-90 | A completed run was on a known platform, got through the asset index, and left every library, the client jar, the index, every object and the script holding the right text |
| Pipeline.InstallAgain | main.go:59-77 | Download stages that got through the asset index, run again over files that kept theirs, get through again with no change, and the library, client and index stages request nothing |
| Pipeline.RerunChangesNothing | main.go:33-90 | Running the launcher again after a completed run, in any resource order, completes again with the same files: every download is skipped, so the library, client, index and resource stages request nothing, and the script is rewritten byte for byte |
| Pipeline.PrepareFound | main.go:40-73 | A run through the asset index found the version, and its details and asset document are those the documents give |
| Pipeline.Downloads | main.go:59-77 | The download stages as statements: the report or progress and the files are those of `Install` |
| Pipeline.InstallVersion | main.go:59-88 | The stages after the details as statements: report and files are those of `Finish` after `Install`, with the resource stage's order returned |
| Pipeline.Launch | main.go:33-90 | The report and the files are exactly those of `Outcome` for the iteration order the resource stage took: each failing stage, early or late, aborts under its own label with the files that stage left and no later stage run, and a run whose every stage succeeds completes. In particular a failed index read, a missing version or failed details abort with nothing written; every file other than the two script names is kept unchanged; a completed run left the whole installation |

## Left out

- HTTP and JSON decoding (`doRequest`, main.go:116-128) are not modelled:
  - the decoded documents the pipeline reads are oracles from URL to a document or an error;
  - a download's body is an oracle from URL to a body or a transport failure.
- A non-success HTTP status is not an error in the launcher: `http.Get` succeeds and the
  body is saved like any other (main.go:222-242). A 404 page becomes the file.
- Flag parsing (`getUserConfiguration`, main.go:92-105): the configuration is a record
  given to the model.
- `runMinecraft` (main.go:247-249) is never called.
- Timing and printing in `main` are I/O only. `Launch` returns the stage name and the
  cause that `main` prints.
- The filesystem holds files only. `os.Stat` succeeding on a directory at the target path
  is not modelled. `MkdirAll` and its permissions are reduced to a yes/no oracle for the
  parent directory.
- Closing files is not modelled. The deferred `Close` calls (main.go:237, main.go:286)
  have their results ignored, so closing cannot change any outcome the model states.
- `filepath.Clean` is the parameter `clean`, left uninterpreted. `path.Dir` is `ParentDir`
  without the final `Clean`.
- The oracles are functions: the network, directory creation and file creation answer
  the same way for the same URL or path throughout a run.
- The request log of a run (`Effect.requests`) exists only in the functions. The
  imperative methods do not record it.
- SHA1 and size fields of `model.go` are never checked by the code. `model/model.go` is
  unused by `main.go`.
- Slicing a hash shorter than two bytes is a runtime panic in the launcher. The model
  reports it as the resource stage's error `Panic(hash)`.
- Hashes are taken to be ASCII hex digests, for which bytes and characters agree. Go
  measures and slices `hash[0:2]` in bytes, the model in characters. A hash with
  non-ASCII characters would shard differently in the model, or panic in one and not
  the other.
- Paths are compared as strings. `os.Stat` and `os.Create` receive paths that are not
  normalised (main.go:133, main.go:213, main.go:233), and the operating system resolves
  `.`, `..` and repeated slashes in them. Two different strings naming the same file,
  such as `libraries/x/../b.jar` and `libraries/b.jar`, are two files in the model; a
  library path with `..` could name the client jar's file. This aliasing is not modelled.
- `createClassPath` and `createExecutableFile` each have a second unsupported-platform
  branch (main.go:180-181, main.go:263-264). Neither can be reached, because the
  separator switch rejects such platforms first. The model leaves both branches out.
- Configuration fields are strings, as in the code. Heap sizes are not checked to be
  numbers.
- The script text becomes bytes by UTF-8 encoding, as Go's `[]byte(string)` does for
  valid text. Go strings holding invalid UTF-8 are not modelled.
- `Pipeline.Launch`: idempotence of a whole second run is stated about `Outcome`
  (`Pipeline.RerunChangesNothing`) for the same documents and environment, not as a
  relation between two calls of `Launch`. The documents are requested afresh and the
  script is rewritten on every run.
