/** The launcher's data model: the parsed manifest documents, the run configuration
    and the error kinds every stage reports. */
module Types {

  /** Bytes of a downloaded body or of a file on disk. */
  newtype byte = x: int | 0 <= x < 256

  /** The nil-able reference of the documents (`*Classifiers`). */
  datatype Option<+T> = None | Some(value: T)

  /** The run configuration that the launcher otherwise keeps in process-wide variables. */
  datatype Config = Config(
    minecraftPath: string,
    username: string,
    minecraftVersion: string,
    accessToken: string,
    initialHeapSize: string,
    maxHeapSize: string)

  /** One entry of the version index. */
  datatype Version = Version(id: string, kind: string, url: string, time: string, releaseTime: string)

  datatype Latest = Latest(release: string, snapshot: string)

  /** The version index document. */
  datatype VersionManifest = VersionManifest(latest: Latest, versions: seq<Version>)

  /** A downloadable file: a path relative to the libraries directory and where to get it.
      The declared digest and size are not kept: nothing checks them. */
  datatype Artifact = Artifact(path: string, url: string)

  /** The per-platform native variants of a library. A variant the document does not
      mention is the zero artifact (empty path, empty URL). */
  datatype Classifiers = Classifiers(nativesLinux: Artifact, nativesMacos: Artifact, nativesWindows: Artifact)

  datatype LibDownloads = LibDownloads(artifact: Artifact, classifiers: Option<Classifiers>)

  datatype Library = Library(name: string, downloads: LibDownloads)

  /** Reference to the asset index document of a version. */
  datatype AssetIndex = AssetIndex(id: string, url: string)

  datatype DownloadItem = DownloadItem(url: string)

  /** Only the client download is used by the launcher. */
  datatype Downloads = Downloads(client: DownloadItem)

  /** The version detail document (the fields the launcher reads). */
  datatype VersionDetails = VersionDetails(
    assetIndex: AssetIndex,
    downloads: Downloads,
    id: string,
    libraries: seq<Library>,
    mainClass: string)

  /** One content-addressed resource of the asset index. */
  datatype Asset = Asset(hash: string)

  /** The asset index document: logical resource name to resource. */
  datatype AssetsData = AssetsData(objects: map<string, Asset>)
}

/** Error kinds and the two result shapes used by the stages. */
module Errors {

  datatype Error =
    | NotFound(version: string)          // no index entry has the requested id
    | FetchError(url: string)            // the HTTP request or reading its body failed
    | FilesystemError(path: string)      // creating a directory, creating or writing a file failed
    | UnsupportedOs(context: string)     // the running platform is not one of the three known ones
    | Panic(hash: string)                // slicing a resource hash shorter than two bytes
    | DecodeError(url: string)           // a document could not be retrieved or decoded

  /** A stage that produces a value. */
  datatype Result<+T> = Success(value: T) | Failure(error: Error)

  /** A stage that only succeeds or fails (Go's `error`, nil meaning success). */
  datatype Status = Done | Failed(error: Error)
}
