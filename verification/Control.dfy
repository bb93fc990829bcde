/** The job control document and the source records it holds. A source record is shared by
    reference, so it is a heap object around its contents. */
module Control {
  import opened BenchmarkEnv

  datatype SourceId = SrcUnspecified | SrcEnvoy | SrcNighthawk

  /** The oneof `source_location`; a path or url that was set may still be the empty string. */
  datatype Location = SourcePath(path: string) | SourceUrl(url: string) | NoLocation

  datatype SourceRecord = SourceRecord(
    identity: SourceId, location: Location, branch: string, commitHash: string,
    additionalHashes: seq<string>, bazelOptions: seq<string>, testSingleCommit: bool)
  {
    function Path(): string {
      if location.SourcePath? then location.path else ""
    }

    function Url(): string {
      if location.SourceUrl? then location.url else ""
    }
  }

  class SourceRepository {
    var rec: SourceRecord

    constructor (rec: SourceRecord)
      ensures this.rec == rec
    {
      this.rec := rec;
    }
  }

  datatype DockerImages = DockerImages(
    nighthawkBenchmarkImage: string, nighthawkBinaryImage: string, envoyImage: string,
    additionalEnvoyImages: seq<string>, testSingleImage: bool)

  /** A control document. Planning edits only fresh copies of it, field by field, before it
      hands them on; what changes afterwards are the source records behind the list. */
  class JobControl {
    const source: seq<SourceRepository>
    const images: DockerImages
    const environment: EnvironmentVars

    constructor (source: seq<SourceRepository>, images: DockerImages, environment: EnvironmentVars)
      ensures this.source == source && this.images == images && this.environment == environment
    {
      this.source, this.images, this.environment := source, images, environment;
    }
  }
}
