/** The front end's record types (src/types/index.ts). */
module BatchTypes {
  import opened Wrappers

  /** ProcessStatus. IDLE is declared but never assigned by the scheduler. */
  datatype Status = Idle | Queued | Uploading | Transcribing | Polishing | Completed | Error

  /** RefinedContent: the polishing service's answer. */
  datatype RefinedContent = RefinedContent(polishedText: string, summary: string, keywords: seq<string>)

  /** The browser `File` an item wraps: name, size in bytes and MIME type. */
  datatype SourceFile = SourceFile(name: string, size: nat, mimeType: string)

  /** Item ids are random strings; nothing makes them unique. */
  type Id = string

  /** BatchFile: one file's unit of work; the optional fields are `undefined` when absent. */
  datatype BatchFile = BatchFile(
    id: Id,
    file: SourceFile,
    status: Status,
    transcript: Option<string>,
    refined: Option<RefinedContent>,
    error: Option<string>,
    uploadProgress: Option<int>)
}
