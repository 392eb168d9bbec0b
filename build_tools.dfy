/**
 * Records shared by the client and server targets of the build script: files produced by
 * the type checker and assets handed to the uploader.
 */
module BuildTools {
  import opened Wrappers

  /** A file the type checker produced: its absolute path and its text. */
  datatype SourceFile = SourceFile(name: string, content: string)

  /** The content of an asset: bytes, or a text that `Buffer.from` encodes as UTF-8. */
  datatype AssetData = Raw(bytes: Bytes) | Utf8Text(text: string)

  /** A file to upload: its remote path and its content. */
  datatype Asset = Asset(remote: string, data: AssetData)

  /** The result of a type check: success and the emitted files. */
  datatype CheckResult = CheckResult(success: bool, files: seq<SourceFile>)
}
