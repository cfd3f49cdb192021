/** Value and error wrappers shared by every stage of the Swift bindings pipeline. */
module Outcomes {

  /** A value that may be missing: a rendered text, a file name, an
      extension or a path read back from a flag. */
  datatype Option<+T> = None | Some(value: T) {

    /** The value, or `default` in its place when it is missing. */
    function GetOr(default: T): T {
      match this
      case Some(v) => v
      case None => default
    }
  }

  /** The three generated artifacts, named as in the render failure messages. */
  datatype Artifact = BridgingHeader | SwiftLibrary | ModuleMap

  /** The failures the pipeline surfaces; none is recovered locally.
      `IoError` is a directory, file, listing or spawn failure (the source
      propagates the raw I/O error, which names no path); `RenderError` is a
      template failure; `ToolFailed` is a subprocess that exited unsuccessfully. */
  datatype Error =
    | IoError
    | RenderError(artifact: Artifact)
    | ToolFailed(tool: string)

  /** The `Result<()>` of an operation: finished, or aborted with an error. */
  datatype Status = Done | Failed(error: Error)

  /** A value-carrying result. */
  datatype Result<+T> = Ok(value: T) | Err(error: Error)
}
