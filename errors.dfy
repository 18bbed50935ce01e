/**
 * The crate's error enumeration and the two wrappers every other module uses.
 * The payload each variant carries in the source (a foreign library error value)
 * is dropped: only the variant matters to the model.
 */
module Errors {
  datatype ProcessingErr =
    | TextureNoCreate
    | ShaderCompileFail
    | VBNoCreate
    | IBNoCreate
    | DrawFailed
    | SwapFailed
    | FBNoCreate
    | FBDrawFailed
    | ShaderNotFound
    | IncludeNotFound
    | FullShaderNoCreate
    | FullShaderNoWrite
    | ImageNotFound
    | ImageNotSaved
    | ErrorReadingInclude
    | ErrorReadingShader
    | DisplayNoCreate
    | ContextNoCreate
    | CursorStateNotSet
    | HeadlessRendererNoBuild
    | HeadlessContextError
    | HeadlessNoCreate
    | GLFWWindowNoCreate
    | GLFWAlreadyInited
    | GLFWInternal

  datatype Option<T> = None | Some(value: T)

  /** `Result<T, ProcessingErr>` of the source. */
  datatype Result<T> = Ok(value: T) | Err(error: ProcessingErr)
}
