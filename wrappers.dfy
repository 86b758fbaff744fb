/** Option/Result values and the exceptions the modelled Python code can raise. */
module Wrappers {

  datatype Option<+T> = None | Some(value: T)

  datatype Result<+T, +E> = Success(value: T) | Failure(error: E)

  /** The exceptions raised by the batching code, by Python class or by message. */
  datatype Error =
    | IndexError                 // `list index out of range`
    | TypeError(what: string)    // a call with the wrong arguments, or `None` used as a list
    | NameError(name: string)    // a name that is never bound
    | UnboundLocalError(name: string)
    | ValueError(what: string)   // `np.zeros` of a negative length
    | ZeroDivisionError          // `n_files / batch_size` with a zero batch size
    | FileNotFoundError(path: string)
    | DownloadFailed             // "Failed to download files."
    | Misaligned                 // "n_batches does not match between input cloudbatch objects."
    | NothingToMove              // "You are not getting or putting any data ..."
    | UnrecognisedPassArgs       // "Unrecognised pass option ..."
    | NoFileList                 // "You need to provide file_list or file_components"
    | LengthMismatch             // "Number of GS Files does not match local files"
}
