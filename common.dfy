/** Values shared by every part of the model: optional values, results, and
    the exceptions the Python code raises, one constructor per kind. */
module Common {

  datatype Option<+T> = None | Some(value: T)

  /** A Python call that either returns `value` or raises `error`. */
  datatype Result<+T, +E> = Ok(value: T) | Err(error: E)

  /** A Python call that returns nothing useful or raises `error`. */
  datatype Outcome = Pass | Fail(error: Exception)

  datatype Exception =
    /** ValueError('Duplicated key: <key>') from the combination iterator. */
    | DuplicatedKey(key: string)
    /** IndexError from indexing an empty parameter set. */
    | IndexError
    /** ValueError('Failed to run the function'): every trial of one combination failed. */
    | FailedToRun
    /** ValueError('Another process is using the directory'): the lock file exists. */
    | DirectoryBusy
    /** ValueError('No log file for the experiment'). */
    | NoLogFile
    /** NotImplementedError from the base runner. */
    | NotImplemented
    /** ValueError('<command> returns non-zero value: <code>'). */
    | NonZeroExit(command: string, code: int)
    /** An OSError (FileExistsError, FileNotFoundError, IsADirectoryError,
        NotADirectoryError) raised for `path`. */
    | OsError(path: string)
    /** Any other exception a user-supplied runner raises. */
    | Raised(message: string)
}
