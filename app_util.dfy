/** What the application controllers hand back about an invocation's output
    files, and the exceptions they raise. The base controller class itself
    (process spawning, temp-file creation, parameter objects) is not part of
    this model: its contributions arrive as parameters of the members that
    need them. */
module AppUtil {

  /** A predicted output file: where it will be, and whether the controller
      believes the tool writes it (a false flag keeps the key but tells the
      caller not to open the file). */
  datatype ResultPath = ResultPath(path: string, isWritten: bool)

  /** The Python exceptions the modelled code raises, with their messages. */
  datatype AppError =
    | ValueError(message: string)
    | DataError(message: string)
    | KeyError(key: string)
    | NameError(name: string)
    | TypeError(message: string)
}
