/** Results and failures shared by the driver's stages. */
module Outcomes {

  /** Why a stage stops the program (the driver prints a message and calls `exit(1)`). */
  datatype Error =
    | TooFewFiles            // fewer than two sequence files after the command
    | NotFound(path: string) // a file could not be opened for reading

  datatype Result<T> = Ok(value: T) | Err(error: Error)

  datatype Option<T> = None | Some(value: T)

  /** How a whole run of the tool ends. */
  datatype Status =
    | Completed
    | InvalidCommand(command: string) // diagnostic printed, normal return
    | Exited(error: Error)            // `exit(1)` after a diagnostic
}
