/**
 * How a `subprocess.run` call ended, as far as the tools look at it. Running a process is
 * outside the model: each tool takes the process's behaviour as a parameter.
 */
module Processes {

  datatype ProcessResult =
    | Completed(returnCode: int, stdout: string, stderr: string)
    | TimedOut
      /** Any other exception; `notFound` marks `FileNotFoundError`, `message` is `str(e)`. */
    | Raised(notFound: bool, message: string)
}
