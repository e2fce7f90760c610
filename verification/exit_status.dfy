/** The process exit statuses reserved in src/logtail2.h. */
module ExitStatus {

  /** Status of a run that reaches the end of main(). */
  const Success: nat := 0

  /** The reasons the program calls exit() with a non-zero status. */
  datatype Failure =
    | FailedStatLogfile   // stat of the log file; stat, open or parse of the offset file
    | FailedReadLogfile   // open or seek of the log file for reading
    | FailedWriteOffset   // offset file or cache directory cannot be written
    | FailedAllocMemory
    | ProgArgumentError
    | UserdbLookupError

  /** The exit status the program uses for a failure. */
  function Code(f: Failure): (code: nat)
    ensures code != Success
  {
    match f
    case FailedStatLogfile => 65
    case FailedReadLogfile => 66
    case FailedWriteOffset => 73
    case FailedAllocMemory => 80
    case ProgArgumentError => 81
    case UserdbLookupError => 82
  }

  /** Distinct failures are told apart by their exit status. */
  lemma CodeInjective(f: Failure, g: Failure)
    ensures Code(f) == Code(g) ==> f == g
  {
  }
}
