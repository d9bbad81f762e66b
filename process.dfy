/** Option and Result values for the source's `None` and raised errors. */
module Common {

  datatype Option<T> = None | Some(value: T)
  {
    /** `x or default` for an optional value. */
    function GetOr(default: T): T
    {
      match this
      case Some(v) => v
      case None => default
    }
  }

  datatype Result<T, E> = Ok(value: T) | Err(error: E)
}

/** One external tool invocation, seen from the caller: the argument vector
    it passes to `subprocess.run` and what comes back. Nothing is executed;
    every outcome is an input of the model. */
module Process {
  import opened Common

  /** An argument vector such as `["pactl", "set-default-source", name]`. */
  type Argv = seq<string>

  /** What `subprocess.run(..., capture_output=True, text=True, timeout=t)`
      gives back: a finished process, `subprocess.TimeoutExpired`, or any
      other exception (a missing tool, an I/O error). */
  datatype Outcome =
    | Exited(returnCode: int, stdout: string, stderr: string)
    | TimedOut
    | Raised(message: string)

  /** How a client operation ends for its caller: it returns, or it raises
      an exception with a message. */
  datatype CallResult = Returns | Throws(message: string)

  /** The tool calls an operation made, in order, and how it ended. */
  datatype Invocation = Invocation(calls: seq<Argv>, result: CallResult)

  /** The guard every listing starts with: only an exit code of 0 with a
      non-empty stdout leaves text to parse; a non-zero exit, empty output,
      a timeout or an exception all leave none. */
  function ListingText(o: Outcome): (t: Option<string>)
    ensures t.Some? <==> o.Exited? && o.returnCode == 0 && o.stdout != ""
    ensures t.Some? ==> t.value == o.stdout
  {
    if o.Exited? && o.returnCode == 0 && o.stdout != "" then Some(o.stdout) else None
  }
}
