/** Identities, exit reasons and signals shared by every component. */
module Types {

  /** A process is known by its position in the system's list of processes.
      Position 0 is never a live process: it stands for `UndefinedPID`. */
  type Pid = nat

  const UNDEFINED: Pid := 0

  /** References are drawn from a counter, so every one is fresh. */
  type Ref = nat

  datatype Option<+T> = None | Some(value: T)

  /** The exit reasons that the runtime and the layers above it tell apart. */
  datatype Reason =
    | Normal
    | Kill
    | Shutdown(info: string)
    | SupervisorShutdown
    | NoProc
    | Timeout
    | Ignore
    | Stopped
    | Exception(detail: string)

  /** What a runnable hands over when it is finished: nothing, an exit reason, or any other error. */
  datatype Err = NilErr | ReasonErr(reason: Reason) | PlainErr(text: string)

  /** The reason a process exits with; an error that is no exit reason is wrapped as an exception. */
  function ToReason(e: Err): Reason {
    match e
    case NilErr => Exception("nil")
    case ReasonErr(reason) => reason
    case PlainErr(text) => Exception(text)
  }

  datatype Signal =
    | MonitorSig(ref: Ref, monitor: Pid, monitored: Pid)
    | DemonitorSig(ref: Ref, origin: Pid)
    | LinkSig(pid: Pid)
    | UnlinkSig(pid: Pid)
    | MessageSig(term: int)
    | DownSig(proc: Pid, ref: Ref, reason: Reason)
    | ExitSig(sender: Pid, receiver: Pid, reason: Reason, link: bool)

  /** What a runnable reads from its own inbox. */
  datatype Msg =
    | Term(term: int)
    | DownMsg(proc: Pid, ref: Ref, reason: Reason)
    | ExitMsg(proc: Pid, reason: Reason, link: bool)
}
