/** Spawning a subprocess and waiting for it, with its outcome as an input. */
module Process {
  import opened Outcomes

  /** A program name and its argument vector. */
  datatype Command = Command(program: string, args: seq<string>)

  /** What the operating system reports: the spawn itself failed, or the
      process ran and exited successfully or not. */
  datatype ProcessOutcome = SpawnFailed | Exited(success: bool)

  /** The command an operation attempted to run, if it got that far, and its outcome. */
  datatype Launch = Launch(command: Option<Command>, status: Status)

  /** `Command::spawn()?.wait()?` followed by the exit-status check: a spawn
      failure is an I/O error, an unsuccessful exit a failure of the tool. */
  function Spawn(cmd: Command, outcome: ProcessOutcome): (r: Launch)
    ensures r.command == Some(cmd)
    ensures r.status.Done? <==> outcome == Exited(true)
    ensures outcome == SpawnFailed ==> r.status == Failed(IoError)
    ensures outcome == Exited(false) ==> r.status == Failed(ToolFailed(cmd.program))
  {
    match outcome
    case SpawnFailed => Launch(Some(cmd), Failed(IoError))
    case Exited(success) =>
      Launch(Some(cmd), if success then Done else Failed(ToolFailed(cmd.program)))
  }
}
