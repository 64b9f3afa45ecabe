/** The life of one command (src/engine/command.py). Timestamps are left out. */
module Command {
  import opened Basics

  datatype CommandStatus = PENDING | SENT | OK | TIMEOUT | FAILED | REJECTED

  predicate IsTerminal(s: CommandStatus) { s in {OK, FAILED, REJECTED} }

  /** `status.name`. */
  function StatusName(s: CommandStatus): string {
    match s
    case PENDING => "PENDING" case SENT => "SENT" case OK => "OK"
    case TIMEOUT => "TIMEOUT" case FAILED => "FAILED" case REJECTED => "REJECTED"
  }

  /** The moves the engine makes; a final status has none. */
  predicate Moves(a: CommandStatus, b: CommandStatus) {
    || a == b
    || (a == PENDING && b in {SENT, FAILED, REJECTED})
    || (a == SENT && b in {OK, FAILED})
  }

  /** What any number of moves can lead to. */
  predicate Advances(a: CommandStatus, b: CommandStatus) {
    a == b || (a == PENDING && b in {SENT, OK, FAILED, REJECTED}) || (a == SENT && b in {OK, FAILED})
  }

  /** What a caller sees of an entry: `CommandResult.from_entry`. */
  datatype CommandResult = CommandResult(
    commandId: Option<nat>, gcode: string, status: CommandStatus, responses: seq<string>,
    error: Option<string>)

  class CommandEntry {
    const gcode: string
    const commandId: nat
    var status: CommandStatus
    var responses: seq<string>
    var error: Option<string>
    var attempts: nat
    var done: bool          // the event send() waits on

    constructor (gcode: string, commandId: nat)
      ensures this.gcode == gcode && this.commandId == commandId
      ensures status == PENDING && responses == [] && error == None && attempts == 0 && !done
    {
      this.gcode, this.commandId := gcode, commandId;
      status, responses, error, attempts, done := PENDING, [], None, 0, false;
    }

    function Result(): CommandResult
      reads this
    {
      CommandResult(Some(commandId), gcode, status, responses, error)
    }

    method MarkSent()
      modifies `status, `attempts
      ensures status == SENT && attempts == old(attempts) + 1
    {
      status := SENT;
      attempts := attempts + 1;
    }

    method MarkOk(responses: seq<string>)
      modifies `status, `responses
      ensures status == OK && this.responses == responses
    {
      status := OK;
      this.responses := responses;
    }

    method MarkFailed(reason: string)
      modifies `status, `error
      ensures status == FAILED && error == Some(reason)
    {
      status := FAILED;
      error := Some(reason);
    }

    method MarkRejected(reason: string)
      modifies `status, `error
      ensures status == REJECTED && error == Some(reason)
    {
      status := REJECTED;
      error := Some(reason);
    }
  }
}
