/** A single driver command: move to a point, or draw to a point. The classes
    that implement these commands are outside this model, so what a command
    does to a driver when executed is left abstract: it is an `effect`
    function, passed in, from the command to the calls it issues. */
module Commands {
  import opened Drivers

  datatype DriverCommand =
    | SetPosition(x: Int32, y: Int32)
    | OperateTo(x: Int32, y: Int32)
  {
    /** `DriverCommand.execute(driver)`: the driver receives the calls the
        command's effect issues, after everything it received before. */
    method Execute(driver: Recorder, effect: DriverCommand -> seq<Call>)
      modifies driver
      ensures driver.trace == old(driver.trace) + effect(this)
    {
      driver.trace := driver.trace + effect(this);
    }
  }

  /** The driver call that a command of the same kind and coordinates stands for. */
  function CallOf(c: DriverCommand): (call: Call)
    ensures call.Draws() <==> c.OperateTo?
    ensures call.x == c.x && call.y == c.y
  {
    match c
    case SetPosition(x, y) => SetPositionCall(x, y)
    case OperateTo(x, y) => OperateToCall(x, y)
  }

  /** An effect that issues exactly the call each command names, and nothing else. */
  ghost predicate IssuesOwnCall(effect: DriverCommand -> seq<Call>) {
    forall c :: effect(c) == [CallOf(c)]
  }
}
