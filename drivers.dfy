/** The Job2dDriver capability: a sink that accepts `setPosition(x, y)` (move
    without drawing) and `operateTo(x, y)` (move while drawing). The concrete
    drivers are outside this model; a driver is represented by a recorder that
    appends every call it receives to a trace, so that what a caller sends to
    a driver is observable. */
module Drivers {

  const MinInt32: int := -0x8000_0000
  const MaxInt32: int := 0x7fff_ffff

  /** A Java `int`. */
  type Int32 = x: int | MinInt32 <= x <= MaxInt32

  /** One call received by a driver. */
  datatype Call =
    | SetPositionCall(x: Int32, y: Int32)
    | OperateToCall(x: Int32, y: Int32)
  {
    /** True for the calls that draw (`operateTo`). */
    predicate Draws() {
      OperateToCall?
    }
  }

  /** A driver that records what it is asked to do. */
  class Recorder {
    var trace: seq<Call>

    constructor ()
      ensures trace == []
    {
      trace := [];
    }

    method SetPosition(x: Int32, y: Int32)
      modifies this
      ensures trace == old(trace) + [SetPositionCall(x, y)]
    {
      trace := trace + [SetPositionCall(x, y)];
    }

    method OperateTo(x: Int32, y: Int32)
      modifies this
      ensures trace == old(trace) + [OperateToCall(x, y)]
    {
      trace := trace + [OperateToCall(x, y)];
    }
  }
}
