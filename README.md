# jobs2d command and driver core, in Dafny

This project models the command/driver composition layer of the jobs2d
plotter application:

- `CompoundCommand`: an immutable, ordered sequence of driver commands
  (`SetPosition(x, y)` and `OperateTo(x, y)`). It can be made from a list,
  extended by `append` into a new compound, iterated, and executed against a
  driver. Its `Builder` collects commands in a mutable list and snapshots
  them on `build`.
- `CommandHistory`: the ledger of commands that have become current. It
  appends every entry except a null marker right after another null marker.
  It also offers an indexed read, a snapshot copy, `size`, `isEmpty` and `clear`.
- `UsageTrackingDriverDecorator`: a driver that forwards every call
  unchanged to the driver it wraps. It keeps the last position it was sent to
  and two totals: distance travelled by all moves and distance drawn by
  `operateTo` moves. It can also be reset.

Modules, one per component:

- `Drivers` (`drivers.dfy`): Java's `int` as `Int32`, the `Call` a driver
  receives, and `Recorder`. `Recorder` is a driver that appends every call to
  its `trace`, so what is sent to a driver can be observed.
- `Commands` (`commands.dfy`): `DriverCommand`. The command classes' own
  `execute` bodies are not part of this model. A command's effect on a driver
  is therefore an `effect: DriverCommand -> seq<Call>` parameter, and the
  model assumes nothing about it.
- `Compound` (`compound.dfy`): `CompoundCommand` is a datatype, because its
  list is never changed after construction. `CommandIterator` and `Builder`
  are classes, because their state changes in place. `Run` is the
  specification of `execute`: the commands' effects concatenated in order.
- `History` (`history.dfy`): the `CommandHistory` class over a
  `seq<Option<DriverCommand>>`. `None` stands for Java's `null`. The
  specification functions are `Added` (one `addCommand`) and `AddedAll`
  (several in a row).
- `Usage` (`usage.dfy`): the `UsageTrackingDriverDecorator` class. Its
  methods are specified by the pure functions `Moved` (one call) and
  `Tracked` (a sequence of calls) over a `Usage` state value.

The Java lists are modelled as Dafny sequences. A sequence is a value, so
every copy the source makes defensively (`new ArrayList<>(...)` wrapped in
`Collections.unmodifiableList`) is a value that later changes to the
caller's list or to the builder cannot reach.

`Math.hypot` is a parameter `hypot: (int, int) -> real` of the decorator. The
model assumes only that it is never negative and that `hypot(0, 0) == 0`. The
distances are `real`.

## Model

| member | source | states |
|---|---|---|
| Compound.CompoundCommand.FromListOfCommands | src/main/java/edu/kis/powp/jobs2d/command/CompoundCommand.java:33-35 | the compound holds exactly the given commands, in order, and its size is the list's length; the copy is the one the private constructor takes at lines 16-18 |
| Compound.CompoundCommand.Size | src/main/java/edu/kis/powp/jobs2d/command/CompoundCommand.java:43-45 | the number of commands |
| Compound.CompoundCommand.IsEmpty | src/main/java/edu/kis/powp/jobs2d/command/CompoundCommand.java:43-49 | `isEmpty()` holds exactly when `size() == 0` |
| Compound.CompoundCommand.Append | src/main/java/edu/kis/powp/jobs2d/command/CompoundCommand.java:37-41 | the new compound's size is the old size plus the list's length; its prefix is the receiver's commands and its suffix is the list |
| Compound.AppendThenRun | src/main/java/edu/kis/powp/jobs2d/command/CompoundCommand.java:21-25 | executing `c.append(L)` sends a driver what executing `c` sends, followed by what executing `L` sends |
| Compound.AppendTwice | src/main/java/edu/kis/powp/jobs2d/command/CompoundCommand.java:37-41 | appending `L1` and then `L2` gives the same compound as appending `L1 + L2` |
| Compound.CompoundCommand.Iterator | src/main/java/edu/kis/powp/jobs2d/command/CompoundCommand.java:27-30 | a fresh iterator over exactly the compound's commands, with nothing visited yet |
| Compound.CommandIterator.HasNext | src/main/java/edu/kis/powp/jobs2d/command/CompoundCommand.java:27-30 | there is a next command exactly when fewer than all commands have been visited |
| Compound.CommandIterator.Next | src/main/java/edu/kis/powp/jobs2d/command/CompoundCommand.java:27-30 | returns the next command in insertion order and records it as visited |
| Compound.CompoundCommand.Execute | src/main/java/edu/kis/powp/jobs2d/command/CompoundCommand.java:21-25 | the driver's trace grows by `Run(commands, effect)`: each command's effect, in sequence order |
| Commands.DriverCommand.Execute | src/main/java/edu/kis/powp/jobs2d/command/CompoundCommand.java:23 | executing one command appends its effect to the driver's trace and changes nothing else |
| Compound.RunAppend | src/main/java/edu/kis/powp/jobs2d/command/CompoundCommand.java:21-25 | executing `a + b` is executing `a`, then `b` |
| Compound.RunAt | src/main/java/edu/kis/powp/jobs2d/command/CompoundCommand.java:21-25 | every command runs exactly once and in its place: the trace is the effects of the commands before position `i`, then `cs[i]`'s effect, then the effects of the commands after it |
| Compound.RunOwnCalls | src/main/java/edu/kis/powp/jobs2d/command/CompoundCommand.java:21-25 | when each command issues its own call, the driver receives one call per command, of the same kind, with the same coordinates, in order |
| Compound.ExecuteTwoCommands | src/main/java/edu/kis/powp/jobs2d/command/CompoundCommand.java:21-25 | executing `[SetPosition(1,1), OperateTo(4,5)]` sends `setPosition(1,1)` and then `operateTo(4,5)` |
| Compound.Builder.constructor | src/main/java/edu/kis/powp/jobs2d/command/CompoundCommand.java:79-81 | a new builder has no pending commands |
| Compound.Builder.AddList | src/main/java/edu/kis/powp/jobs2d/command/CompoundCommand.java:54-57 | the list is appended to the pending commands, and the builder itself is returned |
| Compound.Builder.AddCompound | src/main/java/edu/kis/powp/jobs2d/command/CompoundCommand.java:59-62 | the compound is flattened: its commands are appended, in order |
| Compound.Builder.AddSetPosition | src/main/java/edu/kis/powp/jobs2d/command/CompoundCommand.java:64-67 | exactly one `SetPosition(x, y)` is appended, and nothing else changes |
| Compound.Builder.AddOperateTo | src/main/java/edu/kis/powp/jobs2d/command/CompoundCommand.java:69-72 | exactly one `OperateTo(x, y)` is appended, and nothing else changes |
| Compound.Builder.Build | src/main/java/edu/kis/powp/jobs2d/command/CompoundCommand.java:74-76 | the compound holds the pending commands, in order; the builder is not modified, so it is not drained |
| Compound.BuildIsSnapshot | src/main/java/edu/kis/powp/jobs2d/command/CompoundCommand.java:74-76 | two builds in a row return equal compounds; a compound already built keeps its commands when more are added later, and a later build includes them |
| History.CommandHistory.constructor | src/main/java/edu/kis/powp/jobs2d/command/manager/CommandHistory.java:19 | a new history is empty and satisfies the no-adjacent-nulls invariant |
| History.CommandHistory.AddCommand | src/main/java/edu/kis/powp/jobs2d/command/manager/CommandHistory.java:25-31 | the history becomes `Added(old history, c)`, and the no-adjacent-nulls invariant is kept |
| History.AddedCases | src/main/java/edu/kis/powp/jobs2d/command/manager/CommandHistory.java:25-31 | adding leaves the history unchanged exactly when `c` is null and the last entry is null; otherwise the result is the old history followed by `c`, repeated commands included |
| History.AddedKeepsNoAdjacentNones | src/main/java/edu/kis/powp/jobs2d/command/manager/CommandHistory.java:25-31 | adding to a history with no two adjacent nulls gives a history with no two adjacent nulls |
| History.AddedNoneIdempotent | src/main/java/edu/kis/powp/jobs2d/command/manager/CommandHistory.java:27-29 | adding null twice in a row has the effect of adding it once |
| History.AddedAllKeepsCommands | src/main/java/edu/kis/powp/jobs2d/command/manager/CommandHistory.java:25-31 | suppression drops only null markers: the stored commands are the earlier ones followed by every command added, in order |
| History.AddedAllExample | src/main/java/edu/kis/powp/jobs2d/command/manager/CommandHistory.java:25-31 | adding null, null, X, null, null to an empty history stores `[null, X, null]` |
| History.CommandHistory.GetHistory | src/main/java/edu/kis/powp/jobs2d/command/manager/CommandHistory.java:36-38 | the snapshot equals the current entries, in insertion order, and has no two adjacent nulls |
| History.CommandHistory.Size | src/main/java/edu/kis/powp/jobs2d/command/manager/CommandHistory.java:45-47 | the number of entries |
| History.CommandHistory.GetCommand | src/main/java/edu/kis/powp/jobs2d/command/manager/CommandHistory.java:52-54 | succeeds exactly when `0 <= index < size()` and then gives the entry at `index`; otherwise fails with an out-of-range error; the history is not modified |
| History.CommandHistory.Clear | src/main/java/edu/kis/powp/jobs2d/command/manager/CommandHistory.java:59-61 | the history becomes empty, which satisfies the invariant |
| History.CommandHistory.IsEmpty | src/main/java/edu/kis/powp/jobs2d/command/manager/CommandHistory.java:66-68 | `isEmpty()` holds exactly when `size() == 0` |
| Usage.UsageTrackingDriverDecorator.constructor | src/main/java/edu/kis/powp/jobs2d/drivers/UsageTrackingDriverDecorator.java:19-34 | a new decorator is at `(0, 0)` with both totals 0, and keeps the given delegate and label |
| Usage.UsageTrackingDriverDecorator.SetPosition | src/main/java/edu/kis/powp/jobs2d/drivers/UsageTrackingDriverDecorator.java:43-47 | the state becomes `Moved(old state, x, y, not drawing)`; the delegate receives exactly `setPosition(x, y)`; `0 <= drawing <= travel` is kept |
| Usage.UsageTrackingDriverDecorator.OperateTo | src/main/java/edu/kis/powp/jobs2d/drivers/UsageTrackingDriverDecorator.java:57-61 | the state becomes `Moved(old state, x, y, drawing)`; the delegate receives exactly `operateTo(x, y)`; `0 <= drawing <= travel` is kept |
| Usage.UsageTrackingDriverDecorator.RegisterMovement | src/main/java/edu/kis/powp/jobs2d/drivers/UsageTrackingDriverDecorator.java:70-76 | travel grows by the segment from the last position to `(x, y)`; drawing grows by it only for a drawing move |
| Usage.UsageTrackingDriverDecorator.UpdatePosition | src/main/java/edu/kis/powp/jobs2d/drivers/UsageTrackingDriverDecorator.java:87-90 | the last position becomes `(x, y)` |
| Usage.UsageTrackingDriverDecorator.GetTravelDistance | src/main/java/edu/kis/powp/jobs2d/drivers/UsageTrackingDriverDecorator.java:97-99 | the travel total, which is at least the drawing total, which is at least 0; nothing is modified |
| Usage.UsageTrackingDriverDecorator.GetDrawingDistance | src/main/java/edu/kis/powp/jobs2d/drivers/UsageTrackingDriverDecorator.java:106-108 | the drawing total, between 0 and the travel total; nothing is modified |
| Usage.UsageTrackingDriverDecorator.GetLabel | src/main/java/edu/kis/powp/jobs2d/drivers/UsageTrackingDriverDecorator.java:115-117 | the label given at construction |
| Usage.UsageTrackingDriverDecorator.Reset | src/main/java/edu/kis/powp/jobs2d/drivers/UsageTrackingDriverDecorator.java:122-127 | both totals and the position become 0; the label and delegate are constants and the delegate is not touched |
| Usage.Segment | src/main/java/edu/kis/powp/jobs2d/drivers/UsageTrackingDriverDecorator.java:71 | a segment is never negative, and a segment between a point and itself has length 0 |
| Usage.MovedSpec | src/main/java/edu/kis/powp/jobs2d/drivers/UsageTrackingDriverDecorator.java:70-90 | one move ends at its target; it adds its segment to travel, and to drawing only when it draws; neither total decreases; `0 <= drawing <= travel` is kept |
| Usage.StayingPutAddsNothing | src/main/java/edu/kis/powp/jobs2d/drivers/UsageTrackingDriverDecorator.java:71-75 | a move to the current position adds 0 to both totals |
| Usage.TrackedAppend | src/main/java/edu/kis/powp/jobs2d/drivers/UsageTrackingDriverDecorator.java:43-61 | receiving `a + b` is receiving `a`, then `b` |
| Usage.TrackedMonotone | src/main/java/edu/kis/powp/jobs2d/drivers/UsageTrackingDriverDecorator.java:21-22 | between resets neither total decreases, and `0 <= drawing <= travel` holds after any calls |
| Usage.TrackedEndsAtLastTarget | src/main/java/edu/kis/powp/jobs2d/drivers/UsageTrackingDriverDecorator.java:87-90 | after any non-empty sequence of calls, the tracked position is the last call's target |
| Usage.TrackedMovesDrawNothing | src/main/java/edu/kis/powp/jobs2d/drivers/UsageTrackingDriverDecorator.java:72-75 | `setPosition` calls alone never change the drawing total |
| Usage.DrawThenStay | src/main/java/edu/kis/powp/jobs2d/drivers/UsageTrackingDriverDecorator.java:122-127 | from the origin, `operateTo(3,4)` then `setPosition(3,4)` gives travel 5 and drawing 5 when `hypot(3,4) = 5`; after a reset, the next segment is measured from the origin |
| Usage.WrappedDisplacement | src/main/java/edu/kis/powp/jobs2d/drivers/UsageTrackingDriverDecorator.java:71 | as written, `x - lastX` is an `int` subtraction: the displacement it gives is an `int` that differs from the true one by a multiple of 2^32 |
| Usage.WrappedDisplacementOverflows | src/main/java/edu/kis/powp/jobs2d/drivers/UsageTrackingDriverDecorator.java:71 | as written, `x - lastX` from `lastX = -2^31` to `x = 2^31-1` is -1, which does not lead from the start to the target |
| Usage.WrappedDisplacementInRange | src/main/java/edu/kis/powp/jobs2d/drivers/UsageTrackingDriverDecorator.java:71 | the wrapped displacement is exact whenever the true displacement fits in an `int` |
| Usage.Displacement | src/main/java/edu/kis/powp/jobs2d/drivers/UsageTrackingDriverDecorator.java:71 | the corrected displacement leads from the start to the target |

## Left out

- Usage.Segment: measures over the true displacement (`Usage.Displacement`), not over the wrapped `int` difference of line 71 (`Usage.WrappedDisplacement`). The two differ only when the displacement does not fit in an `int`: from `lastX = -2^31` to `x = 2^31-1`, the model adds `hypot(4294967295, 0)` where the source adds `hypot(-1, 0)`. This is the correction recorded under Findings.
- Usage.UsageTrackingDriverDecorator.RegisterMovement: uses `Usage.Segment`, so it has the same difference from line 71 on displacements that overflow an `int`. The decorator's `SetPosition` and `OperateTo` inherit it.
- Concurrency: the `synchronized` methods of `CommandHistory` are modelled as atomic sequential calls. The unsynchronised decorator is modelled as single-threaded.
- The decorator's log message (`UsageTrackingDriverDecorator.java:77-78`) only formats a string for `java.util.logging`, which is I/O.
- `Math.hypot` and `double` accumulation: segments are an abstract non-negative function and the totals are `real`, so rounding is not modelled.
- The bodies of `SetPositionCommand.execute` and `OperateToCommand.execute` are not part of this model. A command's effect on a driver is an abstract `effect` parameter. `Compound.RunOwnCalls` states the evident behaviour as a hypothesis.
- Exceptions: a command or a delegate that throws, and the fail-fast abort of `execute` that follows, are not modelled. Every call in the model completes.
- `null` lists passed to `fromListOfCommands`, `append` or `Builder.add`, which throw in the source, are not modelled.
- `Compound.CommandIterator.Next`: requires a next element instead of modelling `NoSuchElementException`. The iterator's `remove`, which throws on the unmodifiable list, has no counterpart.
- The decorator's delegate is a recording driver. Decorators wrapping other decorators are not modelled.
- `TransformerDriver.java` is not part of this model: its scaling is a `double` product truncated by Java's `(int)` cast, which a real-number model would get wrong on edge cases.
- `CommandPreviewWindow.java` (Swing GUI) and `MonitoringFeature.java` (menu wiring and process-wide static state) are not part of this model.
- `toString` methods are not modelled.

## Findings

| source | as written | input that shows it | evidently intended | confidence | as-written member | corrected member |
|---|---|---|---|---|---|---|
| src/main/java/edu/kis/powp/jobs2d/drivers/UsageTrackingDriverDecorator.java:71 | `Math.hypot(x - lastX, y - lastY)` subtracts two Java `int`s, which wraps modulo 2^32 before the widening to `double` | `setPosition(-2147483648, 0)` then `setPosition(2147483647, 0)`: the x displacement is computed as -1, so the segment counts as 1 instead of 4294967295 | the segment uses the true displacement, for example by subtracting in `long` or `double` | high, not executed | Usage.WrappedDisplacementOverflows | Usage.Displacement |

The class `UsageTrackingDriverDecorator` in this model uses the corrected
`Displacement`. `Usage.WrappedDisplacementInRange` shows that the two agree
whenever the true displacement fits in an `int`.
