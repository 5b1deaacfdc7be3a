/** CompoundCommand: an immutable, ordered sequence of driver commands that is
    executed as one unit, together with its iterator and its builder.

    A `seq` is a value, so every way of making a compound (from a list, by
    appending, by building) takes a copy that later changes to the caller's
    list or to the builder cannot reach. */
module Compound {
  import opened Drivers
  import opened Commands

  /** What executing `cs` one command after the other sends to a driver: the
      effects of the commands, concatenated in sequence order. */
  function Run(cs: seq<DriverCommand>, effect: DriverCommand -> seq<Call>): seq<Call>
  {
    if cs == [] then [] else effect(cs[0]) + Run(cs[1..], effect)
  }

  /** Executing `a + b` is executing `a`, then `b`. */
  lemma {:induction false} RunAppend(a: seq<DriverCommand>, b: seq<DriverCommand>, effect: DriverCommand -> seq<Call>)
    ensures Run(a + b, effect) == Run(a, effect) + Run(b, effect)
  {
    if a == [] {
      assert a + b == b;
    } else {
      assert (a + b)[1..] == a[1..] + b;
      RunAppend(a[1..], b, effect);
    }
  }

  /** Each command is executed exactly once, in its place: the trace is what
      the commands before position `i` send, then what `cs[i]` sends, then
      what the commands after it send. */
  lemma {:induction false} RunAt(cs: seq<DriverCommand>, i: nat, effect: DriverCommand -> seq<Call>)
    requires i < |cs|
    ensures Run(cs, effect) == Run(cs[..i], effect) + effect(cs[i]) + Run(cs[i + 1..], effect)
  {
    var before, here, after := cs[..i], [cs[i]], cs[i + 1..];
    assert cs == before + here + after;
    RunAppend(before + here, after, effect);
    RunAppend(before, here, effect);
    assert Run(here, effect) == effect(cs[i]) by {
      assert here[1..] == [];
    }
  }

  /** When every command issues exactly its own call, executing a sequence
      sends the driver one call per command, of the same kind and with the
      same coordinates, in sequence order. */
  lemma {:induction false} RunOwnCalls(cs: seq<DriverCommand>, effect: DriverCommand -> seq<Call>)
    requires IssuesOwnCall(effect)
    ensures |Run(cs, effect)| == |cs|
    ensures forall i :: 0 <= i < |cs| ==> Run(cs, effect)[i] == CallOf(cs[i])
  {
    if cs != [] {
      RunOwnCalls(cs[1..], effect);
      assert effect(cs[0]) == [CallOf(cs[0])];
    }
  }

  /** Executing [SetPosition(1, 1), OperateTo(4, 5)] against a recording driver
      yields those two calls, in that order, with those arguments. */
  lemma ExecuteTwoCommands(effect: DriverCommand -> seq<Call>)
    requires IssuesOwnCall(effect)
    ensures Run([SetPosition(1, 1), OperateTo(4, 5)], effect) == [SetPositionCall(1, 1), OperateToCall(4, 5)]
  {
    RunOwnCalls([SetPosition(1, 1), OperateTo(4, 5)], effect);
  }

  datatype CompoundCommand = CompoundCommand(commands: seq<DriverCommand>)
  {
    /** `fromListOfCommands`: a compound holding exactly the given commands, in order. */
    static function FromListOfCommands(list: seq<DriverCommand>): (c: CompoundCommand)
      ensures c.Size() == |list|
      ensures forall i :: 0 <= i < |list| ==> c.commands[i] == list[i]
    {
      CompoundCommand(list)
    }

    /** `size`: the number of commands. */
    function Size(): (n: nat)
      ensures n == |commands|
    {
      |commands|
    }

    predicate IsEmpty()
      ensures IsEmpty() <==> Size() == 0
    {
      commands == []
    }

    /** `append`: a new compound holding this one's commands followed by `list`;
        this compound is a value and stays as it was. */
    function Append(list: seq<DriverCommand>): (r: CompoundCommand)
      ensures r.Size() == Size() + |list|
      ensures r.commands[..Size()] == commands
      ensures r.commands[Size()..] == list
    {
      CompoundCommand(commands + list)
    }

    /** `iterator`: a fresh read-only traversal over the commands, from the first. */
    method Iterator() returns (it: CommandIterator)
      ensures fresh(it) && it.Valid()
      ensures it.elements == commands && it.Visited() == []
    {
      it := new CommandIterator(commands);
    }

    /** `execute`: every command, through the iterator, in sequence order. */
    method Execute(driver: Recorder, effect: DriverCommand -> seq<Call>)
      modifies driver
      ensures driver.trace == old(driver.trace) + Run(commands, effect)
    {
      var it := Iterator();
      var more := it.HasNext();
      while more
        invariant it.Valid() && it.elements == commands
        invariant more <==> |it.Visited()| < |commands|
        invariant driver.trace == old(driver.trace) + Run(it.Visited(), effect)
        decreases |commands| - |it.Visited()|
      {
        ghost var before := it.Visited();
        var c := it.Next();
        c.Execute(driver, effect);
        RunAppend(before, [c], effect);
        assert Run([c], effect) == effect(c) + Run([], effect);
        more := it.HasNext();
      }
      assert it.Visited() == commands;
    }
  }

  /** Executing an appended compound is executing the original, then the list. */
  lemma AppendThenRun(c: CompoundCommand, list: seq<DriverCommand>, effect: DriverCommand -> seq<Call>)
    ensures Run(c.Append(list).commands, effect) == Run(c.commands, effect) + Run(list, effect)
  {
    RunAppend(c.commands, list, effect);
  }

  /** Appending twice is appending the concatenation once. */
  lemma AppendTwice(c: CompoundCommand, first: seq<DriverCommand>, second: seq<DriverCommand>)
    ensures c.Append(first).Append(second) == c.Append(first + second)
  {
    assert c.commands + first + second == c.commands + (first + second);
  }

  /** The read-only iterator over a compound's commands: `hasNext` and `next`,
      with no way to remove an element. */
  class CommandIterator {
    const elements: seq<DriverCommand>
    var cursor: nat

    ghost predicate Valid()
      reads this
    {
      cursor <= |elements|
    }

    /** The commands `next` has returned so far, in the order it returned them. */
    ghost function Visited(): (s: seq<DriverCommand>)
      reads this
      requires Valid()
    {
      elements[..cursor]
    }

    constructor (elements: seq<DriverCommand>)
      ensures Valid() && this.elements == elements && Visited() == []
    {
      this.elements := elements;
      cursor := 0;
    }

    method HasNext() returns (more: bool)
      requires Valid()
      ensures more <==> |Visited()| < |elements|
    {
      more := cursor < |elements|;
    }

    method Next() returns (c: DriverCommand)
      requires Valid() && |Visited()| < |elements|
      modifies this`cursor
      ensures Valid()
      ensures Visited() == old(Visited()) + [c]
    {
      c := elements[cursor];
      cursor := cursor + 1;
      assert elements[..cursor] == elements[..cursor - 1] + [c];
    }
  }

  /** `CompoundCommand.Builder`: a pending list of commands that the `add`
      methods extend in place and `build` snapshots. Each `add` returns the
      builder itself, so that calls can be chained. */
  class Builder {
    var commands: seq<DriverCommand>

    /** `CompoundCommand.builder()`: a builder with nothing pending. */
    constructor ()
      ensures commands == []
    {
      commands := [];
    }

    /** `add(List)`: the list is appended to the pending commands. */
    method AddList(list: seq<DriverCommand>) returns (self: Builder)
      modifies this
      ensures self == this
      ensures commands == old(commands) + list
    {
      commands := commands + list;
      self := this;
    }

    /** `add(CompoundCommand)`: the compound is flattened, its commands appended in order. */
    method AddCompound(compound: CompoundCommand) returns (self: Builder)
      modifies this
      ensures self == this
      ensures commands == old(commands) + compound.commands
    {
      commands := commands + compound.commands;
      self := this;
    }

    method AddSetPosition(x: Int32, y: Int32) returns (self: Builder)
      modifies this
      ensures self == this
      ensures commands == old(commands) + [SetPosition(x, y)]
    {
      commands := commands + [SetPosition(x, y)];
      self := this;
    }

    method AddOperateTo(x: Int32, y: Int32) returns (self: Builder)
      modifies this
      ensures self == this
      ensures commands == old(commands) + [OperateTo(x, y)]
    {
      commands := commands + [OperateTo(x, y)];
      self := this;
    }

    /** `build`: a compound holding the pending commands. The builder is not
        drained: it changes nothing, so building twice gives equal compounds. */
    method Build() returns (c: CompoundCommand)
      ensures c.Size() == |commands|
      ensures forall i :: 0 <= i < |commands| ==> c.commands[i] == commands[i]
    {
      c := CompoundCommand.FromListOfCommands(commands);
    }
  }

  /** A compound already built does not see later additions to its builder,
      and building again reflects them. */
  method BuildIsSnapshot(b: Builder, more: seq<DriverCommand>) returns (first: CompoundCommand, again: CompoundCommand, second: CompoundCommand)
    modifies b
    ensures first.commands == old(b.commands)
    ensures again == first
    ensures second.commands == old(b.commands) + more
    ensures b.commands == old(b.commands) + more
  {
    first := b.Build();
    again := b.Build();
    var _ := b.AddList(more);
    second := b.Build();
  }
}
