/** CommandHistory: the ledger of commands that have become current. An entry
    is a command or `None`, the marker for "no current command"; the ledger
    never holds two `None` markers next to each other. */
module History {
  import opened Commands

  datatype Option<T> = None | Some(value: T)

  type Entry = Option<DriverCommand>

  /** The result of `getCommand`: the entry, or the out-of-range failure of `ArrayList.get`. */
  datatype Lookup = Found(entry: Entry) | IndexOutOfBounds

  /** No two adjacent entries are both `None`. */
  ghost predicate NoAdjacentNones(h: seq<Entry>) {
    forall i :: 0 < i < |h| ==> h[i - 1].Some? || h[i].Some?
  }

  /** True when adding `c` to `h` is suppressed: `c` is `None` and so is the last entry. */
  predicate Suppressed(h: seq<Entry>, c: Entry) {
    c.None? && h != [] && h[|h| - 1].None?
  }

  /** The history after `addCommand(c)`. */
  function Added(h: seq<Entry>, c: Entry): seq<Entry> {
    if Suppressed(h, c) then h else h + [c]
  }

  /** The history after adding each of `cs`, in order. */
  function AddedAll(h: seq<Entry>, cs: seq<Entry>): seq<Entry>
    decreases |cs|
  {
    if cs == [] then h else AddedAll(Added(h, cs[0]), cs[1..])
  }

  /** The commands among the entries, in order, markers dropped. */
  function StoredCommands(h: seq<Entry>): seq<DriverCommand> {
    if h == [] then []
    else (if h[0].Some? then [h[0].value] else []) + StoredCommands(h[1..])
  }

  /** `addCommand` keeps the ledger free of adjacent `None` markers. */
  lemma AddedKeepsNoAdjacentNones(h: seq<Entry>, c: Entry)
    requires NoAdjacentNones(h)
    ensures NoAdjacentNones(Added(h, c))
  {
  }

  /** `addCommand` leaves the history unchanged exactly when it is suppressed,
      and otherwise appends `c`, whatever `c` is (a repeated command included). */
  lemma AddedCases(h: seq<Entry>, c: Entry)
    ensures Added(h, c) == h <==> Suppressed(h, c)
    ensures !Suppressed(h, c) ==> Added(h, c) == h + [c]
  {
    if !Suppressed(h, c) {
      assert |Added(h, c)| == |h| + 1;
    }
  }

  /** Adding `None` twice is adding it once. */
  lemma AddedNoneIdempotent(h: seq<Entry>)
    ensures Added(Added(h, None), None) == Added(h, None)
  {
  }

  lemma {:induction false} StoredCommandsAppend(a: seq<Entry>, b: seq<Entry>)
    ensures StoredCommands(a + b) == StoredCommands(a) + StoredCommands(b)
  {
    if a == [] {
      assert a + b == b;
    } else {
      assert (a + b)[1..] == a[1..] + b;
      StoredCommandsAppend(a[1..], b);
    }
  }

  /** Suppression only ever drops markers: every command added is kept, in
      order, so N commands added to an empty history leave N commands. */
  lemma {:induction false} AddedAllKeepsCommands(h: seq<Entry>, cs: seq<Entry>)
    ensures StoredCommands(AddedAll(h, cs)) == StoredCommands(h) + StoredCommands(cs)
    decreases |cs|
  {
    if cs != [] {
      var c := cs[0];
      AddedAllKeepsCommands(Added(h, c), cs[1..]);
      StoredCommandsAppend(h, [c]);
      StoredCommandsAppend([c], cs[1..]);
      assert cs == [c] + cs[1..];
      assert StoredCommands([]) == [];
      if Suppressed(h, c) {
        assert StoredCommands([c]) == [];
      }
    }
  }

  /** Adding None, None, X, None, None to an empty history stores [None, X, None]. */
  lemma AddedAllExample(x: DriverCommand)
    ensures AddedAll([], [None, None, Some(x), None, None]) == [None, Some(x), None]
  {
    var h1 := Added([], None);
    assert h1 == [None];
    var h2 := Added(h1, None);
    assert h2 == [None];
    var h3 := Added(h2, Some(x));
    assert h3 == [None, Some(x)];
    var h4 := Added(h3, None);
    assert h4 == [None, Some(x), None];
    assert Added(h4, None) == h4;
    calc {
      AddedAll([], [None, None, Some(x), None, None]);
      AddedAll(h1, [None, Some(x), None, None]);
      AddedAll(h2, [Some(x), None, None]);
      AddedAll(h3, [None, None]);
      AddedAll(h4, [None]);
      AddedAll(h4, []);
    }
  }

  class CommandHistory {
    var history: seq<Entry>

    ghost predicate Valid()
      reads this
    {
      NoAdjacentNones(history)
    }

    constructor ()
      ensures Valid() && history == []
    {
      history := [];
    }

    /** `addCommand`: appends `c` unless it would put a second `None` after a `None`. */
    method AddCommand(c: Entry)
      requires Valid()
      modifies this
      ensures Valid()
      ensures history == Added(old(history), c)
    {
      if c.None? && |history| != 0 && history[|history| - 1].None? {
        return;
      }
      history := history + [c];
      AddedKeepsNoAdjacentNones(old(history), c);
    }

    /** `getHistory`: a copy of the entries, in insertion order. Being a value,
        the copy is untouched by later `addCommand` or `clear` calls. */
    method GetHistory() returns (snapshot: seq<Entry>)
      requires Valid()
      ensures snapshot == history
      ensures NoAdjacentNones(snapshot)
    {
      snapshot := history;
    }

    method Size() returns (n: nat)
      ensures n == |history|
    {
      n := |history|;
    }

    /** `getCommand`: the entry at `index`, or the out-of-range failure when
        `index` is outside [0, size). */
    method GetCommand(index: int) returns (r: Lookup)
      ensures r.Found? <==> 0 <= index < |history|
      ensures r.Found? ==> r.entry == history[index]
    {
      if 0 <= index < |history| {
        r := Found(history[index]);
      } else {
        r := IndexOutOfBounds;
      }
    }

    method Clear()
      modifies this
      ensures Valid() && history == []
    {
      history := [];
    }

    method IsEmpty() returns (empty: bool)
      ensures empty <==> |history| == 0
    {
      empty := |history| == 0;
    }
  }
}
