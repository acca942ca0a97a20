/** The message traversal of the grid automaton of re_rfst.py as pure
    functions over a snapshot of the element orientations: one walk per
    step, steps folded into a run, and the reading of the current state
    off the state-keeper row. The `Grid` class is proved against these. */
module Traversal {
  import opened Common
  import opened Element
  import opened Transducer
  import opened Wiring

  /** `cells[col][row]`: the orientation of every element, column by column. */
  type Cells = seq<seq<Orientation>>

  /** `m` columns of `n + 1` elements. */
  predicate Shaped(d: Definition, cells: Cells)
  {
    |cells| == |d.states| && forall c :: 0 <= c < |cells| ==> |cells[c]| == |d.inputs| + 1
  }

  /** The message names an element of the grid (otherwise `REs[col][row]` raises). */
  predicate InGrid(cells: Cells, w: Wire)
  {
    0 <= w.col < |cells| && 0 <= w.row < |cells[w.col]|
  }

  /** Why a step stops without reaching a terminal: the symbol is not in
      the alphabet (`list.index` raises), the exit port has no wiring
      entry (the dictionary lookup raises), the message names an element
      outside the grid (the list index raises), or the hop budget is spent. */
  datatype Fault = Unknown(symbol: Symbol) | Unwired(key: Wire) | OffGrid(wire: Wire) | OutOfFuel

  datatype Walked = Walked(cells: Cells, result: Result<Symbol, Fault>)

  /** The two dictionaries of the grid: `fwd` from exit keys to next
      messages or output terminals, `rev` from messages and output
      terminals back to exit keys, plus the input terminals. */
  datatype Tables = Tables(fwd: map<Wire, Target>, rev: map<Target, Target>)

  /** The dictionaries exactly as the constructor leaves them. */
  ghost predicate Wired(d: Definition, t: Tables)
  {
    && Compilable(d)
    && (forall k :: Get(t.fwd, k) == ForwardEntry(d, k))
    && (forall x :: Get(t.rev, x) == BackwardEntry(d, x))
  }

  /** The lookup a step makes after an element: `fwd` forward, `rev` backward. */
  function Entry(t: Tables, reverse: bool, key: Wire): Option<Target>
  {
    if reverse then Get(t.rev, Link(key)) else Get(t.fwd, key)
  }

  /** The symbols a step accepts: inputs forward, outputs backward. */
  function Alphabet(d: Definition, reverse: bool): seq<Symbol>
  {
    if reverse then d.outputs else d.inputs
  }

  /** Where a step injects its symbol: the West port of the first column
      forward, the East port of the last column backward. */
  function StartWire(d: Definition, reverse: bool, c: Symbol): Wire
    requires c in Alphabet(d, reverse)
  {
    if reverse then Wire(|d.states| - 1, IndexOf(d.outputs, c), E)
    else Wire(0, IndexOf(d.inputs, c), W)
  }

  /** One element passes the message: its orientation changes by the law
      and the message leaves through the returned exit key. */
  function Turn(reverse: bool, cells: Cells, w: Wire): (r: (Cells, Wire))
    requires InGrid(cells, w)
    ensures |r.0| == |cells| && |r.0[w.col]| == |cells[w.col]|
    ensures r.1.col == w.col && r.1.row == w.row
  {
    var (o, out) := Law(cells[w.col][w.row], w.port, reverse);
    (cells[w.col := cells[w.col][w.row := o]], Wire(w.col, w.row, out))
  }

  /** The `while` loop of `step_forward`/`step_backward`, bounded by `fuel`
      hops: each hop turns the element the message enters and looks the
      exit up; a terminal ends the walk. */
  function Walk(t: Tables, reverse: bool, cells: Cells, w: Wire, fuel: nat): Walked
    decreases fuel
  {
    if !InGrid(cells, w) then Walked(cells, Fail(OffGrid(w)))
    else if fuel == 0 then Walked(cells, Fail(OutOfFuel))
    else
      var (cells', key) := Turn(reverse, cells, w);
      match Entry(t, reverse, key)
      case None => Walked(cells', Fail(Unwired(key)))
      case Some(Terminal(x)) => Walked(cells', Ok(x))
      case Some(Link(w')) => Walk(t, reverse, cells', w', fuel - 1)
  }

  /** The walk from the lookup of `key` on. */
  function Follow(t: Tables, reverse: bool, cells: Cells, key: Wire, fuel: nat): Walked
  {
    match Entry(t, reverse, key)
    case None => Walked(cells, Fail(Unwired(key)))
    case Some(Terminal(x)) => Walked(cells, Ok(x))
    case Some(Link(w)) => Walk(t, reverse, cells, w, fuel)
  }

  /** How many elements a walk passes through. */
  ghost function Hops(t: Tables, reverse: bool, cells: Cells, w: Wire, fuel: nat): (h: nat)
    ensures h <= fuel
    decreases fuel
  {
    if !InGrid(cells, w) || fuel == 0 then 0
    else
      var (cells', key) := Turn(reverse, cells, w);
      match Entry(t, reverse, key)
      case Some(Link(w')) => 1 + Hops(t, reverse, cells', w', fuel - 1)
      case _ => 1
  }

  /** One step: `inputs.index(c)` (or `outputs.index(c)`), then the walk. */
  function Inject(d: Definition, t: Tables, reverse: bool, cells: Cells, c: Symbol): Walked
  {
    if c in Alphabet(d, reverse) then Walk(t, reverse, cells, StartWire(d, reverse, c), Fuel(d))
    else Walked(cells, Fail(Unknown(c)))
  }

  datatype Ran = Ran(cells: Cells, result: Result<seq<Symbol>, Fault>)

  /** `u` in front of the symbols of a run that went on, a failure unchanged. */
  function Prefixed(u: seq<Symbol>, r: Result<seq<Symbol>, Fault>): Result<seq<Symbol>, Fault>
  {
    if r.Ok? then Ok(u + r.value) else r
  }

  /** The step loop of `run`: the step results in order, or the first fault. */
  function RunSteps(d: Definition, t: Tables, reverse: bool, cells: Cells, s: seq<Symbol>): Ran
    decreases |s|
  {
    if s == [] then Ran(cells, Ok([]))
    else
      var w := Inject(d, t, reverse, cells, s[0]);
      if w.result.Fail? then Ran(w.cells, Fail(w.result.error))
      else
        var rest := RunSteps(d, t, reverse, w.cells, s[1..]);
        Ran(rest.cells, Prefixed([w.result.value], rest.result))
  }

  /** The state keeper of column `c` is `H`. */
  predicate Holds(cells: Cells, c: int, n: int)
  {
    0 <= c < |cells| && 0 <= n < |cells[c]| && cells[c][n] == H
  }

  /** The first column, from `from` on, whose state keeper is `H`. */
  function Keeper(cells: Cells, n: nat, from: nat): (r: Option<nat>)
    ensures r.Some? ==> from <= r.value && Holds(cells, r.value, n)
    ensures r.Some? ==> forall c :: from <= c < r.value ==> !Holds(cells, c, n)
    ensures r.None? ==> forall c :: from <= c ==> !Holds(cells, c, n)
    decreases |cells| - from
  {
    if from >= |cells| then None
    else if Holds(cells, from, n) then Some(from)
    else Keeper(cells, n, from + 1)
  }

  /** `get_state`: the state of the first column whose keeper is `H`; none
      when every keeper is `V`. */
  function CurrentState(d: Definition, cells: Cells): Option<State>
  {
    match Keeper(cells, |d.inputs|, 0)
    case None => None
    case Some(c) => if c < |d.states| then Some(d.states[c]) else None
  }

  /** The grid as the constructor leaves it: all `V` but the keeper of the
      start state's column. */
  function InitialCells(d: Definition): (cells: Cells)
    requires WellFormed(d)
    ensures Shaped(d, cells)
  {
    var k, n := IndexOf(d.states, d.start), |d.inputs|;
    seq(|d.states|, c => seq(n + 1, row => if c == k && row == n then H else V))
  }

  datatype Finished = Finished(cells: Cells, result: Result<(bool, seq<Symbol>), Fault>)

  /** `run`: the steps, then acceptance read off the grid (the start state
      backward, an accepting state forward) and, backward, the symbols in
      reverse order. */
  function RunOutcome(d: Definition, t: Tables, reverse: bool, cells: Cells, s: seq<Symbol>): Finished
  {
    var r := RunSteps(d, t, reverse, cells, s);
    if r.result.Fail? then Finished(r.cells, Fail(r.result.error))
    else if reverse then
      Finished(r.cells, Ok((CurrentState(d, r.cells) == Some(d.start), Reverse(r.result.value))))
    else
      var q := CurrentState(d, r.cells);
      Finished(r.cells, Ok((q.Some? && q.value in d.accepting, r.result.value)))
  }

  // ---------------------------------------------------------------------
  // Properties

  /** The constructor's grid reads as the start state. */
  lemma InitialState(d: Definition)
    requires WellFormed(d)
    ensures CurrentState(d, InitialCells(d)) == Some(d.start)
  {
    var cells, k, n := InitialCells(d), IndexOf(d.states, d.start), |d.inputs|;
    assert Holds(cells, k, n);
    var r := Keeper(cells, n, 0);
    assert r.Some?;
    assert r.value == k;
  }

  /** Turning an element back with the other law undoes the turn. */
  lemma TurnUndone(reverse: bool, cells: Cells, w: Wire)
    requires InGrid(cells, w)
    ensures var (cells', key) := Turn(reverse, cells, w);
      InGrid(cells', key) && Turn(!reverse, cells', key) == (cells, w)
  {
    RoundTrip(cells[w.col][w.row], w.port);
    var (cells', key) := Turn(reverse, cells, w);
    var back := Turn(!reverse, cells', key);
    assert back.0[w.col] == cells[w.col];
    assert back.0 == cells;
  }

  /** A link one way is the same link the other way round. */
  predicate LinkUndone(t: Tables, reverse: bool, key: Wire)
  {
    var e := Entry(t, reverse, key);
    e.Some? && e.value.Link? ==> Entry(t, !reverse, e.value.wire) == Some(Link(key))
  }

  /** A terminal is reached only from the start wire of the other direction. */
  predicate TerminalPlaced(d: Definition, t: Tables, reverse: bool, key: Wire)
  {
    var e := Entry(t, reverse, key);
    e.Some? && e.value.Terminal? ==>
      e.value.symbol in Alphabet(d, !reverse) && key == StartWire(d, !reverse, e.value.symbol)
  }

  /** The start wire of a symbol leads the other way to that symbol's terminal. */
  predicate StartLeadsBack(d: Definition, t: Tables, reverse: bool, c: Symbol)
  {
    c in Alphabet(d, reverse) ==> Entry(t, !reverse, StartWire(d, reverse, c)) == Some(Terminal(c))
  }

  /** What the traversal proofs need of the dictionaries. */
  ghost predicate Undoable(d: Definition, t: Tables)
  {
    && (forall reverse, key :: LinkUndone(t, reverse, key))
    && (forall reverse, key :: TerminalPlaced(d, t, reverse, key))
    && (forall reverse, c :: StartLeadsBack(d, t, reverse, c))
  }

  /** The constructor's dictionaries have those properties. */
  lemma WiredUndoable(d: Definition, t: Tables)
    requires Wired(d, t)
    ensures Undoable(d, t)
  {
    forall reverse, key ensures LinkUndone(t, reverse, key) {
      var e := Entry(t, reverse, key);
      if e.Some? && e.value.Link? {
        if reverse {
          ForwardRedoesBackward(d, Link(key), e.value.wire);
          BackwardUndoesForward(d, e.value.wire);
        } else {
          BackwardUndoesForward(d, key);
        }
      }
    }
    forall reverse, key ensures TerminalPlaced(d, t, reverse, key) {
      if reverse {
        InputTerminals(d, Link(key), key);
        if 0 <= key.row < |d.inputs| {
          IndexOfDistinct(d.inputs, key.row);
        }
      } else {
        OutputTerminals(d, key);
        if 0 <= key.row < |d.outputs| {
          IndexOfDistinct(d.outputs, key.row);
        }
      }
    }
    forall reverse, c ensures StartLeadsBack(d, t, reverse, c) {
      if c in Alphabet(d, reverse) {
        var w := StartWire(d, reverse, c);
        if reverse {
          OutputTerminals(d, w);
        } else {
          InputTerminals(d, Link(w), w);
        }
      }
    }
  }

  /** A walk that reaches a terminal is retraced by the walk the other way
      that starts where it ended: after as many hops, that walk is back on
      the first wire with every orientation restored. */
  lemma {:induction false} Retrace(d: Definition, t: Tables, reverse: bool, cells: Cells, w: Wire, fuel: nat, g: nat)
    requires Undoable(d, t)
    requires Walk(t, reverse, cells, w, fuel).result.Ok?
    requires g >= Hops(t, reverse, cells, w, fuel)
    ensures var r := Walk(t, reverse, cells, w, fuel);
      && r.result.value in Alphabet(d, !reverse)
      && Walk(t, !reverse, r.cells, StartWire(d, !reverse, r.result.value), g)
         == Follow(t, !reverse, cells, w, g - Hops(t, reverse, cells, w, fuel))
    decreases fuel
  {
    var (cells', key) := Turn(reverse, cells, w);
    TurnUndone(reverse, cells, w);
    assert TerminalPlaced(d, t, reverse, key) && LinkUndone(t, reverse, key);
    match Entry(t, reverse, key)
    case Some(Terminal(x)) =>
    case Some(Link(w')) =>
      Retrace(d, t, reverse, cells', w', fuel - 1, g);
  }

  /** A step that yields a symbol is undone by the opposite step on that
      symbol: the grid returns to its orientations before the step and
      the opposite step yields the original symbol. */
  lemma StepRoundTrip(d: Definition, t: Tables, reverse: bool, cells: Cells, c: Symbol)
    requires Undoable(d, t)
    requires Inject(d, t, reverse, cells, c).result.Ok?
    ensures var r := Inject(d, t, reverse, cells, c);
      Inject(d, t, !reverse, r.cells, r.result.value) == Walked(cells, Ok(c))
  {
    var w := StartWire(d, reverse, c);
    Retrace(d, t, reverse, cells, w, Fuel(d), Fuel(d));
    assert StartLeadsBack(d, t, reverse, c);
  }

  /** Running a concatenation runs the first part, then the second from
      where the first left the grid. */
  lemma {:induction false} RunStepsAppend(d: Definition, t: Tables, reverse: bool, cells: Cells, a: seq<Symbol>, b: seq<Symbol>)
    requires RunSteps(d, t, reverse, cells, a).result.Ok?
    ensures var r := RunSteps(d, t, reverse, cells, a);
      var z := RunSteps(d, t, reverse, r.cells, b);
      RunSteps(d, t, reverse, cells, a + b) == Ran(z.cells, Prefixed(r.result.value, z.result))
    decreases |a|
  {
    if a == [] {
      assert a + b == b;
      var z := RunSteps(d, t, reverse, cells, b);
      if z.result.Ok? {
        assert [] + z.result.value == z.result.value;
      }
    } else {
      var w := Inject(d, t, reverse, cells, a[0]);
      var rest := RunSteps(d, t, reverse, w.cells, a[1..]);
      TailAppend(a, b);
      RunStepsAppend(d, t, reverse, w.cells, a[1..], b);
      var z := RunSteps(d, t, reverse, rest.cells, b);
      if z.result.Ok? {
        assert [w.result.value] + (rest.result.value + z.result.value) == ([w.result.value] + rest.result.value) + z.result.value;
      }
    }
  }

  /** A run of one symbol is that symbol's step. */
  lemma RunSingle(d: Definition, t: Tables, reverse: bool, cells: Cells, c: Symbol)
    ensures var w := Inject(d, t, reverse, cells, c);
      RunSteps(d, t, reverse, cells, [c])
        == Ran(w.cells, if w.result.Ok? then Ok([w.result.value]) else Fail(w.result.error))
  {
    assert [c][1..] == [];
    var w := Inject(d, t, reverse, cells, c);
    if w.result.Ok? {
      assert [w.result.value] + [] == [w.result.value];
    }
  }

  /** A run of a prefix that went on, extended by the next symbol: that
      symbol's step from where the run left the grid. */
  lemma RunStepsExtend(d: Definition, t: Tables, reverse: bool, cells: Cells, s: seq<Symbol>, i: nat)
    requires i < |s| && RunSteps(d, t, reverse, cells, s[..i]).result.Ok?
    ensures var r := RunSteps(d, t, reverse, cells, s[..i]);
      var w := Inject(d, t, reverse, r.cells, s[i]);
      RunSteps(d, t, reverse, cells, s[..i + 1])
        == Ran(w.cells, if w.result.Ok? then Ok(r.result.value + [w.result.value]) else Fail(w.result.error))
  {
    assert s[..i + 1] == s[..i] + [s[i]];
    RunStepsAppend(d, t, reverse, cells, s[..i], [s[i]]);
    RunSingle(d, t, reverse, RunSteps(d, t, reverse, cells, s[..i]).cells, s[i]);
  }

  /** A run that went on up to a symbol whose step fails stops there,
      whatever follows. */
  lemma RunStepsStop(d: Definition, t: Tables, reverse: bool, cells: Cells, s: seq<Symbol>, i: nat)
    requires i < |s| && RunSteps(d, t, reverse, cells, s[..i]).result.Ok?
    requires Inject(d, t, reverse, RunSteps(d, t, reverse, cells, s[..i]).cells, s[i]).result.Fail?
    ensures var w := Inject(d, t, reverse, RunSteps(d, t, reverse, cells, s[..i]).cells, s[i]);
      RunSteps(d, t, reverse, cells, s) == Ran(w.cells, Fail(w.result.error))
  {
    assert s[..i] + s[i..] == s && s[i..][0] == s[i];
    RunStepsAppend(d, t, reverse, cells, s[..i], s[i..]);
  }

  /** A run that yields `o` is undone by the opposite run on `o` reversed:
      the grid returns to where it was and the opposite run yields the
      original symbols in reverse order. */
  lemma {:induction false} RunRoundTrip(d: Definition, t: Tables, reverse: bool, cells: Cells, s: seq<Symbol>)
    requires Undoable(d, t)
    requires RunSteps(d, t, reverse, cells, s).result.Ok?
    ensures var r := RunSteps(d, t, reverse, cells, s);
      RunSteps(d, t, !reverse, r.cells, Reverse(r.result.value)) == Ran(cells, Ok(Reverse(s)))
    decreases |s|
  {
    if s != [] {
      var w := Inject(d, t, reverse, cells, s[0]);
      var x := w.result.value;
      var rest := RunSteps(d, t, reverse, w.cells, s[1..]);
      var o := rest.result.value;
      assert RunSteps(d, t, reverse, cells, s).result.value == [x] + o;
      RunRoundTrip(d, t, reverse, w.cells, s[1..]);
      ReverseCons(x, o);
      RunStepsAppend(d, t, !reverse, rest.cells, Reverse(o), [x]);
      StepRoundTrip(d, t, reverse, cells, s[0]);
      RunSingle(d, t, !reverse, w.cells, x);
      ReverseCons(s[0], s[1..]);
      assert [s[0]] + s[1..] == s;
    }
  }

  /** The driver's check in general: a forward run from the constructor's
      grid that yields `o`, followed by a backward run on `o` reversed,
      accepts, yields the original input and leaves the grid as built. */
  lemma BackwardRunRecoversInput(d: Definition, t: Tables, s: seq<Symbol>)
    requires Wired(d, t)
    requires RunOutcome(d, t, false, InitialCells(d), s).result.Ok?
    ensures var f := RunOutcome(d, t, false, InitialCells(d), s);
      RunOutcome(d, t, true, f.cells, Reverse(f.result.value.1)) == Finished(InitialCells(d), Ok((true, s)))
  {
    WiredUndoable(d, t);
    RunRoundTrip(d, t, false, InitialCells(d), s);
    InitialState(d);
    ReverseReverse(s);
  }
}
