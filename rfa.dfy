/** The grid automaton `RFA` of re_rfst.py: an `m` by `n + 1` array of
    rotary elements, the two wiring dictionaries its constructor builds, and
    the step and run loops that push a message through the grid until it
    reaches a terminal. Each method is proved against the pure traversal. */
module Rfa {
  import opened Common
  import opened Element
  import opened Transducer
  import opened Wiring
  import opened Traversal

  // ---------------------------------------------------------------------
  // The constructor's wiring passes, one method per pass

  /** The five writes at the head of one round of the column loop: the
      state keeper of column `qi` and its row-0 element. */
  function ColumnHead(n: nat, qi: int, f0: map<Wire, Target>): map<Wire, Target>
  {
    f0[Wire(qi, n, N) := Link(Wire(qi, n - 1, S))]
      [Wire(qi, n, S) := Link(Wire(qi, n, S))]
      [Wire(qi, n, W) := Link(Wire(qi, 0, N))]
      [Wire(qi, 0, N) := Link(Wire(qi, n, E))]
      [Wire(qi, 0, S) := Link(Wire(qi, 1, N))]
  }

  /** After the head writes, column `qi` holds its entries with no chain
      row done yet; the row-0 writes win over the keeper's when `n == 0`. */
  lemma ColumnHeadEntries(n: nat, qi: int, f0: map<Wire, Target>, k: Wire)
    requires forall k :: k in f0 ==> k.col != qi
    ensures Get(ColumnHead(n, qi, f0), k) == (if k.col == qi then ColumnEntry(n, 1, k) else Get(f0, k))
  {
    if k.col == qi && !(k.row == 0 && (k.port == N || k.port == S)) && k.row != n {
      assert k !in f0;
    }
  }

  /** One chain row `e` written below the head. */
  lemma ChainRowWritten(n: nat, qi: int, e: int, f0: map<Wire, Target>, f: map<Wire, Target>, k: Wire)
    requires 1 <= e < n
    requires Get(f, k) == (if k.col == qi then ColumnEntry(n, e, k) else Get(f0, k))
    ensures var f' := f[Wire(qi, e, N) := Link(Wire(qi, e - 1, S))][Wire(qi, e, S) := Link(Wire(qi, e + 1, N))];
      Get(f', k) == (if k.col == qi then ColumnEntry(n, e + 1, k) else Get(f0, k))
  {
  }

  /** One round of the column loop: the state keeper, the row-0 element
      and the chain between them in column `qi`. */
  method ChainColumn(n: nat, qi: int, f0: map<Wire, Target>) returns (f: map<Wire, Target>)
    requires forall k :: k in f0 ==> k.col != qi
    ensures forall k :: Get(f, k) == (if k.col == qi then ColumnEntry(n, n, k) else Get(f0, k))
  {
    f := ColumnHead(n, qi, f0);
    forall k ensures Get(f, k) == (if k.col == qi then ColumnEntry(n, 1, k) else Get(f0, k)) {
      ColumnHeadEntries(n, qi, f0, k);
    }
    var e := 1;
    while e < n
      invariant 1 <= e <= (if n == 0 then 1 else n)
      invariant forall k :: Get(f, k) == (if k.col == qi then ColumnEntry(n, e, k) else Get(f0, k))
    {
      var f' := f[Wire(qi, e, N) := Link(Wire(qi, e - 1, S))][Wire(qi, e, S) := Link(Wire(qi, e + 1, N))];
      forall k ensures Get(f', k) == (if k.col == qi then ColumnEntry(n, e + 1, k) else Get(f0, k)) {
        ChainRowWritten(n, qi, e, f0, f, k);
      }
      f, e := f', e + 1;
    }
    if e != n {
      assert n == 0 && e == 1;
      forall k ensures ColumnEntry(n, e, k) == ColumnEntry(n, n, k) {
        assert !(1 <= k.row < e);
      }
    }
  }

  /** The column loop over every state's column. */
  method ChainColumns(d: Definition) returns (f: map<Wire, Target>)
    requires Compilable(d)
    ensures forall k :: Get(f, k) == Columns(|d.states|, |d.inputs|, k)
  {
    var m, n := |d.states|, |d.inputs|;
    f := map[];
    for qi := 0 to m
      invariant forall k :: Get(f, k) == (if 0 <= k.col < qi then ColumnEntry(n, n, k) else None)
    {
      f := ChainColumn(n, qi, f);
    }
  }

  /** The pass-through links from each column's East ports to the next
      column's West ports, written over `f0`. */
  method AddMesh(d: Definition, f0: map<Wire, Target>) returns (f: map<Wire, Target>)
    requires Compilable(d)
    ensures forall k :: Get(f, k) == Over(Mesh(|d.states|, |d.inputs|, k), Get(f0, k))
  {
    var m, n := |d.states|, |d.inputs|;
    f := f0;
    for qi := 0 to m - 1
      invariant forall k :: Get(f, k) == Over(MeshPart(n, qi, 0, k), Get(f0, k))
    {
      for e := 0 to n
        invariant forall k :: Get(f, k) == Over(MeshPart(n, qi, e, k), Get(f0, k))
      {
        f := f[Wire(qi, e, E) := Link(Wire(qi + 1, e, W))];
      }
    }
  }

  /** Adding one transition to those already wired sets exactly its West
      port key. */
  lemma TransitionPartAdd(d: Definition, done: set<(State, Symbol)>, p: (State, Symbol), k: Wire)
    requires Compilable(d) && p in d.delta
    ensures var (q', o) := d.delta[p];
      TransitionPart(d, done + {p}, k) ==
        if k == Wire(IndexOf(d.states, p.0), IndexOf(d.inputs, p.1), W)
        then Some(Link(Wire(IndexOf(d.states, q'), IndexOf(d.outputs, o), E)))
        else TransitionPart(d, done, k)
  {
    if k.port == W && 0 <= k.col < |d.states| && 0 <= k.row < |d.inputs| {
      IndexOfDistinct(d.states, k.col);
      IndexOfDistinct(d.inputs, k.row);
    }
  }

  /** Writing one transition's edge keeps `f` equal to the transitions
      done so far written over `f0`. */
  lemma TransitionWritten(d: Definition, done: set<(State, Symbol)>, p: (State, Symbol),
                          f0: map<Wire, Target>, f: map<Wire, Target>, key: Wire, target: Target)
    requires Compilable(d) && p in d.delta
    requires key == Wire(IndexOf(d.states, p.0), IndexOf(d.inputs, p.1), W)
    requires target == Link(Wire(IndexOf(d.states, d.delta[p].0), IndexOf(d.outputs, d.delta[p].1), E))
    requires forall k :: Get(f, k) == Over(TransitionPart(d, done, k), Get(f0, k))
    ensures forall k :: Get(f[key := target], k) == Over(TransitionPart(d, done + {p}, k), Get(f0, k))
  {
    forall k ensures Get(f[key := target], k) == Over(TransitionPart(d, done + {p}, k), Get(f0, k)) {
      TransitionPartAdd(d, done, p, k);
    }
  }

  /** The loop over `delta`, written over `f0`: the West port of (state,
      input) leads to the East port of (next state, output). */
  method AddTransitions(d: Definition, f0: map<Wire, Target>) returns (f: map<Wire, Target>)
    requires Compilable(d)
    ensures forall k :: Get(f, k) == Over(Transitions(d, k), Get(f0, k))
  {
    f := f0;
    var todo := d.delta.Keys;
    ghost var done: set<(State, Symbol)> := {};
    while todo != {}
      invariant todo <= d.delta.Keys && done <= d.delta.Keys
      invariant forall p :: p in d.delta ==> (p in done <==> p !in todo)
      invariant forall k :: Get(f, k) == Over(TransitionPart(d, done, k), Get(f0, k))
      decreases |todo|
    {
      var p :| p in todo;
      var (q', o) := d.delta[p];
      var key := Wire(IndexOf(d.states, p.0), IndexOf(d.inputs, p.1), W);
      var target := Link(Wire(IndexOf(d.states, q'), IndexOf(d.outputs, o), E));
      TransitionWritten(d, done, p, f0, f, key, target);
      f := f[key := target];
      todo, done := todo - {p}, done + {p};
    }
    assert done == d.delta.Keys;
  }

  /** The output terminals on the East ports of the last column, written
      over `f0`. */
  method AddOutputs(d: Definition, f0: map<Wire, Target>) returns (f: map<Wire, Target>)
    requires Compilable(d)
    ensures forall k :: Get(f, k) == Over(OutputPart(d, |d.inputs|, k), Get(f0, k))
  {
    var m, n := |d.states|, |d.inputs|;
    f := f0;
    for e := 0 to n
      invariant forall k :: Get(f, k) == Over(OutputPart(d, e, k), Get(f0, k))
    {
      f := f[Wire(m - 1, e, E) := Terminal(d.outputs[e])];
    }
  }

  /** The four passes in the constructor's order build `fwd`. */
  method BuildForward(d: Definition) returns (f: map<Wire, Target>)
    requires Compilable(d)
    ensures forall k :: Get(f, k) == ForwardEntry(d, k)
  {
    var f1 := ChainColumns(d);
    var f2 := AddMesh(d, f1);
    var f3 := AddTransitions(d, f2);
    f := AddOutputs(d, f3);
  }

  /** A West port of the first column on an input's row. */
  predicate InputKey(d: Definition, x: Target)
  {
    x.Link? && x.wire.col == 0 && 0 <= x.wire.row < |d.inputs| && x.wire.port == W
  }

  /** What the inversion of `fwd` holds: every backward entry except the
      input terminals. */
  lemma InvertedExact(d: Definition, f: map<Wire, Target>, r: map<Target, Target>, x: Target)
    requires Compilable(d)
    requires forall k :: Get(f, k) == ForwardEntry(d, k)
    requires forall k :: k in f ==> Get(r, f[k]) == Some(Link(k))
    requires forall y :: y in r ==> r[y].Link? && r[y].wire in f && f[r[y].wire] == y
    ensures Get(r, x) == if InputKey(d, x) then None else BackwardEntry(d, x)
  {
    if x in r {
      var k := r[x].wire;
      assert Get(f, k) == Some(x);
      BackwardUndoesForward(d, k);
      InputTerminals(d, x, k);
    } else {
      InputTerminals(d, x, Wire(0, 0, W));
      var b := BackwardEntry(d, x);
      if b.Some? && b.value.Link? {
        ForwardRedoesBackward(d, x, b.value.wire);
        assert Get(f, b.value.wire) == Some(x);
      }
    }
  }

  /** The loop `rev[dest] = src` over the items of `fwd`. */
  method InvertWiring(d: Definition, f: map<Wire, Target>) returns (r: map<Target, Target>)
    requires Compilable(d)
    requires forall k :: Get(f, k) == ForwardEntry(d, k)
    ensures forall x :: Get(r, x) == (if InputKey(d, x) then None else BackwardEntry(d, x))
  {
    r := map[];
    var todo := f.Keys;
    ghost var done: set<Wire> := {};
    while todo != {}
      invariant todo <= f.Keys && done <= f.Keys
      invariant forall k :: k in f ==> (k in done <==> k !in todo)
      invariant forall k :: k in done ==> Get(r, f[k]) == Some(Link(k))
      invariant forall y :: y in r ==> r[y].Link? && r[y].wire in done && f[r[y].wire] == y
      decreases |todo|
    {
      var k :| k in todo;
      forall k' | k' in done ensures f[k'] != f[k] {
        if f[k'] == f[k] {
          assert Get(f, k') == ForwardEntry(d, k') && Get(f, k) == ForwardEntry(d, k);
          ForwardInjective(d, k', k);
        }
      }
      r := r[f[k] := Link(k)];
      todo, done := todo - {k}, done + {k};
    }
    forall x ensures Get(r, x) == if InputKey(d, x) then None else BackwardEntry(d, x) {
      InvertedExact(d, f, r, x);
    }
  }

  /** The input terminals on the West ports of the first column. */
  method AddInputs(d: Definition, r0: map<Target, Target>) returns (r: map<Target, Target>)
    requires Compilable(d)
    requires forall x :: Get(r0, x) == (if InputKey(d, x) then None else BackwardEntry(d, x))
    ensures forall x :: Get(r, x) == BackwardEntry(d, x)
  {
    r := r0;
    for e := 0 to |d.inputs|
      invariant forall x :: Get(r, x) == (if InputKey(d, x) && x.wire.row >= e then None else BackwardEntry(d, x))
    {
      r := r[Link(Wire(0, e, W)) := Terminal(d.inputs[e])];
    }
  }

  /** Why the constructor refuses a machine: some targets have several
      sources (listed with them), or the alphabets differ in size. */
  datatype Precheck =
    | NotReversible(imprecise: map<(State, Symbol), seq<(State, Symbol)>>)
    | AlphabetSizes(inputs: nat, outputs: nat)

  // ---------------------------------------------------------------------
  // The grid

  class Grid {
    const def: Definition
    const m: nat
    const n: nat
    const fwd: map<Wire, Target>
    const rev: map<Target, Target>
    /** `REs[col][row]`, each element held as its orientation. */
    const cells: array2<Orientation>

    ghost predicate Valid()
    {
      && m == |def.states| && n == |def.inputs|
      && cells.Length0 == m && cells.Length1 == n + 1
      && Wired(def, Tables(fwd, rev))
    }

    /** The orientations of the grid, column by column. */
    ghost function Snapshot(): Cells
      reads cells
    {
      seq(cells.Length0, c requires 0 <= c < cells.Length0 reads cells =>
        seq(cells.Length1, r requires 0 <= r < cells.Length1 reads cells => cells[c, r]))
    }

    /** `RFA(fst)` once the prechecks pass: every element vertical except
        the keeper of the start state, and both dictionaries wired. */
    constructor Init(d: Definition)
      requires Compilable(d)
      ensures Valid() && def == d && fresh(cells)
      ensures Snapshot() == InitialCells(d)
    {
      var m', n' := |d.states|, |d.inputs|;
      var a := new Orientation[m', n' + 1]((c, r) => V);
      a[IndexOf(d.states, d.start), n'] := H;
      var f := BuildForward(d);
      var r := InvertWiring(d, f);
      r := AddInputs(d, r);
      def, m, n, fwd, rev, cells := d, m', n', f, r, a;
      new;
      assert Snapshot() == InitialCells(d) by {
        var s, i := Snapshot(), InitialCells(d);
        forall c | 0 <= c < m ensures s[c] == i[c] {
        }
      }
    }

    /** `RFA(fst)`: refused, naming the ambiguous targets, when `reverse()`
        reports a collision; refused when the alphabets differ in size;
        otherwise the grid in the start state. */
    static method Create(fst: Fst) returns (r: Result<Grid, Precheck>)
      requires fst.Valid()
      ensures r.Ok? <==> Compilable(fst.def)
      ensures r.Ok? ==> fresh(r.value) && fresh(r.value.cells) && r.value.Valid() && r.value.def == fst.def
      ensures r.Ok? ==> r.value.Snapshot() == InitialCells(fst.def)
      ensures !Injective(fst.def.delta) ==> r.Fail? && r.error.NotReversible?
      ensures r.Fail? && r.error.NotReversible? ==>
        forall t :: t in r.error.imprecise <==> |Sources(fst.def.delta, t)| >= 2
      ensures r.Fail? && r.error.NotReversible? ==>
        forall t :: t in r.error.imprecise ==>
          Distinct(r.error.imprecise[t]) && Elems(r.error.imprecise[t]) == Sources(fst.def.delta, t)
      ensures Injective(fst.def.delta) && |fst.def.inputs| != |fst.def.outputs| ==>
        r == Fail(AlphabetSizes(|fst.def.inputs|, |fst.def.outputs|))
      ensures r.Fail? && r.error.AlphabetSizes? ==>
        r.error == AlphabetSizes(|fst.def.inputs|, |fst.def.outputs|) && r.error.inputs != r.error.outputs
    {
      var ok, imprecise, _ := fst.Reverse();
      if !ok {
        return Fail(NotReversible(imprecise));
      }
      if |fst.def.inputs| != |fst.def.outputs| {
        return Fail(AlphabetSizes(|fst.def.inputs|, |fst.def.outputs|));
      }
      var g := new Grid.Init(fst.def);
      return Ok(g);
    }

    /** `get_state`: the state of the first column whose keeper is `H`. */
    method GetState() returns (q: Option<State>)
      requires Valid()
      ensures q == CurrentState(def, Snapshot())
    {
      var qi := 0;
      while qi < m
        invariant 0 <= qi <= m
        invariant Keeper(Snapshot(), n, 0) == Keeper(Snapshot(), n, qi)
      {
        if cells[qi, n] == H {
          return Some(def.states[qi]);
        }
        qi := qi + 1;
      }
      return None;
    }

    /** `REs[col][row].re_input(port)`: the element the message enters
        turns by the law and names the exit key. */
    method Pass(w: Wire, reverse: bool) returns (key: Wire)
      requires Valid() && 0 <= w.col < m && 0 <= w.row < n + 1
      modifies cells
      ensures InGrid(old(Snapshot()), w)
      ensures (Snapshot(), key) == Turn(reverse, old(Snapshot()), w)
    {
      ghost var before := Snapshot();
      var (o, out) := Law(cells[w.col, w.row], w.port, reverse);
      cells[w.col, w.row] := o;
      key := Wire(w.col, w.row, out);
      assert Snapshot() == Turn(reverse, before, w).0 by {
        var s, t := Snapshot(), Turn(reverse, before, w).0;
        forall c | 0 <= c < m ensures s[c] == t[c] {
        }
      }
    }

    /** The message loop shared by `step_forward` and `step_backward`:
        turn the element the message enters, look its exit up and go on
        until a terminal is reached. */
    method Carry(reverse: bool, start: Wire) returns (r: Result<Symbol, Fault>)
      requires Valid()
      modifies cells
      ensures Walked(Snapshot(), r) == Walk(Tables(fwd, rev), reverse, old(Snapshot()), start, Fuel(def))
    {
      var w, fuel := start, Fuel(def);
      ghost var goal := Walk(Tables(fwd, rev), reverse, Snapshot(), start, fuel);
      while true
        invariant Walk(Tables(fwd, rev), reverse, Snapshot(), w, fuel) == goal
        decreases fuel
      {
        if !(0 <= w.col < m && 0 <= w.row < n + 1) {
          return Fail(OffGrid(w));
        }
        if fuel == 0 {
          return Fail(OutOfFuel);
        }
        var key := Pass(w, reverse);
        var e := if reverse then Get(rev, Link(key)) else Get(fwd, key);
        match e
        case None =>
          return Fail(Unwired(key));
        case Some(Terminal(x)) =>
          return Ok(x);
        case Some(Link(next)) =>
          w, fuel := next, fuel - 1;
      }
    }

    /** `step_forward`: the input's row on the West side of the first column. */
    method StepForward(c: Symbol) returns (r: Result<Symbol, Fault>)
      requires Valid()
      modifies cells
      ensures Walked(Snapshot(), r) == Inject(def, Tables(fwd, rev), false, old(Snapshot()), c)
    {
      if c !in def.inputs {
        return Fail(Unknown(c));
      }
      r := Carry(false, Wire(0, IndexOf(def.inputs, c), W));
    }

    /** `step_backward`: the output's row on the East side of the last column. */
    method StepBackward(c: Symbol) returns (r: Result<Symbol, Fault>)
      requires Valid()
      modifies cells
      ensures Walked(Snapshot(), r) == Inject(def, Tables(fwd, rev), true, old(Snapshot()), c)
    {
      if c !in def.outputs {
        return Fail(Unknown(c));
      }
      r := Carry(true, Wire(m - 1, IndexOf(def.outputs, c), E));
    }

    /** `step`: one of the two by direction. */
    method Step(c: Symbol, reverse: bool) returns (r: Result<Symbol, Fault>)
      requires Valid()
      modifies cells
      ensures Walked(Snapshot(), r) == Inject(def, Tables(fwd, rev), reverse, old(Snapshot()), c)
    {
      if reverse {
        r := StepBackward(c);
      } else {
        r := StepForward(c);
      }
    }

    /** The loop of `run`: each symbol stepped in turn, the outputs
        collected, stopping at the first failure. */
    method StepAll(s: seq<Symbol>, reverse: bool) returns (r: Result<seq<Symbol>, Fault>)
      requires Valid()
      modifies cells
      ensures Ran(Snapshot(), r) == RunSteps(def, Tables(fwd, rev), reverse, old(Snapshot()), s)
    {
      ghost var t, start := Tables(fwd, rev), Snapshot();
      var out: seq<Symbol> := [];
      for i := 0 to |s|
        invariant RunSteps(def, t, reverse, start, s[..i]) == Ran(Snapshot(), Ok(out))
      {
        var x := Step(s[i], reverse);
        if x.Fail? {
          RunStepsStop(def, t, reverse, start, s, i);
          return Fail(x.error);
        }
        RunStepsExtend(def, t, reverse, start, s, i);
        out := out + [x.value];
      }
      assert s[..|s|] == s;
      return Ok(out);
    }

    /** `run`: step through the string collecting the symbols, then read
        acceptance off the grid; backward, the symbols come out reversed. */
    method Run(s: seq<Symbol>, reverse: bool) returns (r: Result<(bool, seq<Symbol>), Fault>)
      requires Valid()
      modifies cells
      ensures Finished(Snapshot(), r) == RunOutcome(def, Tables(fwd, rev), reverse, old(Snapshot()), s)
    {
      var steps := StepAll(s, reverse);
      if steps.Fail? {
        return Fail(steps.error);
      }
      var out := steps.value;
      var q := GetState();
      if reverse {
        return Ok((q == Some(def.start), Reverse(out)));
      } else {
        return Ok((q.Some? && q.value in def.accepting, out));
      }
    }
  }
}
