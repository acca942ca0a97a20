/** The example machine of driver.py carried through the grid: the forward
    run of "aba" hop by hop, the same output as the transducer itself, and
    the backward run of the reversed output recovering the input. A second
    machine, with two transitions onto one target, is refused. */
module Scenario {
  import opened Common
  import opened Element
  import opened Transducer
  import opened Wiring
  import opened Traversal

  /** The driver's machine: two states, inputs `a`, `b`, outputs `x`, `y`. */
  const Driver: Definition := Definition(
    ["1", "2"], ['a', 'b'],
    map[("1", 'a') := ("2", 'x'), ("1", 'b') := ("1", 'x'), ("2", 'a') := ("1", 'y'), ("2", 'b') := ("2", 'y')],
    "1", {"1"}, ['x', 'y'])

  /** The driver's machine is one the constructor accepts. */
  lemma DriverCompilable()
    ensures Compilable(Driver)
  {
    DriverDeclared();
    DriverInjective();
  }

  lemma DriverDeclared()
    ensures WellFormed(Driver)
  {
    DriverKeys();
  }

  lemma DriverInjective()
    ensures Injective(Driver.delta)
  {
    DriverStatesDiffer();
    DriverKeys();
  }

  lemma DriverStatesDiffer()
    ensures Driver.states[0] != Driver.states[1]
  {
    assert Driver.states[0][0] != Driver.states[1][0];
  }

  lemma DriverKeys()
    ensures Driver.delta.Keys == {(Driver.states[0], 'a'), (Driver.states[0], 'b'), (Driver.states[1], 'a'), (Driver.states[1], 'b')}
  {
  }

  /** The driver's `fwd` written out key by key: the chains and keepers of
      both columns, the mesh from column 0 to column 1, the four transition
      edges on the West ports and the output terminals of column 1. */
  function DriverWiring(k: Wire): Option<Target>
  {
    match (k.col, k.row, k.port)
    case (0, 0, N) => Some(Link(Wire(0, 2, E)))
    case (0, 0, S) => Some(Link(Wire(0, 1, N)))
    case (0, 0, E) => Some(Link(Wire(1, 0, W)))
    case (0, 0, W) => Some(Link(Wire(1, 0, E)))
    case (0, 1, N) => Some(Link(Wire(0, 0, S)))
    case (0, 1, S) => Some(Link(Wire(0, 2, N)))
    case (0, 1, E) => Some(Link(Wire(1, 1, W)))
    case (0, 1, W) => Some(Link(Wire(0, 0, E)))
    case (0, 2, N) => Some(Link(Wire(0, 1, S)))
    case (0, 2, S) => Some(Link(Wire(0, 2, S)))
    case (0, 2, W) => Some(Link(Wire(0, 0, N)))
    case (1, 0, N) => Some(Link(Wire(1, 2, E)))
    case (1, 0, S) => Some(Link(Wire(1, 1, N)))
    case (1, 0, E) => Some(Terminal('x'))
    case (1, 0, W) => Some(Link(Wire(0, 1, E)))
    case (1, 1, N) => Some(Link(Wire(1, 0, S)))
    case (1, 1, S) => Some(Link(Wire(1, 2, N)))
    case (1, 1, E) => Some(Terminal('y'))
    case (1, 1, W) => Some(Link(Wire(1, 1, E)))
    case (1, 2, N) => Some(Link(Wire(1, 1, S)))
    case (1, 2, S) => Some(Link(Wire(1, 2, S)))
    case (1, 2, W) => Some(Link(Wire(1, 0, N)))
    case _ => None
  }

  /** The reference entries of the driver's `fwd` are that table. */
  lemma DriverWiringIsForward(k: Wire)
    requires Compilable(Driver)
    ensures ForwardEntry(Driver, k) == DriverWiring(k)
  {
    if k.port == W && 0 <= k.col < 2 && 0 <= k.row < 2 {
      DriverTransitions(k);
    } else {
      DriverStart();
      if k.port == E {
        DriverPassages(Driver, k);
      } else {
        DriverChains(Driver, k);
      }
    }
  }

  /** The mesh and the output terminals, on East ports: the same for every
      two-state machine over the driver's alphabets. */
  lemma DriverPassages(d: Definition, k: Wire)
    requires Compilable(d) && |d.states| == 2 && |d.inputs| == 2 && d.outputs == ['x', 'y']
    requires k.port == E
    ensures ForwardEntry(d, k) == DriverWiring(k)
  {
    assert Transitions(d, k) == None;
  }

  /** The column chains and the keepers' West ports: the same for every
      two-state machine over the driver's alphabets. */
  lemma DriverChains(d: Definition, k: Wire)
    requires Compilable(d) && |d.states| == 2 && |d.inputs| == 2 && d.outputs == ['x', 'y']
    requires k.port != E && !(k.port == W && 0 <= k.col < 2 && 0 <= k.row < 2)
    ensures ForwardEntry(d, k) == DriverWiring(k)
  {
    assert Transitions(d, k) == None;
  }

  /** The four West-port edges of the driver's transitions. */
  lemma DriverTransitions(k: Wire)
    requires Compilable(Driver)
    requires k.port == W && 0 <= k.col < 2 && 0 <= k.row < 2
    ensures ForwardEntry(Driver, k) == DriverWiring(k)
  {
    if k.col == 0 && k.row == 0 {
      DriverEdge1a();
    } else if k.col == 0 {
      DriverEdge1b();
    } else if k.row == 0 {
      DriverEdge2a();
    } else {
      DriverEdge2b();
    }
  }

  /** (1, a) goes to (2, x). */
  lemma DriverEdge1a()
    ensures Compilable(Driver) && ForwardEntry(Driver, Wire(0, 0, W)) == Some(Link(Wire(1, 0, E)))
  {
    assert Driver.delta[("1", 'a')] == ("2", 'x');
    DriverIndices();
    DriverCompilable();
    TransitionEdge(Driver, 0, 0, Driver.states[1], 'x', 1, 0);
  }

  /** (1, b) goes to (1, x). */
  lemma DriverEdge1b()
    ensures Compilable(Driver) && ForwardEntry(Driver, Wire(0, 1, W)) == Some(Link(Wire(0, 0, E)))
  {
    assert Driver.delta[("1", 'b')] == ("1", 'x');
    DriverIndices();
    DriverCompilable();
    TransitionEdge(Driver, 0, 1, Driver.states[0], 'x', 0, 0);
  }

  /** (2, a) goes to (1, y). */
  lemma DriverEdge2a()
    ensures Compilable(Driver) && ForwardEntry(Driver, Wire(1, 0, W)) == Some(Link(Wire(0, 1, E)))
  {
    assert Driver.delta[("2", 'a')] == ("1", 'y');
    DriverIndices();
    DriverCompilable();
    TransitionEdge(Driver, 1, 0, Driver.states[0], 'y', 0, 1);
  }

  /** (2, b) goes to (2, y). */
  lemma DriverEdge2b()
    ensures Compilable(Driver) && ForwardEntry(Driver, Wire(1, 1, W)) == Some(Link(Wire(1, 1, E)))
  {
    assert Driver.delta[("2", 'b')] == ("2", 'y');
    DriverIndices();
    DriverCompilable();
    TransitionEdge(Driver, 1, 1, Driver.states[1], 'y', 1, 1);
  }

  /** Where each label of the driver sits. */
  lemma DriverIndices()
    ensures IndexOf(Driver.states, Driver.states[0]) == 0 && IndexOf(Driver.states, Driver.states[1]) == 1
    ensures IndexOf(Driver.outputs, 'x') == 0 && IndexOf(Driver.outputs, 'y') == 1
  {
    DriverStatesDiffer();
  }

  /** The West port of the element of a transition leads to the East port
      of the element of its target. */
  lemma TransitionEdge(d: Definition, c: nat, r: nat, q': State, o: Symbol, c': nat, r': nat)
    requires Compilable(d) && c < |d.states| && r < |d.inputs|
    requires (d.states[c], d.inputs[r]) in d.delta && d.delta[(d.states[c], d.inputs[r])] == (q', o)
    requires q' in d.states && IndexOf(d.states, q') == c' && o in d.outputs && IndexOf(d.outputs, o) == r'
    ensures ForwardEntry(d, Wire(c, r, W)) == Some(Link(Wire(c', r', E)))
  {
  }

  /** The driver's grid: column of state 1 (rows `a`, `b`, keeper), then
      the column of state 2. */
  function G(a0: Orientation, b0: Orientation, k0: Orientation, a1: Orientation, b1: Orientation, k1: Orientation): Cells
  {
    [[a0, b0, k0], [a1, b1, k1]]
  }

  /** One element of the driver's grid turned. */
  lemma TurnAt(reverse: bool, a0: Orientation, b0: Orientation, k0: Orientation, a1: Orientation, b1: Orientation, k1: Orientation, w: Wire)
    requires 0 <= w.col < 2 && 0 <= w.row < 3
    ensures var cells := G(a0, b0, k0, a1, b1, k1);
      var (o, out) := Law(cells[w.col][w.row], w.port, reverse);
      Turn(reverse, cells, w) == (G(
        if w == Wire(0, 0, w.port) then o else a0, if w == Wire(0, 1, w.port) then o else b0,
        if w == Wire(0, 2, w.port) then o else k0, if w == Wire(1, 0, w.port) then o else a1,
        if w == Wire(1, 1, w.port) then o else b1, if w == Wire(1, 2, w.port) then o else k1),
        Wire(w.col, w.row, out))
  {
    var cells := G(a0, b0, k0, a1, b1, k1);
    var (o, out) := Law(cells[w.col][w.row], w.port, reverse);
    var col := cells[w.col][w.row := o];
    if w.col == 0 {
      assert col == [if w.row == 0 then o else a0, if w.row == 1 then o else b0, if w.row == 2 then o else k0];
      assert cells[w.col := col] == [col, [a1, b1, k1]];
    } else {
      assert col == [if w.row == 0 then o else a1, if w.row == 1 then o else b1, if w.row == 2 then o else k1];
      assert cells[w.col := col] == [[a0, b0, k0], col];
    }
  }

  /** `fwd` holds the driver's table. */
  ghost predicate DriverForward(t: Tables)
  {
    forall k :: Get(t.fwd, k) == DriverWiring(k)
  }

  lemma WiredDriverForward(t: Tables)
    requires Wired(Driver, t)
    ensures DriverForward(t)
  {
    forall k ensures Get(t.fwd, k) == DriverWiring(k) {
      DriverWiringIsForward(k);
    }
  }

  /** One forward hop over the driver's dictionaries. */
  lemma Hop(t: Tables, a0: Orientation, b0: Orientation, k0: Orientation, a1: Orientation, b1: Orientation, k1: Orientation,
            w: Wire, fuel: nat, next: Target)
    requires DriverForward(t)
    requires 0 <= w.col < 2 && 0 <= w.row < 3 && fuel > 0
    requires DriverWiring(Wire(w.col, w.row, Law(G(a0, b0, k0, a1, b1, k1)[w.col][w.row], w.port, false).1)) == Some(next)
    ensures var o := Law(G(a0, b0, k0, a1, b1, k1)[w.col][w.row], w.port, false).0;
      var cells' := G(
        if w == Wire(0, 0, w.port) then o else a0, if w == Wire(0, 1, w.port) then o else b0,
        if w == Wire(0, 2, w.port) then o else k0, if w == Wire(1, 0, w.port) then o else a1,
        if w == Wire(1, 1, w.port) then o else b1, if w == Wire(1, 2, w.port) then o else k1);
      Walk(t, false, G(a0, b0, k0, a1, b1, k1), w, fuel) ==
        match next
        case Terminal(x) => Walked(cells', Ok(x))
        case Link(w') => Walk(t, false, cells', w', fuel - 1)
  {
    TurnAt(false, a0, b0, k0, a1, b1, k1, w);
    var key := Turn(false, G(a0, b0, k0, a1, b1, k1), w).1;
    assert Entry(t, false, key) == Some(next);
  }

  /** The hops of the walk for `a` in step 1, one lemma each. */
  lemma ForwardA1Hop1(t: Tables)
    requires DriverForward(t)
    ensures Walk(t, false, G(V, V, H, V, V, V), Wire(0, 0, W), 24) == Walk(t, false, G(H, V, H, V, V, V), Wire(0, 1, N), 23)
  {
    Hop(t, V, V, H, V, V, V, Wire(0, 0, W), 24, Link(Wire(0, 1, N)));
  }

  lemma ForwardA1Hop2(t: Tables)
    requires DriverForward(t)
    ensures Walk(t, false, G(H, V, H, V, V, V), Wire(0, 1, N), 23) == Walk(t, false, G(H, V, H, V, V, V), Wire(0, 2, N), 22)
  {
    Hop(t, H, V, H, V, V, V, Wire(0, 1, N), 23, Link(Wire(0, 2, N)));
  }

  lemma ForwardA1Hop3(t: Tables)
    requires DriverForward(t)
    ensures Walk(t, false, G(H, V, H, V, V, V), Wire(0, 2, N), 22) == Walk(t, false, G(H, V, V, V, V, V), Wire(0, 0, N), 21)
  {
    Hop(t, H, V, H, V, V, V, Wire(0, 2, N), 22, Link(Wire(0, 0, N)));
  }

  lemma ForwardA1Hop4(t: Tables)
    requires DriverForward(t)
    ensures Walk(t, false, G(H, V, V, V, V, V), Wire(0, 0, N), 21) == Walk(t, false, G(V, V, V, V, V, V), Wire(1, 0, E), 20)
  {
    Hop(t, H, V, V, V, V, V, Wire(0, 0, N), 21, Link(Wire(1, 0, E)));
  }

  lemma ForwardA1Hop5(t: Tables)
    requires DriverForward(t)
    ensures Walk(t, false, G(V, V, V, V, V, V), Wire(1, 0, E), 20) == Walk(t, false, G(V, V, V, H, V, V), Wire(1, 2, E), 19)
  {
    Hop(t, V, V, V, V, V, V, Wire(1, 0, E), 20, Link(Wire(1, 2, E)));
  }

  lemma ForwardA1Hop6(t: Tables)
    requires DriverForward(t)
    ensures Walk(t, false, G(V, V, V, H, V, V), Wire(1, 2, E), 19) == Walk(t, false, G(V, V, V, H, V, H), Wire(1, 1, S), 18)
  {
    Hop(t, V, V, V, H, V, V, Wire(1, 2, E), 19, Link(Wire(1, 1, S)));
  }

  lemma ForwardA1Hop7(t: Tables)
    requires DriverForward(t)
    ensures Walk(t, false, G(V, V, V, H, V, H), Wire(1, 1, S), 18) == Walk(t, false, G(V, V, V, H, V, H), Wire(1, 0, S), 17)
  {
    Hop(t, V, V, V, H, V, H, Wire(1, 1, S), 18, Link(Wire(1, 0, S)));
  }

  lemma ForwardA1Hop8(t: Tables)
    requires DriverForward(t)
    ensures Walk(t, false, G(V, V, V, H, V, H), Wire(1, 0, S), 17) == Walked(G(V, V, V, V, V, H), Ok('x'))
  {
    Hop(t, V, V, V, H, V, H, Wire(1, 0, S), 17, Terminal('x'));
  }

  /** The first `a`: the keeper of state 1 hands over to state 2 and `x` comes out. */
  lemma ForwardA1(t: Tables)
    requires DriverForward(t)
    ensures Inject(Driver, t, false, G(V, V, H, V, V, V), 'a') == Walked(G(V, V, V, V, V, H), Ok('x'))
  {
    assert Fuel(Driver) == 24 && IndexOf(Driver.inputs, 'a') == 0;
    ForwardA1Hop1(t);
    ForwardA1Hop2(t);
    ForwardA1Hop3(t);
    ForwardA1Hop4(t);
    ForwardA1Hop5(t);
    ForwardA1Hop6(t);
    ForwardA1Hop7(t);
    ForwardA1Hop8(t);
  }

  /** The hops of the walk for `b` in step 2, one lemma each. */
  lemma ForwardBHop1(t: Tables)
    requires DriverForward(t)
    ensures Walk(t, false, G(V, V, V, V, V, H), Wire(0, 1, W), 24) == Walk(t, false, G(V, H, V, V, V, H), Wire(0, 2, N), 23)
  {
    Hop(t, V, V, V, V, V, H, Wire(0, 1, W), 24, Link(Wire(0, 2, N)));
  }

  lemma ForwardBHop2(t: Tables)
    requires DriverForward(t)
    ensures Walk(t, false, G(V, H, V, V, V, H), Wire(0, 2, N), 23) == Walk(t, false, G(V, H, V, V, V, H), Wire(0, 2, S), 22)
  {
    Hop(t, V, H, V, V, V, H, Wire(0, 2, N), 23, Link(Wire(0, 2, S)));
  }

  lemma ForwardBHop3(t: Tables)
    requires DriverForward(t)
    ensures Walk(t, false, G(V, H, V, V, V, H), Wire(0, 2, S), 22) == Walk(t, false, G(V, H, V, V, V, H), Wire(0, 1, S), 21)
  {
    Hop(t, V, H, V, V, V, H, Wire(0, 2, S), 22, Link(Wire(0, 1, S)));
  }

  lemma ForwardBHop4(t: Tables)
    requires DriverForward(t)
    ensures Walk(t, false, G(V, H, V, V, V, H), Wire(0, 1, S), 21) == Walk(t, false, G(V, V, V, V, V, H), Wire(1, 1, W), 20)
  {
    Hop(t, V, H, V, V, V, H, Wire(0, 1, S), 21, Link(Wire(1, 1, W)));
  }

  lemma ForwardBHop5(t: Tables)
    requires DriverForward(t)
    ensures Walk(t, false, G(V, V, V, V, V, H), Wire(1, 1, W), 20) == Walk(t, false, G(V, V, V, V, H, H), Wire(1, 2, N), 19)
  {
    Hop(t, V, V, V, V, V, H, Wire(1, 1, W), 20, Link(Wire(1, 2, N)));
  }

  lemma ForwardBHop6(t: Tables)
    requires DriverForward(t)
    ensures Walk(t, false, G(V, V, V, V, H, H), Wire(1, 2, N), 19) == Walk(t, false, G(V, V, V, V, H, V), Wire(1, 0, N), 18)
  {
    Hop(t, V, V, V, V, H, H, Wire(1, 2, N), 19, Link(Wire(1, 0, N)));
  }

  lemma ForwardBHop7(t: Tables)
    requires DriverForward(t)
    ensures Walk(t, false, G(V, V, V, V, H, V), Wire(1, 0, N), 18) == Walk(t, false, G(V, V, V, V, H, V), Wire(1, 1, N), 17)
  {
    Hop(t, V, V, V, V, H, V, Wire(1, 0, N), 18, Link(Wire(1, 1, N)));
  }

  lemma ForwardBHop8(t: Tables)
    requires DriverForward(t)
    ensures Walk(t, false, G(V, V, V, V, H, V), Wire(1, 1, N), 17) == Walk(t, false, G(V, V, V, V, V, V), Wire(1, 1, E), 16)
  {
    Hop(t, V, V, V, V, H, V, Wire(1, 1, N), 17, Link(Wire(1, 1, E)));
  }

  lemma ForwardBHop9(t: Tables)
    requires DriverForward(t)
    ensures Walk(t, false, G(V, V, V, V, V, V), Wire(1, 1, E), 16) == Walk(t, false, G(V, V, V, V, H, V), Wire(1, 0, S), 15)
  {
    Hop(t, V, V, V, V, V, V, Wire(1, 1, E), 16, Link(Wire(1, 0, S)));
  }

  lemma ForwardBHop10(t: Tables)
    requires DriverForward(t)
    ensures Walk(t, false, G(V, V, V, V, H, V), Wire(1, 0, S), 15) == Walk(t, false, G(V, V, V, V, H, V), Wire(1, 2, E), 14)
  {
    Hop(t, V, V, V, V, H, V, Wire(1, 0, S), 15, Link(Wire(1, 2, E)));
  }

  lemma ForwardBHop11(t: Tables)
    requires DriverForward(t)
    ensures Walk(t, false, G(V, V, V, V, H, V), Wire(1, 2, E), 14) == Walk(t, false, G(V, V, V, V, H, H), Wire(1, 1, S), 13)
  {
    Hop(t, V, V, V, V, H, V, Wire(1, 2, E), 14, Link(Wire(1, 1, S)));
  }

  lemma ForwardBHop12(t: Tables)
    requires DriverForward(t)
    ensures Walk(t, false, G(V, V, V, V, H, H), Wire(1, 1, S), 13) == Walked(G(V, V, V, V, V, H), Ok('y'))
  {
    Hop(t, V, V, V, V, H, H, Wire(1, 1, S), 13, Terminal('y'));
  }

  /** The `b`: state 2 keeps its keeper and `y` comes out. */
  lemma ForwardB(t: Tables)
    requires DriverForward(t)
    ensures Inject(Driver, t, false, G(V, V, V, V, V, H), 'b') == Walked(G(V, V, V, V, V, H), Ok('y'))
  {
    assert Fuel(Driver) == 24 && IndexOf(Driver.inputs, 'b') == 1;
    ForwardBHop1(t);
    ForwardBHop2(t);
    ForwardBHop3(t);
    ForwardBHop4(t);
    ForwardBHop5(t);
    ForwardBHop6(t);
    ForwardBHop7(t);
    ForwardBHop8(t);
    ForwardBHop9(t);
    ForwardBHop10(t);
    ForwardBHop11(t);
    ForwardBHop12(t);
  }

  /** The hops of the walk for `a` in step 3, one lemma each. */
  lemma ForwardA2Hop1(t: Tables)
    requires DriverForward(t)
    ensures Walk(t, false, G(V, V, V, V, V, H), Wire(0, 0, W), 24) == Walk(t, false, G(H, V, V, V, V, H), Wire(0, 1, N), 23)
  {
    Hop(t, V, V, V, V, V, H, Wire(0, 0, W), 24, Link(Wire(0, 1, N)));
  }

  lemma ForwardA2Hop2(t: Tables)
    requires DriverForward(t)
    ensures Walk(t, false, G(H, V, V, V, V, H), Wire(0, 1, N), 23) == Walk(t, false, G(H, V, V, V, V, H), Wire(0, 2, N), 22)
  {
    Hop(t, H, V, V, V, V, H, Wire(0, 1, N), 23, Link(Wire(0, 2, N)));
  }

  lemma ForwardA2Hop3(t: Tables)
    requires DriverForward(t)
    ensures Walk(t, false, G(H, V, V, V, V, H), Wire(0, 2, N), 22) == Walk(t, false, G(H, V, V, V, V, H), Wire(0, 2, S), 21)
  {
    Hop(t, H, V, V, V, V, H, Wire(0, 2, N), 22, Link(Wire(0, 2, S)));
  }

  lemma ForwardA2Hop4(t: Tables)
    requires DriverForward(t)
    ensures Walk(t, false, G(H, V, V, V, V, H), Wire(0, 2, S), 21) == Walk(t, false, G(H, V, V, V, V, H), Wire(0, 1, S), 20)
  {
    Hop(t, H, V, V, V, V, H, Wire(0, 2, S), 21, Link(Wire(0, 1, S)));
  }

  lemma ForwardA2Hop5(t: Tables)
    requires DriverForward(t)
    ensures Walk(t, false, G(H, V, V, V, V, H), Wire(0, 1, S), 20) == Walk(t, false, G(H, V, V, V, V, H), Wire(0, 0, S), 19)
  {
    Hop(t, H, V, V, V, V, H, Wire(0, 1, S), 20, Link(Wire(0, 0, S)));
  }

  lemma ForwardA2Hop6(t: Tables)
    requires DriverForward(t)
    ensures Walk(t, false, G(H, V, V, V, V, H), Wire(0, 0, S), 19) == Walk(t, false, G(V, V, V, V, V, H), Wire(1, 0, W), 18)
  {
    Hop(t, H, V, V, V, V, H, Wire(0, 0, S), 19, Link(Wire(1, 0, W)));
  }

  lemma ForwardA2Hop7(t: Tables)
    requires DriverForward(t)
    ensures Walk(t, false, G(V, V, V, V, V, H), Wire(1, 0, W), 18) == Walk(t, false, G(V, V, V, H, V, H), Wire(1, 1, N), 17)
  {
    Hop(t, V, V, V, V, V, H, Wire(1, 0, W), 18, Link(Wire(1, 1, N)));
  }

  lemma ForwardA2Hop8(t: Tables)
    requires DriverForward(t)
    ensures Walk(t, false, G(V, V, V, H, V, H), Wire(1, 1, N), 17) == Walk(t, false, G(V, V, V, H, V, H), Wire(1, 2, N), 16)
  {
    Hop(t, V, V, V, H, V, H, Wire(1, 1, N), 17, Link(Wire(1, 2, N)));
  }

  lemma ForwardA2Hop9(t: Tables)
    requires DriverForward(t)
    ensures Walk(t, false, G(V, V, V, H, V, H), Wire(1, 2, N), 16) == Walk(t, false, G(V, V, V, H, V, V), Wire(1, 0, N), 15)
  {
    Hop(t, V, V, V, H, V, H, Wire(1, 2, N), 16, Link(Wire(1, 0, N)));
  }

  lemma ForwardA2Hop10(t: Tables)
    requires DriverForward(t)
    ensures Walk(t, false, G(V, V, V, H, V, V), Wire(1, 0, N), 15) == Walk(t, false, G(V, V, V, V, V, V), Wire(0, 1, E), 14)
  {
    Hop(t, V, V, V, H, V, V, Wire(1, 0, N), 15, Link(Wire(0, 1, E)));
  }

  lemma ForwardA2Hop11(t: Tables)
    requires DriverForward(t)
    ensures Walk(t, false, G(V, V, V, V, V, V), Wire(0, 1, E), 14) == Walk(t, false, G(V, H, V, V, V, V), Wire(0, 0, S), 13)
  {
    Hop(t, V, V, V, V, V, V, Wire(0, 1, E), 14, Link(Wire(0, 0, S)));
  }

  lemma ForwardA2Hop12(t: Tables)
    requires DriverForward(t)
    ensures Walk(t, false, G(V, H, V, V, V, V), Wire(0, 0, S), 13) == Walk(t, false, G(V, H, V, V, V, V), Wire(0, 2, E), 12)
  {
    Hop(t, V, H, V, V, V, V, Wire(0, 0, S), 13, Link(Wire(0, 2, E)));
  }

  lemma ForwardA2Hop13(t: Tables)
    requires DriverForward(t)
    ensures Walk(t, false, G(V, H, V, V, V, V), Wire(0, 2, E), 12) == Walk(t, false, G(V, H, H, V, V, V), Wire(0, 1, S), 11)
  {
    Hop(t, V, H, V, V, V, V, Wire(0, 2, E), 12, Link(Wire(0, 1, S)));
  }

  lemma ForwardA2Hop14(t: Tables)
    requires DriverForward(t)
    ensures Walk(t, false, G(V, H, H, V, V, V), Wire(0, 1, S), 11) == Walk(t, false, G(V, V, H, V, V, V), Wire(1, 1, W), 10)
  {
    Hop(t, V, H, H, V, V, V, Wire(0, 1, S), 11, Link(Wire(1, 1, W)));
  }

  lemma ForwardA2Hop15(t: Tables)
    requires DriverForward(t)
    ensures Walk(t, false, G(V, V, H, V, V, V), Wire(1, 1, W), 10) == Walk(t, false, G(V, V, H, V, H, V), Wire(1, 2, N), 9)
  {
    Hop(t, V, V, H, V, V, V, Wire(1, 1, W), 10, Link(Wire(1, 2, N)));
  }

  lemma ForwardA2Hop16(t: Tables)
    requires DriverForward(t)
    ensures Walk(t, false, G(V, V, H, V, H, V), Wire(1, 2, N), 9) == Walk(t, false, G(V, V, H, V, H, V), Wire(1, 2, S), 8)
  {
    Hop(t, V, V, H, V, H, V, Wire(1, 2, N), 9, Link(Wire(1, 2, S)));
  }

  lemma ForwardA2Hop17(t: Tables)
    requires DriverForward(t)
    ensures Walk(t, false, G(V, V, H, V, H, V), Wire(1, 2, S), 8) == Walk(t, false, G(V, V, H, V, H, V), Wire(1, 1, S), 7)
  {
    Hop(t, V, V, H, V, H, V, Wire(1, 2, S), 8, Link(Wire(1, 1, S)));
  }

  lemma ForwardA2Hop18(t: Tables)
    requires DriverForward(t)
    ensures Walk(t, false, G(V, V, H, V, H, V), Wire(1, 1, S), 7) == Walked(G(V, V, H, V, V, V), Ok('y'))
  {
    Hop(t, V, V, H, V, H, V, Wire(1, 1, S), 7, Terminal('y'));
  }

  /** The second `a`: the keeper of state 2 hands back to state 1 and `y` comes out. */
  lemma ForwardA2(t: Tables)
    requires DriverForward(t)
    ensures Inject(Driver, t, false, G(V, V, V, V, V, H), 'a') == Walked(G(V, V, H, V, V, V), Ok('y'))
  {
    assert Fuel(Driver) == 24 && IndexOf(Driver.inputs, 'a') == 0;
    ForwardA2Hop1(t);
    ForwardA2Hop2(t);
    ForwardA2Hop3(t);
    ForwardA2Hop4(t);
    ForwardA2Hop5(t);
    ForwardA2Hop6(t);
    ForwardA2Hop7(t);
    ForwardA2Hop8(t);
    ForwardA2Hop9(t);
    ForwardA2Hop10(t);
    ForwardA2Hop11(t);
    ForwardA2Hop12(t);
    ForwardA2Hop13(t);
    ForwardA2Hop14(t);
    ForwardA2Hop15(t);
    ForwardA2Hop16(t);
    ForwardA2Hop17(t);
    ForwardA2Hop18(t);
  }


  /** The start state is the first label. */
  lemma DriverStart()
    ensures |Driver.states| == 2 && |Driver.inputs| == 2
    ensures Driver.states[0] == Driver.start && IndexOf(Driver.states, Driver.start) == 0
  {
  }

  /** The constructor's grid for any two-state, two-symbol machine that
      starts in its first state. */
  lemma TwoByTwoInitialCells(d: Definition)
    requires WellFormed(d)
    requires |d.states| == 2 && |d.inputs| == 2 && IndexOf(d.states, d.start) == 0
    ensures InitialCells(d) == G(V, V, H, V, V, V)
  {
    var cells := InitialCells(d);
    assert cells[0] == [V, V, H] by {
      assert cells[0][0] == V && cells[0][1] == V && cells[0][2] == H;
    }
    assert cells[1] == [V, V, V] by {
      assert cells[1][0] == V && cells[1][1] == V && cells[1][2] == V;
    }
  }

  /** The driver's initial grid: only the keeper of state 1 is horizontal. */
  lemma DriverInitialCells()
    ensures WellFormed(Driver) && InitialCells(Driver) == G(V, V, H, V, V, V)
  {
    DriverDeclared();
    DriverStart();
    TwoByTwoInitialCells(Driver);
  }

  /** The transducer itself maps "aba" to "xyy" and ends in its accepting
      start state. */
  lemma DriverTransducerRun()
    ensures Run(Driver, Driver.start, "aba") == Trace(Driver.start, "xyy", None)
  {
    DriverStatesDiffer();
    DriverKeys();
    assert "aba"[1..] == "ba" && "ba"[1..] == "a" && "a"[1..] == "";
    assert Step(Driver, "1", 'a') == Ok(("2", 'x'));
    assert Step(Driver, "2", 'b') == Ok(("2", 'y'));
    assert Step(Driver, "2", 'a') == Ok(("1", 'y'));
  }

  /** The last step of the run: "a" from the grid after "ab". */
  lemma DriverRunLast(t: Tables)
    requires DriverForward(t)
    ensures RunSteps(Driver, t, false, G(V, V, V, V, V, H), "a") == Ran(G(V, V, H, V, V, V), Ok("y"))
  {
    ForwardA2(t);
    assert "a"[0] == 'a' && "a"[1..] == "";
    assert ['y'] + [] == "y";
  }

  /** The last two steps: "ba" from the grid after "a". */
  lemma DriverRunTail(t: Tables)
    requires DriverForward(t)
    ensures RunSteps(Driver, t, false, G(V, V, V, V, V, H), "ba") == Ran(G(V, V, H, V, V, V), Ok("yy"))
  {
    ForwardB(t);
    DriverRunLast(t);
    assert "ba"[0] == 'b' && "ba"[1..] == "a";
    assert ['y'] + "y" == "yy";
  }

  /** The three steps of "aba" from the initial grid. */
  lemma DriverRunSteps(t: Tables)
    requires DriverForward(t)
    ensures RunSteps(Driver, t, false, G(V, V, H, V, V, V), "aba") == Ran(G(V, V, H, V, V, V), Ok("xyy"))
  {
    ForwardA1(t);
    DriverRunTail(t);
    assert "aba"[0] == 'a' && "aba"[1..] == "ba";
    assert ['x'] + "yy" == "xyy";
  }

  /** The initial grid reads as the accepting start state. */
  lemma DriverFinalState()
    ensures CurrentState(Driver, G(V, V, H, V, V, V)) == Some(Driver.start)
    ensures Driver.start in Driver.accepting
  {
    DriverStart();
    assert Keeper(G(V, V, H, V, V, V), 2, 0) == Some(0);
  }

  /** The driver's forward run on the grid: "xyy", accepted, and the grid
      back in its initial orientations. */
  lemma DriverGridRun(t: Tables)
    requires Wired(Driver, t)
    ensures RunOutcome(Driver, t, false, InitialCells(Driver), "aba") == Finished(InitialCells(Driver), Ok((true, "xyy")))
  {
    WiredDriverForward(t);
    DriverInitialCells();
    DriverRunSteps(t);
    DriverFinalState();
  }

  /** The check of driver.py: the grid's output equals the transducer's, and
      feeding it back reversed recovers "aba" and accepts. */
  lemma DriverRoundTrip(t: Tables)
    requires Wired(Driver, t)
    ensures RunOutcome(Driver, t, false, InitialCells(Driver), "aba").result == Ok((true, Run(Driver, Driver.start, "aba").output))
    ensures RunOutcome(Driver, t, true, InitialCells(Driver), "yyx") == Finished(InitialCells(Driver), Ok((true, "aba")))
  {
    DriverTransducerRun();
    DriverGridRun(t);
    BackwardRunRecoversInput(Driver, t, "aba");
    ReversedOutput();
  }

  lemma ReversedOutput()
    ensures Reverse("xyy") == "yyx"
  {
    assert "xyy"[1..] == "yy" && "yy"[1..] == "y";
  }

  /** A machine whose transitions from (1, b) and (2, b) both go to (1, x). */
  const Colliding: Definition := Definition(
    ["1", "2"], ['a', 'b'],
    map[("1", 'a') := ("2", 'x'), ("1", 'b') := ("1", 'x'), ("2", 'a') := ("1", 'y'), ("2", 'b') := ("1", 'x')],
    "1", {"1"}, ['x', 'y'])

  /** It is refused: the target (1, x) has two sources, so it is not
      reversible and no grid is built for it. */
  lemma CollisionRefused()
    ensures |Sources(Colliding.delta, ("1", 'x'))| >= 2
    ensures !Compilable(Colliding)
  {
    var one, two := Colliding.states[0], Colliding.states[1];
    assert one != two by { assert one[0] != two[0]; }
    assert (one, 'b') in Sources(Colliding.delta, ("1", 'x'));
    assert (two, 'b') in Sources(Colliding.delta, ("1", 'x'));
    assert |{(one, 'b'), (two, 'b')}| == 2;
    SubsetCard({(one, 'b'), (two, 'b')}, Sources(Colliding.delta, ("1", 'x')));
    assert !Injective(Colliding.delta);
  }
}
