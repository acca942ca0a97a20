/** The wiring tables `fwd` and `rev` that the `RFA` constructor of re_rfst.py
    builds, written here as reference definitions, one entry at a time: what
    each (column, row, port) key maps to once every write has been made. */
module Wiring {
  import opened Common
  import opened Element
  import opened Transducer

  /** A message: a signal entering element (`col`, `row`) through `port`. */
  datatype Wire = Wire(col: int, row: int, port: Port)

  /** A wiring value: the next message, or a terminal yielding a symbol. */
  datatype Target = Link(wire: Wire) | Terminal(symbol: Symbol)

  /** What the constructor demands of the machine: well-formed, reversible
      (`reverse()` reports no collision) and with alphabets of equal size. */
  predicate Compilable(d: Definition)
  {
    WellFormed(d) && Injective(d.delta) && |d.inputs| == |d.outputs|
  }

  /** The writes of the column loop for one column, with the chain loop done
      for rows `1 <= row < upto`; a later write to the same key wins, which
      only matters when there are no channel rows (`n == 0`). */
  function ColumnEntry(n: nat, upto: int, k: Wire): Option<Target>
  {
    var c := k.col;
    if k.row == 0 && k.port == N then Some(Link(Wire(c, n, E)))
    else if k.row == 0 && k.port == S then Some(Link(Wire(c, 1, N)))
    else if 1 <= k.row < upto && k.port == N then Some(Link(Wire(c, k.row - 1, S)))
    else if 1 <= k.row < upto && k.port == S then Some(Link(Wire(c, k.row + 1, N)))
    else if k.row == n && k.port == N then Some(Link(Wire(c, n - 1, S)))
    else if k.row == n && k.port == S then Some(Link(k))
    else if k.row == n && k.port == W then Some(Link(Wire(c, 0, N)))
    else None
  }

  /** Every column fully chained. */
  function Columns(m: nat, n: nat, k: Wire): Option<Target>
  {
    if 0 <= k.col < m then ColumnEntry(n, n, k) else None
  }

  /** The pass-through mesh between adjacent columns, for the columns before
      `qi` and, in column `qi`, the rows before `e`. */
  function MeshPart(n: nat, qi: int, e: int, k: Wire): Option<Target>
  {
    if k.port == E && 0 <= k.row < n && (0 <= k.col < qi || (k.col == qi && k.row < e))
    then Some(Link(Wire(k.col + 1, k.row, W)))
    else None
  }

  function Mesh(m: nat, n: nat, k: Wire): Option<Target>
  {
    MeshPart(n, m - 1, 0, k)
  }

  /** The edges of the transitions in `done`: the West port of (state,
      input) leads to the East port of (next state, output). */
  function TransitionPart(d: Definition, done: set<(State, Symbol)>, k: Wire): Option<Target>
    requires WellFormed(d)
  {
    if k.port == W && 0 <= k.col < |d.states| && 0 <= k.row < |d.inputs|
       && (d.states[k.col], d.inputs[k.row]) in done && (d.states[k.col], d.inputs[k.row]) in d.delta
    then
      var (q', o) := d.delta[(d.states[k.col], d.inputs[k.row])];
      Some(Link(Wire(IndexOf(d.states, q'), IndexOf(d.outputs, o), E)))
    else None
  }

  function Transitions(d: Definition, k: Wire): Option<Target>
    requires WellFormed(d)
  {
    TransitionPart(d, d.delta.Keys, k)
  }

  /** The output terminals on the East ports of the last column, rows before `e`. */
  function OutputPart(d: Definition, e: int, k: Wire): Option<Target>
    requires e <= |d.outputs|
  {
    if k.col == |d.states| - 1 && 0 <= k.row < e && k.port == E
    then Some(Terminal(d.outputs[k.row]))
    else None
  }

  /** `fwd[k]`, with the writes layered as the constructor makes them. */
  function ForwardEntry(d: Definition, k: Wire): Option<Target>
    requires Compilable(d)
  {
    var m, n := |d.states|, |d.inputs|;
    Over(OutputPart(d, n, k), Over(Transitions(d, k), Over(Mesh(m, n, k), Columns(m, n, k))))
  }

  /** `rev[t]`, written independently of `fwd`: for each target, the key
      whose forward entry reaches it, and the input terminals on the West
      ports of the first column. */
  function BackwardEntry(d: Definition, t: Target): Option<Target>
    requires Compilable(d)
  {
    var m, n := |d.states|, |d.inputs|;
    match t
    case Terminal(x) =>
      if x in d.outputs then Some(Link(Wire(m - 1, IndexOf(d.outputs, x), E))) else None
    case Link(Wire(c, r, p)) =>
      if p == W && c == 0 && 0 <= r < n then Some(Terminal(d.inputs[r]))
      else if !(0 <= c < m) then None
      else if p == W then
        if 1 <= c && 0 <= r < n then Some(Link(Wire(c - 1, r, E))) else None
      else if p == E then
        if r == n then Some(Link(Wire(c, 0, N)))
        else if 0 <= r < n && (d.states[c], d.outputs[r]) in d.delta.Values then
          var (q, i) := Invert(d.delta)[(d.states[c], d.outputs[r])];
          Some(Link(Wire(IndexOf(d.states, q), IndexOf(d.inputs, i), W)))
        else None
      else if p == N then
        if r == 0 then Some(Link(Wire(c, n, W)))
        else if r == 1 || 2 <= r <= n then Some(Link(Wire(c, r - 1, S)))
        else None
      else
        if 0 <= r < n then Some(Link(Wire(c, r + 1, N)))
        else if r == n && n >= 1 then Some(Link(Wire(c, n, S)))
        else None
  }

  /** The hop budget of one step: four ports per element. */
  function Fuel(d: Definition): nat
  {
    4 * |d.states| * (|d.inputs| + 1)
  }

  lemma TransitionEntryInverted(d: Definition, c: int, r: int)
    requires Compilable(d)
    requires 0 <= c < |d.states| && 0 <= r < |d.inputs| && (d.states[c], d.inputs[r]) in d.delta
    ensures var (q', o) := d.delta[(d.states[c], d.inputs[r])];
      var t := Link(Wire(IndexOf(d.states, q'), IndexOf(d.outputs, o), E));
      0 <= IndexOf(d.outputs, o) < |d.inputs| && BackwardEntry(d, t) == Some(Link(Wire(c, r, W)))
  {
    var key := (d.states[c], d.inputs[r]);
    var (q', o) := d.delta[key];
    var c', r' := IndexOf(d.states, q'), IndexOf(d.outputs, o);
    assert (d.states[c'], d.outputs[r']) == d.delta[key];
    assert Invert(d.delta)[(d.states[c'], d.outputs[r'])] == key;
    IndexOfDistinct(d.states, c);
    IndexOfDistinct(d.inputs, r);
  }

  /** `rev[fwd[k]] == k`: the backward table undoes every forward entry. */
  lemma BackwardUndoesForward(d: Definition, k: Wire)
    requires Compilable(d)
    requires ForwardEntry(d, k).Some?
    ensures BackwardEntry(d, ForwardEntry(d, k).value) == Some(Link(k))
  {
    var m, n := |d.states|, |d.inputs|;
    if OutputPart(d, n, k).Some? {
      IndexOfDistinct(d.outputs, k.row);
    } else if Transitions(d, k).Some? {
      TransitionEntryInverted(d, k.col, k.row);
    }
  }

  /** Nothing else is in the backward table: each of its links comes from
      the forward entry it names. */
  lemma ForwardRedoesBackward(d: Definition, t: Target, k: Wire)
    requires Compilable(d)
    requires BackwardEntry(d, t) == Some(Link(k))
    ensures ForwardEntry(d, k) == Some(t)
  {
    if t.Link? && t.wire.port == E && 0 <= t.wire.row < |d.inputs| && 0 <= t.wire.col < |d.states| {
      TransitionRedone(d, t.wire, k);
    }
  }

  /** The case of a transition edge: the inverted transition names the
      West port whose forward entry is this East port. */
  lemma TransitionRedone(d: Definition, w: Wire, k: Wire)
    requires Compilable(d)
    requires w.port == E && 0 <= w.row < |d.inputs| && 0 <= w.col < |d.states|
    requires BackwardEntry(d, Link(w)) == Some(Link(k))
    ensures ForwardEntry(d, k) == Some(Link(w))
  {
    var c, r := w.col, w.row;
    var (q, i) := Invert(d.delta)[(d.states[c], d.outputs[r])];
    assert d.delta[(q, i)] == (d.states[c], d.outputs[r]);
    var c', r' := IndexOf(d.states, q), IndexOf(d.inputs, i);
    assert (d.states[c'], d.inputs[r']) == (q, i);
    IndexOfDistinct(d.states, c);
    IndexOfDistinct(d.outputs, r);
  }

  /** `fwd` maps no two keys to the same value. */
  lemma ForwardInjective(d: Definition, k1: Wire, k2: Wire)
    requires Compilable(d)
    requires ForwardEntry(d, k1).Some? && ForwardEntry(d, k1) == ForwardEntry(d, k2)
    ensures k1 == k2
  {
    BackwardUndoesForward(d, k1);
    BackwardUndoesForward(d, k2);
  }

  /** `fwd[(m-1, e, E)]` is the terminal of output `e`, and these are the
      only terminals in `fwd`. */
  lemma OutputTerminals(d: Definition, k: Wire)
    requires Compilable(d)
    ensures 0 <= k.row < |d.inputs| && k.col == |d.states| - 1 && k.port == E ==>
      ForwardEntry(d, k) == Some(Terminal(d.outputs[k.row]))
    ensures ForwardEntry(d, k).Some? && ForwardEntry(d, k).value.Terminal? ==>
      k.col == |d.states| - 1 && 0 <= k.row < |d.inputs| && k.port == E
  {
  }

  /** `rev[(0, e, W)]` is the terminal of input `e`, the only terminals in
      `rev` other than the inverted output terminals, and no forward entry
      leads into a West port of the first column. */
  lemma InputTerminals(d: Definition, t: Target, k: Wire)
    requires Compilable(d)
    ensures t.Link? && t.wire.col == 0 && 0 <= t.wire.row < |d.inputs| && t.wire.port == W ==>
      BackwardEntry(d, t) == Some(Terminal(d.inputs[t.wire.row]))
    ensures BackwardEntry(d, t).Some? && BackwardEntry(d, t).value.Terminal? ==>
      t.Link? && t.wire.col == 0 && 0 <= t.wire.row < |d.inputs| && t.wire.port == W
    ensures ForwardEntry(d, k) != Some(t) || !(t.Link? && t.wire.col == 0 && t.wire.port == W)
  {
  }
}
