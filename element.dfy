/** The rotary switching element `RE` of re_rfst.py: a two-orientation,
    four-port primitive whose forward law is a fixed eight-entry table and
    whose backward law is that table inverted. */
module Element {
  import opened Common

  datatype Orientation = V | H

  datatype Port = N | S | E | W

  /** The eight entries of `delta_fwd`: vertical passes N/S straight
      through and turns E/W onto the N/S axis (becoming horizontal);
      horizontal does the symmetric. */
  function Table(o: Orientation, d: Port): (Orientation, Port)
  {
    match o
    case V => (match d case N => (V, S) case S => (V, N) case E => (H, N) case W => (H, S))
    case H => (match d case N => (V, W) case S => (V, E) case E => (H, W) case W => (H, E))
  }

  /** `delta_fwd` as the dictionary the source holds. */
  const Forward: map<(Orientation, Port), (Orientation, Port)> :=
    map[(V, N) := (V, S), (V, S) := (V, N), (V, E) := (H, N), (V, W) := (H, S),
        (H, N) := (V, W), (H, S) := (V, E), (H, E) := (H, W), (H, W) := (H, E)]

  lemma ForwardAt(o: Orientation, d: Port)
    ensures (o, d) in Forward && Forward[(o, d)] == Table(o, d)
  {
    match o
    case V => match d { case N => case S => case E => case W => }
    case H => match d { case N => case S => case E => case W => }
  }

  /** The table never sends two entries to the same result. */
  lemma TableInjective(o: Orientation, d: Port, o': Orientation, d': Port)
    requires Table(o, d) == Table(o', d')
    ensures o == o' && d == d'
  {
  }

  /** Every pair is the result of some entry. */
  lemma TableHits(o: Orientation, d: Port)
    ensures (o, d) in Forward.Values
  {
    match o
    case V => match d {
      case N => ForwardAt(V, S);
      case S => ForwardAt(V, N);
      case E => ForwardAt(H, S);
      case W => ForwardAt(H, N);
    }
    case H => match d {
      case N => ForwardAt(V, E);
      case S => ForwardAt(V, W);
      case E => ForwardAt(H, W);
      case W => ForwardAt(H, E);
    }
  }

  /** `delta_fwd` is defined on every pair and hits every pair. */
  lemma ForwardIsTotal()
    ensures forall o, d :: (o, d) in Forward && (o, d) in Forward.Values
  {
    forall o, d ensures (o, d) in Forward && (o, d) in Forward.Values {
      ForwardAt(o, d);
      TableHits(o, d);
    }
  }

  /** `delta_fwd` hits no pair twice. */
  lemma ForwardIsInjective()
    ensures Injective(Forward)
  {
    forall a, b | a in Forward && b in Forward && a != b
      ensures Forward[a] != Forward[b]
    {
      ForwardAt(a.0, a.1);
      ForwardAt(b.0, b.1);
      if Forward[a] == Forward[b] {
        TableInjective(a.0, a.1, b.0, b.1);
      }
    }
  }

  /** `delta_rev`: the literal inversion of `delta_fwd`; it is total and
      undoes `delta_fwd` in both orders. */
  function Backward(): (b: map<(Orientation, Port), (Orientation, Port)>)
    ensures forall o, d :: (o, d) in b
    ensures forall k :: k in Forward ==> b[Forward[k]] == k
    ensures forall k :: k in b ==> b[k] in Forward && Forward[b[k]] == k
  {
    ForwardIsTotal();
    ForwardIsInjective();
    Invert(Forward)
  }

  /** `delta_rev` as a match on its key. re_rfst.py:40 only inverts the
      dictionary; this spelled-out form exists so that the traversal proofs
      evaluate the backward law without map lookups, and `LawIsLookup`
      proves it equal to the inversion `Backward()` at every pair. */
  function Untable(o: Orientation, d: Port): (Orientation, Port)
  {
    match o
    case V => (match d case N => (V, S) case S => (V, N) case E => (H, S) case W => (H, N))
    case H => (match d case N => (V, E) case S => (V, W) case E => (H, W) case W => (H, E))
  }

  /** One element transition: the new orientation and the outgoing port when
      a signal enters at `d`, forward or backward. */
  function Law(o: Orientation, d: Port, reverse: bool): (Orientation, Port)
  {
    if reverse then Untable(o, d) else Table(o, d)
  }

  /** `Law` is exactly a lookup in `delta_fwd` forward and in the literal
      inversion `delta_rev` backward. */
  lemma LawIsLookup(o: Orientation, d: Port)
    ensures (o, d) in Forward && Law(o, d, false) == Forward[(o, d)]
    ensures (o, d) in Backward() && Law(o, d, true) == Backward()[(o, d)]
  {
    ForwardAt(o, d);
    var k := Untable(o, d);
    ForwardAt(k.0, k.1);
    assert Forward[k] == (o, d);
  }

  /** Calling the forward law and then the backward law on the returned port
      restores the orientation and returns the original port, and the other
      way round. */
  lemma RoundTrip(o: Orientation, d: Port)
    ensures var (o1, out) := Law(o, d, false); Law(o1, out, true) == (o, d)
    ensures var (o1, out) := Law(o, d, true); Law(o1, out, false) == (o, d)
  {
    match o
    case V => match d { case N => case S => case E => case W => }
    case H => match d { case N => case S => case E => case W => }
  }

  /** A pass-through entry (N/S into a vertical element, E/W into a horizontal
      one) keeps the orientation; every other entry flips it. */
  lemma PassThroughKeepsOrientation(o: Orientation, d: Port)
    ensures Law(o, d, false).0 == o <==> (o == V && (d == N || d == S)) || (o == H && (d == E || d == W))
    ensures Law(o, d, false).0 != o ==> Law(o, d, false).0 == (if o == V then H else V)
  {
  }

  /** One `RE` object: a mutable orientation. */
  class SwitchElement {
    var orientation: Orientation

    constructor (init: Orientation)
      ensures orientation == init
    {
      orientation := init;
    }

    /** `re_input`: look the current orientation and the incoming port up in
        one of the two tables, store the new orientation and return the
        outgoing port. */
    method Input(d: Port, reverse: bool) returns (out: Port)
      modifies this
      ensures (orientation, out) == Law(old(orientation), d, reverse)
    {
      var o := orientation;
      LawIsLookup(o, d);
      var table := if reverse then Backward() else Forward;
      var r := table[(o, d)];
      orientation, out := r.0, r.1;
    }
  }
}
