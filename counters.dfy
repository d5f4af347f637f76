/** The triple a tracker keeps for its counters and for its limits, one
    value per tracked quantity (context.go:44-45), and the amounts one `Add`
    adds to it (context.go:130-133), and how the amounts of a run of `Add`s
    accumulate. */
module Counters {

  datatype Quantity = Bytes | Objects | Calls

  /** One value per quantity: a tracker's counters, its limits or what remains. */
  datatype Quantities = Quantities(bytes: int, objects: int, calls: int) {

    function Get(q: Quantity): int {
      match q
      case Bytes => bytes
      case Objects => objects
      case Calls => calls
    }

    function Plus(d: Quantities): Quantities {
      Quantities(bytes + d.bytes, objects + d.objects, calls + d.calls)
    }
  }

  const Zero := Quantities(0, 0, 0)

  /** What one `Add(b, o, c)` adds: `b` is the size of one object, so the byte
      total grows by `b * o`. */
  function Delta(b: int, o: int, c: int): Quantities {
    Quantities(b * o, o, c)
  }

  /** The counters after a run of `Add`s, each adding the next delta. */
  function Run(start: Quantities, deltas: seq<Quantities>): Quantities
    decreases |deltas|
  {
    if deltas == [] then start else Run(start.Plus(deltas[0]), deltas[1..])
  }

  /** The sum of a run's deltas. */
  function Sum(deltas: seq<Quantities>): Quantities {
    if deltas == [] then Zero else deltas[0].Plus(Sum(deltas[1..]))
  }

  /** A run extended by one more delta: the counters of the shorter run plus
      that delta. */
  lemma {:induction false} RunSnoc(start: Quantities, deltas: seq<Quantities>, d: Quantities)
    ensures Run(start, deltas + [d]) == Run(start, deltas).Plus(d)
    decreases |deltas|
  {
    if deltas != [] {
      assert (deltas + [d])[1..] == deltas[1..] + [d];
      RunSnoc(start.Plus(deltas[0]), deltas[1..], d);
    } else {
      assert deltas + [d] == [d];
    }
  }

  /** `Zero` is an identity of `Plus`, and `Plus` is associative. */
  lemma PlusMonoid(a: Quantities, b: Quantities, c: Quantities)
    ensures a.Plus(Zero) == a && Zero.Plus(a) == a
    ensures a.Plus(b).Plus(c) == a.Plus(b.Plus(c))
  {
  }

  /** A run of `Add`s adds the sum of its deltas: the order in which the
      amounts are grouped does not matter, and an empty run changes nothing. */
  lemma {:induction false} RunAddsSum(start: Quantities, deltas: seq<Quantities>)
    ensures Run(start, deltas) == start.Plus(Sum(deltas))
    decreases |deltas|
  {
    if deltas != [] {
      RunAddsSum(start.Plus(deltas[0]), deltas[1..]);
      PlusMonoid(start, deltas[0], Sum(deltas[1..]));
    }
  }
}
