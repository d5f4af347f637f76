/** The limit-setting options a tracker is configured with (options.go).
    Each Go option is a closure that stores one limit field; here an option
    is a tag naming that field and its value, and `ApplyTo` is the effect of
    running the closure on the limits. */
module Options {
  import opened Units
  import opened Counters

  /** ContextWithLimitBytes, ContextWithLimitObjects, ContextWithLimitCalls. */
  datatype ContextOpt =
    | LimitBytes(limit: int64)
    | LimitObjects(limit: int64)
    | LimitCalls(limit: int64)
  {
    /** The quantity whose limit this option stores. */
    function Target(): Quantity {
      match this
      case LimitBytes(_) => Bytes
      case LimitObjects(_) => Objects
      case LimitCalls(_) => Calls
    }

    /** The limits after this option has run: its own quantity takes its value,
        the other two are unchanged. */
    function ApplyTo(limits: Quantities): (r: Quantities)
      ensures r.Get(Target()) == limit
      ensures forall q :: q != Target() ==> r.Get(q) == limits.Get(q)
    {
      match this
      case LimitBytes(l) => limits.(bytes := l)
      case LimitObjects(l) => limits.(objects := l)
      case LimitCalls(l) => limits.(calls := l)
    }
  }

  /** The options NewContext puts in front of the caller's: 64 MiB of bytes,
      unbounded objects and calls. */
  function Defaults(): seq<ContextOpt> {
    [LimitBytes(64 * MiB), LimitObjects(Infinity), LimitCalls(Infinity)]
  }

  /** The limits after `opts` have run in order, starting from `init`. */
  function Configure(init: Quantities, opts: seq<ContextOpt>): Quantities {
    if opts == [] then init
    else opts[|opts| - 1].ApplyTo(Configure(init, opts[..|opts| - 1]))
  }

  /** The last option for `q` decides its limit, whatever came before it. */
  lemma {:induction false} LastOptionWins(init: Quantities, opts: seq<ContextOpt>, k: nat, q: Quantity)
    requires k < |opts| && opts[k].Target() == q
    requires forall j :: k < j < |opts| ==> opts[j].Target() != q
    ensures Configure(init, opts).Get(q) == opts[k].limit
  {
    var n := |opts| - 1;
    if k < n {
      LastOptionWins(init, opts[..n], k, q);
    } else {
      assert opts[n].Target() == q;
    }
  }

  /** A quantity that no option names keeps its initial limit. */
  lemma {:induction false} UnnamedQuantityKept(init: Quantities, opts: seq<ContextOpt>, q: Quantity)
    requires forall j :: 0 <= j < |opts| ==> opts[j].Target() != q
    ensures Configure(init, opts).Get(q) == init.Get(q)
  {
    if opts != [] {
      UnnamedQuantityKept(init, opts[..|opts| - 1], q);
    }
  }

  /** Running the defaults first: whatever the initial limits were, a quantity
      the caller's options do not name ends at its default, 64 MiB of bytes
      and unbounded objects and calls. */
  lemma {:induction false} DefaultsUnlessOverridden(init: Quantities, opts: seq<ContextOpt>)
    ensures Configure(init, Defaults() + opts) == Configure(Quantities(64 * MiB, Infinity, Infinity), opts)
  {
    if opts == [] {
      assert Defaults() + opts == Defaults();
      var d := Defaults();
      assert d[..2] == [LimitBytes(64 * MiB), LimitObjects(Infinity)];
      assert d[..2][..1] == [LimitBytes(64 * MiB)];
      assert d[..2][..1][..0] == [];
      assert Configure(init, d[..2][..1]) == init.(bytes := 64 * MiB);
      assert Configure(init, d[..2]) == init.(bytes := 64 * MiB, objects := Infinity);
    } else {
      var n := |opts| - 1;
      assert (Defaults() + opts)[..|Defaults() + opts| - 1] == Defaults() + opts[..n];
      DefaultsUnlessOverridden(init, opts[..n]);
    }
  }
}
