/** The resource-limit tracker `gotchactx` (context.go): three running
    counters, three limits and a parent, which is either a plain deadline
    source or another tracker. Consumption added to a tracker is added to
    every tracker above it; a tracker is exceeded when it or any tracker
    above it is over one of its own finite limits. */
module Context {
  import opened Units
  import opened Counters
  import opened Options

  datatype Option<T> = None | Some(value: T)

  /** The parent a tracker wraps: a plain deadline source, of which only its
      error (if it has one) is modelled, or another tracker. */
  datatype Parent = Plain(cause: Option<string>) | Nested(tracker: Tracker)

  /** The two errors `Err` can return: the plain parent's own error, or
      ContextLimitsExceeded carrying the tracker that raised it. */
  datatype Error = ParentError(cause: string) | ContextLimitsExceeded(context: Tracker)

  class Tracker {
    const parent: Parent
    /** The trackers above this one, nearest first. */
    ghost const Ancestors: seq<Tracker>

    var bytes: int64
    var objects: int64
    var calls: int64
    var lbytes: int64
    var lobjects: int64
    var lcalls: int64

    /** The parent chain is finite, acyclic and described by `Ancestors`.
        It depends on constant fields only, so nothing can break it. */
    ghost predicate Linked()
      decreases |Ancestors|
    {
      && this !in Ancestors
      && match parent
         case Plain(_) => Ancestors == []
         case Nested(p) => Ancestors == [p] + p.Ancestors && p.Linked()
    }

    /** This tracker followed by the trackers above it. */
    ghost function Chain(): seq<Tracker> {
      [this] + Ancestors
    }

    /** The objects the chain's queries read and `Add` writes. */
    ghost function Repr(): set<Tracker> {
      set t | t in Chain()
    }

    function Used(): Quantities
      reads this
    {
      Quantities(bytes, objects, calls)
    }

    function Limits(): Quantities
      reads this
    {
      Quantities(lbytes, lobjects, lcalls)
    }

    /** One of the local tests of `Exceeded`: a finite limit strictly below
        what is used. */
    predicate OverOwnLimit(q: Quantity)
      reads this
    {
      Limits().Get(q) > Infinity && Limits().Get(q) < Used().Get(q)
    }

    predicate LocallyExceeded()
      reads this
    {
      OverOwnLimit(Bytes) || OverOwnLimit(Objects) || OverOwnLimit(Calls)
    }

    /** Local limits first; a tracker parent is asked in every other case. */
    predicate Exceeded()
      requires Linked()
      reads Repr()
      decreases |Ancestors|
    {
      LocallyExceeded() || (parent.Nested? && parent.tracker.Exceeded())
    }

    /** For each quantity: with a finite limit, what is left of it (never
        negative); with an unbounded one, what the parent tracker reports,
        or Infinity when the parent is not a tracker. */
    function Remains(): (r: Quantities)
      requires Linked()
      reads Repr()
      decreases |Ancestors|
      ensures forall q :: r.Get(q) == Infinity || r.Get(q) >= 0
      ensures forall q :: Limits().Get(q) > Infinity ==>
                r.Get(q) == Max(0, Limits().Get(q) - Used().Get(q))
    {
      var up := if parent.Nested? then parent.tracker.Remains() else Quantities(Infinity, Infinity, Infinity);
      Quantities(
        if lbytes <= Infinity then up.Get(Bytes) else if lbytes > bytes then lbytes - bytes else 0,
        if lobjects <= Infinity then up.Get(Objects) else if lobjects > objects then lobjects - objects else 0,
        if lcalls <= Infinity then up.Get(Calls) else if lcalls > calls then lcalls - calls else 0)
    }

    /** The parent's error first, then ContextLimitsExceeded, else none. */
    function Err(): Option<Error>
      requires Linked()
      reads Repr()
      decreases |Ancestors|
    {
      var perr := match parent
        case Plain(cause) => (if cause.Some? then Some(ParentError(cause.value)) else None)
        case Nested(p) => p.Err();
      if perr.Some? then perr
      else if Exceeded() then Some(ContextLimitsExceeded(this))
      else None
    }

    /** The error of the plain deadline source at the top of the chain. */
    ghost function RootCause(): Option<string>
      requires Linked()
      decreases |Ancestors|
    {
      match parent
      case Plain(cause) => cause
      case Nested(p) => p.RootCause()
    }

    /** Every counter of the chain can take the amounts of `Add(b, o, c)`
        without leaving int64. */
    ghost predicate CanAdd(b: int64, o: int64, c: int64)
      reads Repr()
    {
      && IsInt64(b * o)
      && forall t :: t in Chain() ==>
           IsInt64(t.bytes + b * o) && IsInt64(t.objects + o) && IsInt64(t.calls + c)
    }

    /** NewContext: counters at zero, then the default options followed by
        the caller's, applied in order. */
    constructor (parent: Parent, opts: seq<ContextOpt>)
      requires parent.Nested? ==> parent.tracker.Linked()
      ensures Linked()
      ensures this.parent == parent
      ensures Used() == Zero
      ensures Limits() == Configure(Zero, Defaults() + opts)
    {
      this.parent := parent;
      Ancestors := if parent.Nested? then [parent.tracker] + parent.tracker.Ancestors else [];
      bytes, objects, calls := 0, 0, 0;
      lbytes, lobjects, lcalls := 0, 0, 0;
      new;
      var all := Defaults() + opts;
      var i := 0;
      while i < |all|
        invariant 0 <= i <= |all|
        invariant Used() == Zero
        invariant Limits() == Configure(Zero, all[..i])
      {
        Apply(all[i]);
        assert all[..i + 1][..i] == all[..i];
        i := i + 1;
      }
      assert all[..|all|] == all;
    }

    /** Runs one option on this tracker: it stores one limit field. */
    method Apply(opt: ContextOpt)
      modifies this
      ensures Used() == old(Used())
      ensures Limits() == opt.ApplyTo(old(Limits()))
    {
      match opt
      case LimitBytes(l) => lbytes := l;
      case LimitObjects(l) => lobjects := l;
      case LimitCalls(l) => lcalls := l;
    }

    /** Adds `b * o` bytes, `o` objects and `c` calls to this tracker and,
        with the same arguments, to every tracker above it. */
    method Add(b: int64, o: int64, c: int64)
      requires Linked() && CanAdd(b, o, c)
      modifies Repr()
      decreases |Ancestors|
      ensures forall t :: t in Chain() ==>
                t.Used() == old(t.Used()).Plus(Delta(b, o, c)) && t.Limits() == old(t.Limits())
    {
      bytes := bytes + b * o;
      objects := objects + o;
      calls := calls + c;
      if parent.Nested? {
        parent.tracker.Add(b, o, c);
      }
    }

    /** Zeroes this tracker's counters; limits, parent and every other
        tracker are left alone. */
    method Reset()
      modifies this`bytes, this`objects, this`calls
      ensures Used() == Zero
      ensures Limits() == old(Limits())
    {
      bytes := 0;
      objects := 0;
      calls := 0;
    }

    /** Exceeded holds exactly when some tracker of the chain is over one of
        its own finite limits. */
    lemma {:induction false} ExceededIffSomeOverLimit()
      requires Linked()
      ensures Exceeded() <==> exists t :: t in Chain() && t.LocallyExceeded()
      decreases |Ancestors|
    {
      if parent.Nested? {
        var p := parent.tracker;
        p.ExceededIffSomeOverLimit();
        assert Chain() == [this] + p.Chain();
      }
    }

    /** A tracker whose counters are zero is exceeded exactly when its parent
        is: so `Reset` can leave `Exceeded` true through the parent, and a
        new tracker over a plain parent is not exceeded. */
    lemma ExceededWhenUnused()
      requires Linked() && Used() == Zero
      ensures Exceeded() <==> parent.Nested? && parent.tracker.Exceeded()
      ensures parent.Plain? ==> !Exceeded()
    {
    }

    /** A remaining amount is Infinity exactly when no tracker of the chain
        has a finite limit for that quantity. */
    lemma {:induction false} RemainsUnboundedIff(q: Quantity)
      requires Linked()
      ensures Remains().Get(q) == Infinity <==> forall t :: t in Chain() ==> t.Limits().Get(q) <= Infinity
      decreases |Ancestors|
    {
      if parent.Nested? {
        var p := parent.tracker;
        p.RemainsUnboundedIff(q);
        assert Chain() == [this] + p.Chain();
      }
    }

    /** The first tracker of the chain with a finite limit for `q` decides
        what remains of `q`. */
    lemma {:induction false} RemainsGovernedByFirstFinite(q: Quantity, i: nat)
      requires Linked()
      requires i < |Chain()| && Chain()[i].Limits().Get(q) > Infinity
      requires forall j :: 0 <= j < i ==> Chain()[j].Limits().Get(q) <= Infinity
      ensures Remains().Get(q) == Max(0, Chain()[i].Limits().Get(q) - Chain()[i].Used().Get(q))
      decreases |Ancestors|
    {
      if i > 0 {
        var p := parent.tracker;
        assert Chain()[0] == this;
        assert Chain() == [this] + p.Chain();
        forall j | 0 <= j < i - 1
          ensures p.Chain()[j].Limits().Get(q) <= Infinity
        {
          assert p.Chain()[j] == Chain()[j + 1];
        }
        p.RemainsGovernedByFirstFinite(q, i - 1);
      }
    }

    /** The plain parent's error always wins. */
    lemma {:induction false} ErrReportsParentFirst()
      requires Linked() && RootCause().Some?
      ensures Err() == Some(ParentError(RootCause().value))
      decreases |Ancestors|
    {
      if parent.Nested? {
        parent.tracker.ErrReportsParentFirst();
      }
    }

    /** There is no error exactly when the plain parent has none and nothing
        is exceeded. */
    lemma {:induction false} ErrNoneIff()
      requires Linked()
      ensures Err() == None <==> RootCause() == None && !Exceeded()
      decreases |Ancestors|
    {
      if parent.Nested? {
        parent.tracker.ErrNoneIff();
      }
    }

    /** Without a parent error, an exceeded tracker reports the topmost
        tracker of its chain that is over its own limit, which is not
        necessarily itself. */
    lemma {:induction false} ErrNamesTopmostOverLimit()
      requires Linked() && RootCause() == None && Exceeded()
      ensures exists i :: 0 <= i < |Chain()| && Err() == Some(ContextLimitsExceeded(Chain()[i]))
                && Chain()[i].LocallyExceeded()
                && forall j :: i < j < |Chain()| ==> !Chain()[j].LocallyExceeded()
      decreases |Ancestors|
    {
      match parent
      case Plain(_) =>
        assert Chain() == [this];
        assert Err() == Some(ContextLimitsExceeded(Chain()[0]));
      case Nested(p) =>
        assert Chain() == [this] + p.Chain();
        if p.Exceeded() {
          p.ErrNamesTopmostOverLimit();
          var i :| 0 <= i < |p.Chain()| && p.Err() == Some(ContextLimitsExceeded(p.Chain()[i]))
                   && p.Chain()[i].LocallyExceeded()
                   && forall j :: i < j < |p.Chain()| ==> !p.Chain()[j].LocallyExceeded();
          assert Chain()[i + 1] == p.Chain()[i];
          forall j | i + 1 < j < |Chain()|
            ensures !Chain()[j].LocallyExceeded()
          {
            assert Chain()[j] == p.Chain()[j - 1];
          }
        } else {
          p.ErrNoneIff();
          p.ExceededIffSomeOverLimit();
          assert Err() == Some(ContextLimitsExceeded(Chain()[0]));
          forall j | 0 < j < |Chain()|
            ensures !Chain()[j].LocallyExceeded()
          {
            assert Chain()[j] == p.Chain()[j - 1];
            assert Chain()[j] in p.Chain();
          }
        }
    }
  }

  function Max(a: int, b: int): int {
    if a >= b then a else b
  }
}
