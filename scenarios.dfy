/** The end-to-end scenarios of context_test.go, written as client methods
    whose assertions follow from the methods' contracts and the definitions
    of the query functions (Used, Limits, Remains, Exceeded, Err). */
module Scenarios {
  import opened Units
  import opened Counters
  import opened Options
  import opened Context

  /** Three options, one per quantity, after the defaults: each decides its
      own quantity's limit. */
  lemma LimitsOfThree(opts: seq<ContextOpt>)
    requires |opts| == 3 && opts[0].LimitBytes? && opts[1].LimitObjects? && opts[2].LimitCalls?
    ensures Configure(Zero, Defaults() + opts) == Quantities(opts[0].limit, opts[1].limit, opts[2].limit)
  {
    var all := Defaults() + opts;
    LastOptionWins(Zero, all, 3, Bytes);
    LastOptionWins(Zero, all, 4, Objects);
    LastOptionWins(Zero, all, 5, Calls);
  }

  /** Limits 10 bytes, 5 objects, 3 calls over a plain parent. */
  method PositiveLimits() {
    var opts := [LimitBytes(10), LimitObjects(5), LimitCalls(3)];
    var ctx := new Tracker(Plain(None), opts);
    LimitsOfThree(opts);
    assert ctx.Used() == Zero;
    assert ctx.Limits() == Quantities(10, 5, 3);
    assert ctx.Remains() == Quantities(10, 5, 3);
    assert !ctx.Exceeded();
    assert ctx.Err() == None;

    ctx.Add(2, 4, 2);
    assert ctx.Used() == Quantities(8, 4, 2);
    assert ctx.Limits() == Quantities(10, 5, 3);
    assert ctx.Remains() == Quantities(2, 1, 1);
    assert !ctx.Exceeded();

    ctx.Add(3, 1, 1);
    assert ctx.Used() == Quantities(11, 5, 3);
    assert ctx.Remains() == Quantities(0, 0, 0);
    assert ctx.Exceeded();
    assert ctx.Err() == Some(ContextLimitsExceeded(ctx));

    ResetThenCallsOnly(ctx);
  }

  /** The second half of the positive-limits scenario: after Reset the same
      tracker is reused and exceeded on calls alone. */
  method ResetThenCallsOnly(ctx: Tracker)
    requires ctx.Linked() && ctx.parent == Plain(None) && ctx.Limits() == Quantities(10, 5, 3)
    modifies ctx
  {
    assert ctx.Repr() == {ctx};
    ctx.Reset();
    assert ctx.Used() == Zero;
    assert ctx.Limits() == Quantities(10, 5, 3);
    assert ctx.Remains() == Quantities(10, 5, 3);
    assert !ctx.Exceeded();
    assert ctx.Err() == None;

    ctx.Add(0, 0, 10);
    assert ctx.Used() == Quantities(0, 0, 10);
    assert ctx.Remains() == Quantities(10, 5, 0);
    assert ctx.Exceeded();
  }

  /** A byte limit of 5 * Infinity is echoed by Limits and unbounded for
      Remains and Exceeded; the call limit keeps its unbounded default. */
  method InfinityLimits() {
    var opts := [LimitBytes(5 * Infinity), LimitObjects(3)];
    var ctx := new Tracker(Plain(None), opts);
    var all := Defaults() + opts;
    LastOptionWins(Zero, all, 3, Bytes);
    LastOptionWins(Zero, all, 4, Objects);
    LastOptionWins(Zero, all, 2, Calls);
    assert ctx.Limits() == Quantities(5 * Infinity, 3, Infinity);
    assert ctx.Remains() == Quantities(Infinity, 3, Infinity);
    assert !ctx.Exceeded();

    ctx.Add(Petabyte, 1, Exa);
    assert ctx.Used() == Quantities(Petabyte, 1, Exa);
    assert ctx.Remains() == Quantities(Infinity, 2, Infinity);
    assert !ctx.Exceeded();

    OverObjectsThenReset(ctx);
  }

  /** The second half of the infinity-limits scenario: only the object limit
      can be exceeded, and Reset clears it. */
  method OverObjectsThenReset(ctx: Tracker)
    requires ctx.Linked() && ctx.parent == Plain(None)
    requires ctx.Limits() == Quantities(5 * Infinity, 3, Infinity)
    requires ctx.Used() == Quantities(Petabyte, 1, Exa)
    modifies ctx
  {
    assert ctx.Repr() == {ctx};
    ctx.Add(Petabyte, 5, Exa);
    assert ctx.Used() == Quantities(6 * Petabyte, 6, 2 * Exa);
    assert ctx.Limits() == Quantities(5 * Infinity, 3, Infinity);
    assert ctx.Remains() == Quantities(Infinity, 0, Infinity);
    assert ctx.Exceeded();

    ctx.Reset();
    assert ctx.Remains() == Quantities(Infinity, 3, Infinity);
    assert !ctx.Exceeded();
  }

  /** An unbounded child inherits its parent's remaining amounts and its
      parent's exceeded state, also after its own Reset. */
  method InfinityParent() {
    var popts := [LimitBytes(10), LimitObjects(5), LimitCalls(3)];
    var pctx := new Tracker(Plain(None), popts);
    LimitsOfThree(popts);
    var opts := [LimitBytes(Infinity), LimitObjects(Infinity), LimitCalls(Infinity)];
    var ctx := new Tracker(Nested(pctx), opts);
    LimitsOfThree(opts);
    assert ctx.Used() == Zero;
    assert ctx.Limits() == Quantities(Infinity, Infinity, Infinity);
    assert ctx.Remains() == Quantities(10, 5, 3);
    assert !ctx.Exceeded();
    ChildOverParentLimits(ctx, pctx);
  }

  /** The second half of the infinity-parent scenario: the child's Add
      reaches the parent, whose limits then decide for the child. */
  method ChildOverParentLimits(ctx: Tracker, pctx: Tracker)
    requires ctx.Linked() && ctx.parent == Nested(pctx) && pctx.parent == Plain(None)
    requires ctx.Limits() == Quantities(Infinity, Infinity, Infinity) && ctx.Used() == Zero
    requires pctx.Limits() == Quantities(10, 5, 3) && pctx.Used() == Zero
    modifies ctx, pctx
  {
    assert ctx.Chain() == [ctx, pctx];
    assert ctx.Repr() == {ctx, pctx};
    ctx.Add(5, 3, 3);
    assert ctx.Used() == Quantities(15, 3, 3);
    assert pctx.Used() == Quantities(15, 3, 3);
    assert ctx.Remains() == Quantities(0, 2, 0);
    assert ctx.Exceeded();
    assert ctx.Err() == Some(ContextLimitsExceeded(pctx));

    ctx.Reset();
    assert ctx.Used() == Zero;
    assert pctx.Used() == Quantities(15, 3, 3);
    assert ctx.Remains() == Quantities(0, 2, 0);
    assert ctx.Exceeded();
  }

  /** A cancelled plain parent's error comes before the limits. */
  method CancelledParent() {
    var opts := [LimitBytes(10), LimitObjects(5), LimitCalls(3)];
    var ctx := new Tracker(Plain(Some("context canceled")), opts);
    LimitsOfThree(opts);
    assert ctx.Err() == Some(ParentError("context canceled"));
    ctx.Add(2, 5, 5);
    assert ctx.Exceeded();
    assert ctx.Err() == Some(ParentError("context canceled"));
  }

  /** The deltas of a run of `Add(b, o, c)` calls. */
  function Deltas(args: seq<(int64, int64, int64)>): seq<Quantities> {
    seq(|args|, i requires 0 <= i < |args| => Delta(args[i].0, args[i].1, args[i].2))
  }

  /** Every counter `Run` reaches from `start` along a prefix of the run stays
      within int64. */
  ghost predicate RunFits(start: Quantities, args: seq<(int64, int64, int64)>) {
    && (forall i :: 0 <= i < |args| ==> IsInt64((args[i].0 as int) * (args[i].1 as int)))
    && (forall j :: 0 <= j <= |args| ==> Fits(Run(start, Deltas(args[..j]))))
  }

  ghost predicate Fits(q: Quantities) {
    IsInt64(q.bytes) && IsInt64(q.objects) && IsInt64(q.calls)
  }

  /** A client calling `Add` once per element of `args`: every tracker of the
      chain ends with its counters plus the sum of the run's deltas, in any
      grouping, and no limit changes. */
  method AddRun(ctx: Tracker, args: seq<(int64, int64, int64)>)
    requires ctx.Linked()
    requires forall t :: t in ctx.Chain() ==> RunFits(t.Used(), args)
    modifies ctx.Repr()
    ensures forall t :: t in ctx.Chain() ==>
              t.Used() == old(t.Used()).Plus(Sum(Deltas(args))) && t.Limits() == old(t.Limits())
  {
    var i := 0;
    while i < |args|
      invariant 0 <= i <= |args|
      invariant forall t :: t in ctx.Chain() ==>
                  t.Used() == Run(old(t.Used()), Deltas(args[..i])) && t.Limits() == old(t.Limits())
    {
      var (b, o, c) := args[i];
      assert Deltas(args[..i + 1]) == Deltas(args[..i]) + [Delta(b, o, c)];
      forall t | t in ctx.Chain()
        ensures Run(old(t.Used()), Deltas(args[..i + 1])) == t.Used().Plus(Delta(b, o, c))
        ensures IsInt64(t.bytes + b * o) && IsInt64(t.objects + o) && IsInt64(t.calls + c)
      {
        RunSnoc(old(t.Used()), Deltas(args[..i]), Delta(b, o, c));
        assert RunFits(old(t.Used()), args);
        assert Fits(Run(old(t.Used()), Deltas(args[..i + 1])));
      }
      assert IsInt64(b * o) by {
        assert ctx in ctx.Chain();
        assert RunFits(old(ctx.Used()), args);
      }
      assert ctx.CanAdd(b, o, c);
      ctx.Add(b, o, c);
      i := i + 1;
    }
    assert args[..i] == args;
    forall t | t in ctx.Chain()
      ensures Run(old(t.Used()), Deltas(args)) == old(t.Used()).Plus(Sum(Deltas(args)))
    {
      RunAddsSum(old(t.Used()), Deltas(args));
    }
  }
}
