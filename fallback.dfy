/** What `find_element_with_fallback` computes, as functions of the page:
    the outcome of each strategy, the resolution of a whole fallback list,
    the calls it makes and the ticks it waits; and what is proved about them. */
module Fallback {
  import opened Locators
  import opened Browser

  /** The outcome of one strategy: both waits met, a timeout (try the next
      strategy) or another exception (leave the search). */
  datatype Step = Pass(elem: ElemId) | Skip | Abort(error: string)

  /** The outcome of resolving a field: the element and the index of the
      strategy that produced it; every strategy timed out (the exception
      naming the field); or an exception other than a timeout, propagated
      from the strategy at `index`. */
  datatype Resolution =
    | Found(elem: ElemId, index: nat)
    | Exhausted(field: string)
    | Aborted(error: string, index: nat)

  /** One strategy: wait for presence, then for clickability, each with its own
      full timeout. Only a timeout of either wait moves on to the next strategy;
      the element returned is the one the clickability wait yields. */
  function TryStrategy(page: Page, s: Strategy, timeout: nat): (r: Step)
    ensures r.Pass? <==>
      WaitFor(page.presence(s), timeout).Satisfied? && WaitFor(page.clickable(s), timeout).Satisfied?
    ensures r.Pass? ==> page.clickable(s).Appears? && r.elem == page.clickable(s).elem
    ensures r == Skip <==>
      WaitFor(page.presence(s), timeout).TimedOut? ||
      (WaitFor(page.presence(s), timeout).Satisfied? && WaitFor(page.clickable(s), timeout).TimedOut?)
    ensures r.Abort? <==>
      WaitFor(page.presence(s), timeout).Raised? ||
      (WaitFor(page.presence(s), timeout).Satisfied? && WaitFor(page.clickable(s), timeout).Raised?)
    ensures r.Abort? ==>
      r.error == if WaitFor(page.presence(s), timeout).Raised? then page.presence(s).error else page.clickable(s).error
  {
    match WaitFor(page.presence(s), timeout)
    case Raised(err) => Abort(err)
    case TimedOut => Skip
    case Satisfied(_) =>
      match WaitFor(page.clickable(s), timeout)
      case Satisfied(e) => Pass(e)
      case TimedOut => Skip
      case Raised(err) => Abort(err)
  }

  /** The waits one strategy issues: presence always, clickability only once
      the element is present. */
  function StrategyTrace(page: Page, s: Strategy, timeout: nat): (t: seq<Command>)
    ensures 1 <= |t| <= 2 && t[0] == Awaited(s, Presence)
    ensures |t| == 2 <==> WaitFor(page.presence(s), timeout).Satisfied?
    ensures |t| == 2 ==> t[1] == Awaited(s, Clickable)
  {
    [Awaited(s, Presence)]
      + (if WaitFor(page.presence(s), timeout).Satisfied? then [Awaited(s, Clickable)] else [])
  }

  /** The ticks one strategy waits: at most two full timeouts, and at least
      one full timeout when it fails by timing out. */
  function StrategyCost(page: Page, s: Strategy, timeout: nat): (c: nat)
    ensures c <= 2 * timeout
    ensures TryStrategy(page, s, timeout) == Skip ==> c >= timeout
  {
    WaitCost(page.presence(s), timeout)
      + (if WaitFor(page.presence(s), timeout).Satisfied? then WaitCost(page.clickable(s), timeout) else 0)
  }

  /** The resolution of `loc` when the strategies before index `i` all timed out:
      an element or an error comes from a strategy at `i` or later that passed
      or aborted; exhaustion names the field. */
  function ResolveFrom(page: Page, loc: FormFieldLocator, timeout: nat, i: nat): (r: Resolution)
    requires i <= |loc.strategies|
    ensures r.Found? ==>
      i <= r.index < |loc.strategies| && TryStrategy(page, loc.strategies[r.index], timeout) == Pass(r.elem)
    ensures r.Aborted? ==>
      i <= r.index < |loc.strategies| && TryStrategy(page, loc.strategies[r.index], timeout) == Abort(r.error)
    ensures r.Exhausted? ==> r.field == loc.name
    decreases |loc.strategies| - i
  {
    if i == |loc.strategies| then Exhausted(loc.name)
    else match TryStrategy(page, loc.strategies[i], timeout)
      case Pass(e) => Found(e, i)
      case Skip => ResolveFrom(page, loc, timeout, i + 1)
      case Abort(err) => Aborted(err, i)
  }

  /** The calls the search makes from index `i` on. */
  function TraceFrom(page: Page, loc: FormFieldLocator, timeout: nat, i: nat): seq<Command>
    requires i <= |loc.strategies|
    decreases |loc.strategies| - i
  {
    if i == |loc.strategies| then []
    else
      StrategyTrace(page, loc.strategies[i], timeout)
        + (if TryStrategy(page, loc.strategies[i], timeout) == Skip then TraceFrom(page, loc, timeout, i + 1) else [])
  }

  /** The ticks the search waits from index `i` on. */
  function CostFrom(page: Page, loc: FormFieldLocator, timeout: nat, i: nat): nat
    requires i <= |loc.strategies|
    decreases |loc.strategies| - i
  {
    if i == |loc.strategies| then 0
    else
      StrategyCost(page, loc.strategies[i], timeout)
        + (if TryStrategy(page, loc.strategies[i], timeout) == Skip then CostFrom(page, loc, timeout, i + 1) else 0)
  }

  function Resolve(page: Page, loc: FormFieldLocator, timeout: nat): Resolution
  {
    ResolveFrom(page, loc, timeout, 0)
  }

  function ResolveTrace(page: Page, loc: FormFieldLocator, timeout: nat): seq<Command>
  {
    TraceFrom(page, loc, timeout, 0)
  }

  function ResolveCost(page: Page, loc: FormFieldLocator, timeout: nat): nat
  {
    CostFrom(page, loc, timeout, 0)
  }

  /** How many strategies a search that ended with `r` tried, out of `n`. */
  function Tried(r: Resolution, n: nat): nat
  {
    match r
    case Found(_, k) => k + 1
    case Aborted(_, k) => k + 1
    case Exhausted(_) => n
  }

  /** The strategies whose presence was waited for, in the order of the calls. */
  function Probes(t: seq<Command>): seq<Strategy>
  {
    if t == [] then []
    else (if t[0].Awaited? && t[0].condition == Presence then [t[0].strategy] else []) + Probes(t[1..])
  }

  lemma {:induction false} ProbesAppend(a: seq<Command>, b: seq<Command>)
    ensures Probes(a + b) == Probes(a) + Probes(b)
    decreases |a|
  {
    if a == [] {
      assert a + b == b;
    } else {
      assert (a + b)[1..] == a[1..] + b;
      ProbesAppend(a[1..], b);
    }
  }

  lemma ProbesOfStrategy(page: Page, s: Strategy, timeout: nat)
    ensures Probes(StrategyTrace(page, s, timeout)) == [s]
  {
    var t := StrategyTrace(page, s, timeout);
    if |t| == 2 {
      assert t[1..][1..] == [];
      assert Probes(t[1..]) == [];
    } else {
      assert t[1..] == [];
    }
  }

  lemma {:induction false} FoundFrom(page: Page, loc: FormFieldLocator, timeout: nat, i: nat, e: ElemId, k: nat)
    requires i <= |loc.strategies|
    ensures ResolveFrom(page, loc, timeout, i) == Found(e, k) <==>
      i <= k < |loc.strategies|
      && TryStrategy(page, loc.strategies[k], timeout) == Pass(e)
      && forall j :: i <= j < k ==> TryStrategy(page, loc.strategies[j], timeout) == Skip
    decreases |loc.strategies| - i
  {
    if i < |loc.strategies| {
      FoundFrom(page, loc, timeout, i + 1, e, k);
    }
  }

  /** First success wins: the search returns the element of strategy `k`
      exactly when strategy `k` passed both waits and every strategy declared
      before it timed out. */
  lemma FirstMatchWins(page: Page, loc: FormFieldLocator, timeout: nat, e: ElemId, k: nat)
    ensures Resolve(page, loc, timeout) == Found(e, k) <==>
      k < |loc.strategies|
      && TryStrategy(page, loc.strategies[k], timeout) == Pass(e)
      && forall j :: 0 <= j < k ==> TryStrategy(page, loc.strategies[j], timeout) == Skip
  {
    FoundFrom(page, loc, timeout, 0, e, k);
  }

  lemma {:induction false} AbortedFrom(page: Page, loc: FormFieldLocator, timeout: nat, i: nat, err: string, k: nat)
    requires i <= |loc.strategies|
    ensures ResolveFrom(page, loc, timeout, i) == Aborted(err, k) <==>
      i <= k < |loc.strategies|
      && TryStrategy(page, loc.strategies[k], timeout) == Abort(err)
      && forall j :: i <= j < k ==> TryStrategy(page, loc.strategies[j], timeout) == Skip
    decreases |loc.strategies| - i
  {
    if i < |loc.strategies| {
      AbortedFrom(page, loc, timeout, i + 1, err, k);
    }
  }

  /** Only timeouts advance the search: an exception of any other kind from
      strategy `k` ends it there, provided every earlier strategy timed out. */
  lemma OtherExceptionsPropagate(page: Page, loc: FormFieldLocator, timeout: nat, err: string, k: nat)
    ensures Resolve(page, loc, timeout) == Aborted(err, k) <==>
      k < |loc.strategies|
      && TryStrategy(page, loc.strategies[k], timeout) == Abort(err)
      && forall j :: 0 <= j < k ==> TryStrategy(page, loc.strategies[j], timeout) == Skip
  {
    AbortedFrom(page, loc, timeout, 0, err, k);
  }

  lemma {:induction false} ExhaustedFrom(page: Page, loc: FormFieldLocator, timeout: nat, i: nat)
    requires i <= |loc.strategies|
    ensures ResolveFrom(page, loc, timeout, i).Exhausted? <==>
      forall j :: i <= j < |loc.strategies| ==> TryStrategy(page, loc.strategies[j], timeout) == Skip
    ensures ResolveFrom(page, loc, timeout, i).Exhausted? ==>
      ResolveFrom(page, loc, timeout, i).field == loc.name
      && CostFrom(page, loc, timeout, i) >= timeout * (|loc.strategies| - i)
    decreases |loc.strategies| - i
  {
    if i < |loc.strategies| {
      ExhaustedFrom(page, loc, timeout, i + 1);
      if ResolveFrom(page, loc, timeout, i).Exhausted? {
        assert CostFrom(page, loc, timeout, i)
          == StrategyCost(page, loc.strategies[i], timeout) + CostFrom(page, loc, timeout, i + 1);
        assert timeout * (|loc.strategies| - i) == timeout + timeout * (|loc.strategies| - (i + 1));
      }
    }
  }

  /** The search fails by exhaustion exactly when every strategy timed out;
      the failure names the field, and every strategy has paid at least one
      full timeout, so a failed search waits at least `timeout` times the
      length of the list. */
  lemma ExhaustionMeansAllTimedOut(page: Page, loc: FormFieldLocator, timeout: nat)
    ensures Resolve(page, loc, timeout).Exhausted? <==>
      forall j :: 0 <= j < |loc.strategies| ==> TryStrategy(page, loc.strategies[j], timeout) == Skip
    ensures Resolve(page, loc, timeout).Exhausted? ==>
      Resolve(page, loc, timeout).field == loc.name
      && ResolveCost(page, loc, timeout) >= timeout * |loc.strategies|
  {
    ExhaustedFrom(page, loc, timeout, 0);
  }

  lemma {:induction false} TriedFrom(page: Page, loc: FormFieldLocator, timeout: nat, i: nat)
    requires i <= |loc.strategies|
    ensures i <= Tried(ResolveFrom(page, loc, timeout, i), |loc.strategies|) <= |loc.strategies|
    decreases |loc.strategies| - i
  {
    if i < |loc.strategies| && TryStrategy(page, loc.strategies[i], timeout) == Skip {
      TriedFrom(page, loc, timeout, i + 1);
    }
  }

  /** One skipped strategy in front of the probes of the rest of the search. */
  lemma ProbesCons(head: seq<Command>, rest: seq<Command>, ss: seq<Strategy>, i: nat, m: nat)
    requires i < m <= |ss|
    requires Probes(head) == [ss[i]] && Probes(rest) == ss[i + 1..m]
    ensures Probes(head + rest) == ss[i..m]
  {
    ProbesAppend(head, rest);
    assert ss[i..m] == [ss[i]] + ss[i + 1..m];
  }

  lemma {:induction false} ProbesFrom(page: Page, loc: FormFieldLocator, timeout: nat, i: nat)
    requires i <= |loc.strategies|
    ensures i <= Tried(ResolveFrom(page, loc, timeout, i), |loc.strategies|) <= |loc.strategies|
    ensures Probes(TraceFrom(page, loc, timeout, i))
      == loc.strategies[i..Tried(ResolveFrom(page, loc, timeout, i), |loc.strategies|)]
    decreases |loc.strategies| - i
  {
    TriedFrom(page, loc, timeout, i);
    var n := |loc.strategies|;
    if i < n {
      var s := loc.strategies[i];
      var head := StrategyTrace(page, s, timeout);
      ProbesOfStrategy(page, s, timeout);
      if TryStrategy(page, s, timeout) == Skip {
        ProbesFrom(page, loc, timeout, i + 1);
        ProbesCons(head, TraceFrom(page, loc, timeout, i + 1), loc.strategies, i,
          Tried(ResolveFrom(page, loc, timeout, i + 1), n));
      } else {
        assert TraceFrom(page, loc, timeout, i) == head + [] == head;
        assert loc.strategies[i..i + 1] == [s];
      }
    }
  }

  /** The calls of the strategies `ss`, each tried in turn. */
  function StrategyTraces(page: Page, ss: seq<Strategy>, timeout: nat): seq<Command>
  {
    if ss == [] then [] else StrategyTrace(page, ss[0], timeout) + StrategyTraces(page, ss[1..], timeout)
  }

  /** Trying the strategies `ss` only ever waits, and only on strategies of `ss`. */
  lemma {:induction false} StrategyTracesOnlyAwait(page: Page, ss: seq<Strategy>, timeout: nat)
    ensures forall k :: 0 <= k < |StrategyTraces(page, ss, timeout)| ==>
      StrategyTraces(page, ss, timeout)[k].Awaited? && StrategyTraces(page, ss, timeout)[k].strategy in ss
    decreases |ss|
  {
    if ss != [] {
      StrategyTracesOnlyAwait(page, ss[1..], timeout);
      var head: seq<Command> := StrategyTrace(page, ss[0], timeout);
      var rest: seq<Command> := StrategyTraces(page, ss[1..], timeout);
      forall k | 0 <= k < |head + rest|
        ensures (head + rest)[k].Awaited? && (head + rest)[k].strategy in ss
      {
        if k >= |head| {
          assert (head + rest)[k] == rest[k - |head|];
          assert rest[k - |head|].strategy in ss[1..];
        }
      }
    }
  }

  /** One skipped strategy in front of the calls of the rest of the search. */
  lemma StrategyTracesCons(page: Page, ss: seq<Strategy>, timeout: nat, i: nat, m: nat)
    requires i < m <= |ss|
    ensures StrategyTraces(page, ss[i..m], timeout)
      == StrategyTrace(page, ss[i], timeout) + StrategyTraces(page, ss[i + 1..m], timeout)
  {
    assert ss[i..m][0] == ss[i];
    assert ss[i..m][1..] == ss[i + 1..m];
  }

  lemma {:induction false} TraceFromIsStrategyTraces(page: Page, loc: FormFieldLocator, timeout: nat, i: nat)
    requires i <= |loc.strategies|
    ensures i <= Tried(ResolveFrom(page, loc, timeout, i), |loc.strategies|) <= |loc.strategies|
    ensures TraceFrom(page, loc, timeout, i)
      == StrategyTraces(page, loc.strategies[i..Tried(ResolveFrom(page, loc, timeout, i), |loc.strategies|)], timeout)
    decreases |loc.strategies| - i
  {
    TriedFrom(page, loc, timeout, i);
    var n := |loc.strategies|;
    if i < n {
      var s := loc.strategies[i];
      var head := StrategyTrace(page, s, timeout);
      if TryStrategy(page, s, timeout) == Skip {
        TraceFromIsStrategyTraces(page, loc, timeout, i + 1);
        StrategyTracesCons(page, loc.strategies, timeout, i, Tried(ResolveFrom(page, loc, timeout, i + 1), n));
      } else {
        StrategyTracesCons(page, loc.strategies, timeout, i, i + 1);
        assert loc.strategies[i + 1..i + 1] == [];
        assert TraceFrom(page, loc, timeout, i) == head + [] == head;
      }
    } else {
      assert loc.strategies[i..i] == [];
    }
  }

  lemma {:induction false} CostBoundFrom(page: Page, loc: FormFieldLocator, timeout: nat, i: nat)
    requires i <= |loc.strategies|
    ensures CostFrom(page, loc, timeout, i) <= 2 * timeout * (|loc.strategies| - i)
    decreases |loc.strategies| - i
  {
    if i < |loc.strategies| {
      CostBoundFrom(page, loc, timeout, i + 1);
      assert 2 * timeout * (|loc.strategies| - i) == 2 * timeout + 2 * timeout * (|loc.strategies| - (i + 1));
    }
  }

  /** The search tries the strategies in declared order, each exactly once, and
      none after the one that ended it: the presence waits issued are exactly
      the first `Tried` strategies of the list (all of them when it is
      exhausted). Each tried strategy costs at most two full timeouts, so
      resolution never waits more than `2 * timeout * |strategies|` ticks. */
  lemma TriesPrefixInOrder(page: Page, loc: FormFieldLocator, timeout: nat)
    ensures Tried(Resolve(page, loc, timeout), |loc.strategies|) <= |loc.strategies|
    ensures Probes(ResolveTrace(page, loc, timeout))
      == loc.strategies[..Tried(Resolve(page, loc, timeout), |loc.strategies|)]
    ensures Resolve(page, loc, timeout).Exhausted? ==> Probes(ResolveTrace(page, loc, timeout)) == loc.strategies
    ensures ResolveCost(page, loc, timeout) <= 2 * timeout * |loc.strategies|
    ensures ResolveTrace(page, loc, timeout)
      == StrategyTraces(page, loc.strategies[..Tried(Resolve(page, loc, timeout), |loc.strategies|)], timeout)
    ensures forall k :: 0 <= k < |ResolveTrace(page, loc, timeout)| ==>
      ResolveTrace(page, loc, timeout)[k].Awaited?
      && ResolveTrace(page, loc, timeout)[k].strategy in loc.strategies[..Tried(Resolve(page, loc, timeout), |loc.strategies|)]
  {
    ProbesFrom(page, loc, timeout, 0);
    CostBoundFrom(page, loc, timeout, 0);
    TraceFromIsStrategyTraces(page, loc, timeout, 0);
    var m := Tried(Resolve(page, loc, timeout), |loc.strategies|);
    StrategyTracesOnlyAwait(page, loc.strategies[..m], timeout);
    assert loc.strategies[0..m] == loc.strategies[..m];
    assert loc.strategies[..|loc.strategies|] == loc.strategies;
  }
}
