/** The browser the form tester drives, seen from outside: the page under test
    is an oracle that says how each explicit wait ends, how an element rewrites
    the keys typed into it and which interactions raise; the driver is an
    object that issues those calls, keeps the element values and records what
    it was asked to do. */
module Browser {
  import opened Locators

  /** An opaque handle to a page element. */
  type ElemId = nat

  /** The two expected conditions the resolver waits for. */
  datatype Condition = Presence | Clickable

  /** How the page answers one expected condition for one locator:
      it becomes true `after` ticks (with that element), it never does,
      or polling it raises, `after` ticks in, an exception other than a
      timeout (an invalid selector, a lost session, ...). */
  datatype Wait = Appears(elem: ElemId, after: nat) | Never | Throws(error: string, after: nat)

  /** What one `WebDriverWait(driver, timeout).until(condition)` call yields. */
  datatype WaitResult = Satisfied(elem: ElemId) | TimedOut | Raised(error: string)

  /** The element interactions of a field check. */
  datatype Op = ClearOp | TypeOp | ReadOp

  /** One call made to the driver, in the order it was made. */
  datatype Command =
    | Visited(url: string)
    | Awaited(strategy: Strategy, condition: Condition)
    | Cleared(elem: ElemId)
    | Typed(elem: ElemId, keys: string)
    | Read(elem: ElemId)

  /** The page under test, as an oracle.
      `render(e)(text)` is what element `e` holds after `text` was typed into it
      (identity for a plain input; input masks and formatting scripts differ).
      `(e, op)` in `faults` means that interaction with `e` raises
      (a stale or non-interactable element). */
  datatype Page = Page(
    reachable: string -> bool,
    presence: Strategy -> Wait,
    clickable: Strategy -> Wait,
    faults: set<(ElemId, Op)>,
    render: ElemId -> string -> string,
    initial: ElemId -> string)
  {
    /** The page's answer to waiting for condition `c` on locator `s`. */
    function Query(s: Strategy, c: Condition): Wait
    {
      match c
      case Presence => presence(s)
      case Clickable => clickable(s)
    }
  }

  /** The outcome of an explicit wait bounded by `timeout` ticks. Whatever
      happens first ends the wait: the condition becomes true, polling raises,
      or the deadline passes; an event exactly at the deadline still counts.
      Only a timeout is reported as `TimedOut`; any other exception passes
      through. */
  function WaitFor(w: Wait, timeout: nat): (r: WaitResult)
    ensures r.Satisfied? <==> w.Appears? && w.after <= timeout
    ensures r.Satisfied? ==> r.elem == w.elem
    ensures r.Raised? <==> w.Throws? && w.after <= timeout
    ensures r.Raised? ==> r.error == w.error
  {
    match w
    case Appears(e, t) => if t <= timeout then Satisfied(e) else TimedOut
    case Never => TimedOut
    case Throws(err, t) => if t <= timeout then Raised(err) else TimedOut
  }

  /** The ticks an explicit wait blocks for: never more than its timeout,
      the whole timeout when it times out, and otherwise until the condition
      holds or polling raises. */
  function WaitCost(w: Wait, timeout: nat): (c: nat)
    ensures c <= timeout
    ensures WaitFor(w, timeout).TimedOut? ==> c == timeout
    ensures !WaitFor(w, timeout).TimedOut? ==> c == w.after
  {
    match w
    case Appears(_, t) => if t <= timeout then t else timeout
    case Never => timeout
    case Throws(_, t) => if t <= timeout then t else timeout
  }

  /** The WebDriver session. Element values are the state it changes in place;
      `log` and `elapsed` record, for the proofs, the calls made and the
      ticks spent waiting. */
  class Driver {
    const page: Page
    var values: map<ElemId, string>
    ghost var log: seq<Command>
    ghost var elapsed: nat

    constructor (page: Page)
      ensures this.page == page && values == map[] && log == [] && elapsed == 0
    {
      this.page := page;
      values := map[];
      log := [];
      elapsed := 0;
    }

    /** The `value` attribute element `e` currently has. */
    function Value(e: ElemId): string
      reads this
    {
      if e in values then values[e] else page.initial(e)
    }

    /** `driver.get(url)`: `ok` is false where the browser raises. */
    method Get(url: string) returns (ok: bool)
      modifies this
      ensures ok == page.reachable(url)
      ensures log == old(log) + [Visited(url)]
      ensures values == old(values) && elapsed == old(elapsed)
    {
      ok := page.reachable(url);
      log := log + [Visited(url)];
    }

    /** `WebDriverWait(driver, timeout).until(condition((s.kind, s.expression)))`. */
    method Await(s: Strategy, c: Condition, timeout: nat) returns (r: WaitResult)
      modifies this
      ensures r == WaitFor(page.Query(s, c), timeout)
      ensures log == old(log) + [Awaited(s, c)]
      ensures elapsed == old(elapsed) + WaitCost(page.Query(s, c), timeout)
      ensures values == old(values)
    {
      r := WaitFor(page.Query(s, c), timeout);
      log := log + [Awaited(s, c)];
      elapsed := elapsed + WaitCost(page.Query(s, c), timeout);
    }

    /** `element.clear()`: empties the element unless the call raises. */
    method Clear(e: ElemId) returns (ok: bool)
      modifies this
      ensures ok == ((e, ClearOp) !in page.faults)
      ensures values == if ok then old(values)[e := ""] else old(values)
      ensures log == old(log) + [Cleared(e)] && elapsed == old(elapsed)
    {
      ok := (e, ClearOp) !in page.faults;
      if ok {
        values := values[e := ""];
      }
      log := log + [Cleared(e)];
    }

    /** `element.send_keys(keys)`: types after the current content; the page
        decides what the element then holds. */
    method SendKeys(e: ElemId, keys: string) returns (ok: bool)
      modifies this
      ensures ok == ((e, TypeOp) !in page.faults)
      ensures values == if ok then old(values)[e := page.render(e)(old(Value(e)) + keys)] else old(values)
      ensures log == old(log) + [Typed(e, keys)] && elapsed == old(elapsed)
    {
      ok := (e, TypeOp) !in page.faults;
      if ok {
        values := values[e := page.render(e)(Value(e) + keys)];
      }
      log := log + [Typed(e, keys)];
    }

    /** `element.get_attribute('value')`. */
    method GetValue(e: ElemId) returns (ok: bool, v: string)
      modifies this
      ensures ok == ((e, ReadOp) !in page.faults)
      ensures ok ==> v == Value(e)
      ensures values == old(values)
      ensures log == old(log) + [Read(e)] && elapsed == old(elapsed)
    {
      ok := (e, ReadOp) !in page.faults;
      v := Value(e);
      log := log + [Read(e)];
    }
  }
}
