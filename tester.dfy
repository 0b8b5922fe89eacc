/** The form tester: its registry of fields, the fallback element search and
    the fill-and-read-back check of the test data. */
module Tester {
  import opened Locators
  import opened Browser
  import opened Fallback
  import opened FieldCheck

  /** The values `test_form_fields` types, in the order it types them. */
  function TestData(): (data: seq<Entry>)
    ensures |data| == 3
    ensures forall i :: 0 <= i < |data| ==> data[i].field in Registry()
    ensures forall i, j :: 0 <= i < j < |data| ==> data[i].field != data[j].field
  {
    [Entry("name", "John Doe"), Entry("email", "john.doe@example.com"), Entry("phone", "1234567890")]
  }

  /** With the registered fallback lists and the ten-tick wait, resolving any
      registered field waits at most 140 ticks: two full waits for each of the
      at most seven strategies of the longest list, with no overall deadline. */
  lemma RegisteredFieldsResolveWithin140(page: Page, key: string)
    requires key in Registry()
    ensures ResolveCost(page, Registry()[key], WAIT_TIME) <= 140
  {
    var loc := Registry()[key];
    TriesPrefixInOrder(page, loc, WAIT_TIME);
    assert 2 * WAIT_TIME * |loc.strategies| == 20 * |loc.strategies|;
  }

  /** Regrouping a concatenated log; the loops below call it to move one
      step's calls from the remaining trace onto the log. */
  lemma AppendAssoc<T>(a: seq<T>, b: seq<T>, c: seq<T>)
    ensures (a + b) + c == a + (b + c)
  {
  }

  class FormTester {
    const url: string
    var driver: Driver
    var waitTime: nat
    var fields: map<string, FormFieldLocator>

    /** A tester for `url` driving `driver` (the session `setup` would open),
        with the three registered fields and a ten-tick wait. */
    constructor (url: string, driver: Driver)
      ensures this.url == url && this.driver == driver
      ensures waitTime == WAIT_TIME && fields == Registry()
      ensures WellFormedRegistry(fields)
    {
      this.url := url;
      this.driver := driver;
      waitTime := WAIT_TIME;
      fields := Registry();
    }

    /** The `try` block for one strategy: wait for presence, then for
        clickability. A timeout of either wait is `Skip`; any other exception
        is `Abort`; both waits met yields the clickable element. */
    method TryOne(s: Strategy) returns (step: Step)
      modifies driver
      ensures step == TryStrategy(driver.page, s, waitTime)
      ensures driver.log == old(driver.log) + StrategyTrace(driver.page, s, waitTime)
      ensures driver.elapsed == old(driver.elapsed) + StrategyCost(driver.page, s, waitTime)
      ensures driver.values == old(driver.values)
    {
      var present := driver.Await(s, Presence, waitTime);
      match present {
        case Raised(err) =>
          return Abort(err);
        case TimedOut =>
          return Skip;
        case Satisfied(_) =>
          var clickable := driver.Await(s, Clickable, waitTime);
          match clickable {
            case Satisfied(e) =>
              return Pass(e);
            case Raised(err) =>
              return Abort(err);
            case TimedOut =>
              return Skip;
          }
      }
    }

    /** Tries the strategies of `loc` in order. Returns the element of the
        first that passes both waits, leaves at once on any exception other
        than a timeout, and reports the field as not found once every
        strategy has timed out. */
    method FindElementWithFallback(loc: FormFieldLocator) returns (r: Resolution)
      modifies driver
      ensures r == Resolve(driver.page, loc, waitTime)
      ensures driver.log == old(driver.log) + ResolveTrace(driver.page, loc, waitTime)
      ensures driver.elapsed == old(driver.elapsed) + ResolveCost(driver.page, loc, waitTime)
      ensures driver.values == old(driver.values)
    {
      ghost var page := driver.page;
      ghost var start := driver.log;
      ghost var started := driver.elapsed;
      ghost var outcome := Resolve(page, loc, waitTime);
      ghost var trace := ResolveTrace(page, loc, waitTime);
      ghost var cost := ResolveCost(page, loc, waitTime);
      var i := 0;
      while i < |loc.strategies|
        invariant i <= |loc.strategies|
        invariant ResolveFrom(page, loc, waitTime, i) == outcome
        invariant start + trace == driver.log + TraceFrom(page, loc, waitTime, i)
        invariant started + cost == driver.elapsed + CostFrom(page, loc, waitTime, i)
        invariant driver.values == old(driver.values)
        decreases |loc.strategies| - i
      {
        var s := loc.strategies[i];
        ghost var before := driver.log;
        var step := TryOne(s);
        if step != Skip {
          assert TraceFrom(page, loc, waitTime, i) == StrategyTrace(page, s, waitTime) + [];
          return if step.Pass? then Found(step.elem, i) else Aborted(step.error, i);
        }
        AppendAssoc(before, StrategyTrace(page, s, waitTime), TraceFrom(page, loc, waitTime, i + 1));
        i := i + 1;
      }
      return Exhausted(loc.name);
    }

    /** One pass of the loop over the test data: look the field up, resolve it,
        clear the element, type the value and read it back. `passed` is false
        where the source raises (KeyError, resolution failure, an interaction
        that raises) or its `assert` on the read-back value fails. */
    method CheckEntry(entry: Entry) returns (passed: bool)
      modifies driver
      ensures passed <==> CheckField(driver.page, fields, waitTime, entry) == Passed
      ensures driver.log == old(driver.log) + FieldTrace(driver.page, fields, waitTime, entry)
      ensures driver.elapsed == old(driver.elapsed) + FieldCost(driver.page, fields, waitTime, entry)
      ensures driver.values == FieldValues(driver.page, fields, waitTime, entry, old(driver.values))
    {
      if entry.field !in fields {
        return false;
      }
      var found := FindElementWithFallback(fields[entry.field]);
      if !found.Found? {
        return false;
      }
      var e := found.elem;
      var cleared := driver.Clear(e);
      if !cleared {
        return false;
      }
      assert driver.Value(e) == "";
      var typed := driver.SendKeys(e, entry.value);
      assert "" + entry.value == entry.value;
      if !typed {
        return false;
      }
      var read, actual := driver.GetValue(e);
      passed := read && actual == entry.value;
    }

    /** The loop over the test data: checks each entry in order and stops at
        the first that fails. */
    method CheckEntries(testData: seq<Entry>) returns (ok: bool)
      modifies driver
      ensures ok <==> AllPass(driver.page, fields, waitTime, testData)
      ensures driver.log == old(driver.log) + BatchTraceFrom(driver.page, fields, waitTime, testData, 0)
      ensures driver.elapsed == old(driver.elapsed) + BatchCostFrom(driver.page, fields, waitTime, testData, 0)
      ensures driver.values == BatchValuesFrom(driver.page, fields, waitTime, testData, 0, old(driver.values))
    {
      ghost var page := driver.page;
      ghost var start := driver.log;
      ghost var started := driver.elapsed;
      ghost var initial := driver.values;
      var i := 0;
      while i < |testData|
        invariant i <= |testData|
        invariant forall j :: 0 <= j < i ==> CheckField(page, fields, waitTime, testData[j]) == Passed
        invariant start + BatchTraceFrom(page, fields, waitTime, testData, 0)
          == driver.log + BatchTraceFrom(page, fields, waitTime, testData, i)
        invariant started + BatchCostFrom(page, fields, waitTime, testData, 0)
          == driver.elapsed + BatchCostFrom(page, fields, waitTime, testData, i)
        invariant BatchValuesFrom(page, fields, waitTime, testData, 0, initial)
          == BatchValuesFrom(page, fields, waitTime, testData, i, driver.values)
        decreases |testData| - i
      {
        ghost var before := driver.log;
        ghost var step := FieldTrace(page, fields, waitTime, testData[i]);
        var passed := CheckEntry(testData[i]);
        if !passed {
          assert BatchTraceFrom(page, fields, waitTime, testData, i) == step + [] == step;
          return false;
        }
        AppendAssoc(before, step, BatchTraceFrom(page, fields, waitTime, testData, i + 1));
        PassingPrefixGrows(page, fields, waitTime, testData, i);
        i := i + 1;
      }
      return true;
    }

    /** Navigates once, then checks each entry of `testData` in order (the
        source's own literal is `TestData()`).
        The first failure of any kind ends the run with `false`; `true` only
        when every entry round-trips. */
    method TestFormFields(testData: seq<Entry>) returns (ok: bool)
      modifies driver
      ensures ok <==> driver.page.reachable(url) && AllPass(driver.page, fields, waitTime, testData)
      ensures driver.log == old(driver.log) + [Visited(url)]
        + if driver.page.reachable(url) then BatchTraceFrom(driver.page, fields, waitTime, testData, 0) else []
      ensures driver.elapsed == old(driver.elapsed)
        + if driver.page.reachable(url) then BatchCostFrom(driver.page, fields, waitTime, testData, 0) else 0
      ensures driver.values
        == if driver.page.reachable(url) then BatchValuesFrom(driver.page, fields, waitTime, testData, 0, old(driver.values))
           else old(driver.values)
    {
      var reached := driver.Get(url);
      if !reached {
        return false;
      }
      ok := CheckEntries(testData);
    }
  }

  /** Letters `a` to `z` in upper case; every other character unchanged. */
  function Upper(s: string): (r: string)
    ensures |r| == |s|
    ensures forall i :: 0 <= i < |s| ==> r[i] == if 'a' <= s[i] <= 'z' then s[i] - 'a' + 'A' else s[i]
  {
    if s == [] then []
    else [if 'a' <= s[0] <= 'z' then s[0] - 'a' + 'A' else s[0]] + Upper(s[1..])
  }

  /** A page whose first `name` strategy finds element 1 at once and whose
      inputs upper-case whatever is typed into them. */
  function UppercasingPage(): Page
  {
    Page(
      _ => true,
      _ => Appears(1, 0),
      _ => Appears(1, 0),
      {},
      _ => s => Upper(s),
      _ => "")
  }

  /** An input that rewrites the typed value is caught by the read-back:
      typing "john" into an upper-casing name field is a mismatch that
      reports "JOHN". */
  lemma UppercaseInputIsMismatch()
    ensures CheckField(UppercasingPage(), Registry(), WAIT_TIME, Entry("name", "john")) == Mismatch("john", "JOHN")
  {
    var page := UppercasingPage();
    var loc := Registry()["name"];
    assert TryStrategy(page, loc.strategies[0], WAIT_TIME) == Pass(1);
    assert Resolve(page, loc, WAIT_TIME) == Found(1, 0);
    assert Upper("john") == "JOHN";
  }
}
