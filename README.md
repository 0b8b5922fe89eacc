# CloudQA form tester: a Dafny model

This project models the core of `main.py`, a Selenium form tester. Each
logical form field (`name`, `email`, `phone`) has an ordered list of
fallback locator strategies. The tester resolves a field by trying those
strategies in order. For each one it waits for the element to be present and
then for it to be clickable, each wait bounded by the same per-strategy wait
time. It then clears the element, types a test value, reads the `value`
attribute back and compares it with what was typed. It reports `True` only
when every test entry round-trips.

Modules, in dependency order:

- `Locators` (`locators.dfy`): the `By` kinds, a `Strategy` (kind and
  expression), `FormFieldLocator`, the ten-tick wait time and the fixed
  registry of the three fields, with the strategies in the source's order.
- `Browser` (`browser.dfy`): the browser as seen from outside.
  - A `Page` is an oracle. It says how each explicit wait ends for a locator:
    the condition becomes true after some ticks, it never does, or polling
    raises after some ticks. It also says which element interactions raise, and what an
    element holds after text is typed into it.
  - `WaitFor` and `WaitCost` give the outcome and the duration of
    `WebDriverWait(...).until(...)`.
  - `Driver` is a class holding the element values. Its methods change those
    values in place. Ghost fields record the calls made (`log`) and the ticks
    spent waiting (`elapsed`).
- `Fallback` (`fallback.dfy`): what `find_element_with_fallback` computes, as
  functions of the page. It gives the outcome, the calls made and the ticks
  waited, together with the lemmas about them.
- `FieldCheck` (`field_check.dfy`): what checking one `(field, value)` entry
  and a whole batch computes, with the lemmas about it.
- `Tester` (`tester.dfy`): the `FormTester` class. Its imperative methods
  (`TryOne`, `FindElementWithFallback`, `CheckEntry`, `CheckEntries` and
  `TestFormFields`) are proved against the functions above. The module also holds the source's test data
  and two concrete consequences.

Time is measured in abstract ticks. A condition that becomes true, or a
poll that raises, exactly at the deadline counts as happening before it.

Three behaviours of the code shape the model:

- The run stops at the first failing field. A KeyError, a resolution
  failure, an interaction that raises and a value mismatch all end it, and
  the result is one boolean with no per-field report.
- An exception other than a timeout during a wait does not move on to the
  next strategy: it leaves the search and fails the run.
- The element used is the one the clickability wait returns.

## Model

| member | source | states |
|---|---|---|
| Locators.Registry | main.py:24-51 | the registry has exactly the keys `name`, `email` and `phone`; each key maps to the locator of that same name; every list is non-empty and holds at most seven strategies, in the source's order |
| Browser.WaitFor | main.py:68-74 | an explicit wait is met exactly when the condition appears no later than the timeout, and then yields that element; it raises exactly when polling raises no later than the timeout, with that error; otherwise it times out |
| Browser.WaitCost | main.py:68-74 | a wait never blocks longer than its timeout; a wait that times out blocks for the whole timeout; a wait that is met or raises blocks until that happens |
| Browser.Driver.constructor | main.py:53-56 | a fresh session has no element values changed, no calls recorded and no time spent |
| Browser.Driver.Get | main.py:86 | navigation succeeds exactly when the page is reachable; it is recorded, and element values are unchanged |
| Browser.Driver.Await | main.py:68-74 | one wait returns `WaitFor` of the page's answer, is recorded, adds its cost to the elapsed ticks and changes no element value |
| Browser.Driver.Clear | main.py:101 | `clear()` raises exactly when the page faults it; otherwise the element becomes empty; the call is recorded |
| Browser.Driver.SendKeys | main.py:104 | `send_keys` raises exactly when the page faults it; otherwise the element holds what the page makes of its previous content followed by the keys |
| Browser.Driver.GetValue | main.py:107 | reading the value raises exactly when the page faults it; otherwise it returns the element's current value and changes nothing |
| Fallback.TryStrategy | main.py:66-78 | a strategy passes exactly when both waits are met, with the clickability wait's element; it is skipped exactly when the presence wait times out, or presence is met and clickability times out; it aborts exactly when the presence wait raises, or presence is met and clickability raises, carrying the error of the wait that raised |
| Fallback.StrategyTrace | main.py:67-74 | a strategy always waits for presence first, and then waits for clickability on the same locator exactly when the element was present |
| Fallback.StrategyCost | main.py:67-74 | one strategy waits at most two full timeouts, and at least one full timeout when it is skipped |
| Fallback.ResolveFrom | main.py:65-80 | the loop from strategy `i` on (`Resolve` is the whole loop): a found element or a propagated error comes from a strategy at `i` or later that passed or aborted with exactly that element or error; exhaustion names the field |
| Fallback.FirstMatchWins | main.py:65-76 | the search returns the element of strategy `k` exactly when `k` passed both waits and every earlier strategy was skipped |
| Fallback.OtherExceptionsPropagate | main.py:66-78 | the search aborts with a non-timeout error at strategy `k` exactly when that strategy raised it and every earlier strategy was skipped |
| Fallback.ExhaustionMeansAllTimedOut | main.py:65-80 | the search fails as "not found" exactly when every strategy timed out; the failure names the field, and it waited at least one timeout per strategy |
| Fallback.TriesPrefixInOrder | main.py:65-80 | the calls of the search are exactly the waits of the first strategies of the list, in declared order, each strategy once, up to the one that ended it (all of them when exhausted); every call is a presence or clickability wait on one of those strategies, so none after the deciding one is queried; the search waits at most two timeouts per strategy, with no overall deadline |
| Fallback.StrategyTracesOnlyAwait | main.py:65-74 | trying a list of strategies issues only waits, and only on strategies of that list |
| FieldCheck.CheckFieldOutcomes | main.py:97-108 | about `CheckField`, the outcome of one pass of the field loop: one entry fails as an unknown key exactly when the key is not registered; as not found exactly when resolution is exhausted, naming the field; as a wait error exactly when resolution aborted, with its error; an interaction error exactly when the page faults clear, type or read on the resolved element, naming that element and the first faulting operation in that order, so a raising call ends the entry |
| FieldCheck.FieldTraceShape | main.py:97-108 | about `FieldTrace`, the calls of one entry: an unknown key makes no call; otherwise the calls start with the resolution's waits, and nothing follows them unless resolution found an element; then they are followed by clear, type and read on that element, in that order: all three when the entry passes or mismatches, and up to and including the raising one on an interaction error |
| FieldCheck.FieldValuesEffect | main.py:97-107 | about `FieldValues`, the element values after one entry: they are untouched unless resolution found an element; a passing entry leaves exactly the typed value in the resolved element and changes nothing else |
| FieldCheck.PassedIff | main.py:97-108 | an entry passes exactly when its key is registered, resolution finds an element, clear, type and read all succeed, and the page keeps the typed value unchanged |
| FieldCheck.MismatchReportsReadBack | main.py:101-108 | a mismatch happens only when clear, type and read all succeeded on the resolved element; it reports the typed value as expected and, as actual, the different value the element gave back |
| FieldCheck.StopsAtFirstFailure | main.py:96-117 | once entry `k` fails, the entries after it make no difference to the calls, the time waited, the element values or the verdict, and the run does not pass |
| FieldCheck.BatchTraceUpToFailure | main.py:96-117 | the batch's calls (`BatchTraceFrom`) are those of every entry in order, up to and including the first that fails, and no others |
| FieldCheck.BatchCostUpToFailure | main.py:96-117 | the batch's waiting time (`BatchCostFrom`) is the sum over the entries up to and including the first that fails |
| FieldCheck.BatchValuesUpToFailure | main.py:96-117 | the element values after the batch (`BatchValuesFrom`) are those left by applying each entry in order, up to and including the first that fails |
| FieldCheck.RerunIsIdempotent | main.py:96-107 | running the same batch a second time on the same page leaves the element values exactly as the first run left them |
| Tester.TestData | main.py:89-94 | the test data has three entries, in the order the source types them; their keys are distinct and all registered |
| Tester.RegisteredFieldsResolveWithin140 | main.py:18-51 | with the ten-tick wait, resolving any registered field waits at most 140 ticks |
| Tester.FormTester.constructor | main.py:15-51 | a new tester keeps its URL and driver, uses the ten-tick wait time, and holds the well-formed three-field registry |
| Tester.FormTester.TryOne | main.py:66-78 | one strategy's `try` block returns `TryStrategy`, makes exactly that strategy's waits, spends its ticks and leaves element values unchanged |
| Tester.FormTester.FindElementWithFallback | main.py:63-80 | the loop returns `Resolve` of the locator, makes exactly the calls of `ResolveTrace`, waits exactly `ResolveCost` ticks, and leaves element values unchanged |
| Tester.FormTester.CheckEntry | main.py:97-110 | one pass of the field loop succeeds exactly when `CheckField` is `Passed`; it makes exactly that entry's calls, waits its ticks and leaves the element values `FieldValues` describes |
| Tester.FormTester.CheckEntries | main.py:96-117 | the loop over the test data returns true exactly when every entry passes; it makes exactly the calls, waits exactly the ticks and leaves exactly the element values of the batch functions, which stop at the first failure |
| Tester.FormTester.TestFormFields | main.py:82-117 | the result is true exactly when the page is reachable and every entry passes; the calls are the navigation followed by the batch trace up to the first failure; time and element values match the batch functions |
| Tester.UppercaseInputIsMismatch | main.py:104-108 | on a page whose inputs upper-case what is typed, typing `john` into the name field is a mismatch that reports `JOHN` |

## Left out

- Browser start-up, `maximize_window`, `teardown` and `main` are not modelled. They are session lifecycle and printing with no decision logic.
- Tester.FormTester.constructor: it receives the driver that `setup` would create. The source's state before `setup`, where `driver` is `None`, is not modelled. In that state `test_form_fields` fails on its first call and returns `False`.
- Logging is not modelled. Neither is the text of the exception raised when every strategy fails: `Exhausted` carries only the field name.
- Real time and Selenium's polling interval are not modelled. A wait is an oracle answer measured in ticks, and a condition that holds exactly at the deadline counts as met.
- What a locator expression matches in the DOM is not modelled. Expressions are opaque strings, and the page oracle decides each wait by the strategy alone.
- Navigation is not modelled beyond a reachable or unreachable URL. A page that changes during a run is not modelled either: the oracle is fixed for the run.
- Browser.Driver.Get: a reload does not reset element values to the page's initial ones; they persist across navigations, which matters only when `TestFormFields` runs twice on one driver.
- Tester.FormTester.TestFormFields: it takes the test data as a parameter. The source's own literal is `Tester.TestData`, in the dictionary's insertion order.
- Tester.FormTester.TestFormFields: every exception the source catches becomes `false`. The model's `FieldOutcome` keeps the cause, but the method returns only the boolean, as the source does.
- Python's `-O` flag, which removes `assert` statements and would turn a mismatch into a pass, is not modelled.
