/** What `test_form_fields` computes for one `(field, value)` entry and for a
    whole batch, as functions of the page and the registry, and what is
    proved about them. */
module FieldCheck {
  import opened Locators
  import opened Browser
  import opened Fallback

  /** One entry of the test data: a registry key and the value to type. */
  datatype Entry = Entry(field: string, value: string)

  /** Why one entry passed or failed. The source collapses every failure into
      a logged exception and a `False` result; the model keeps the cause. */
  datatype FieldOutcome =
    | Passed
    | UnknownField(key: string)                 // `self.fields[field_name]` raises KeyError
    | NotFound(field: string)                   // every strategy timed out
    | WaitError(error: string)                  // a wait raised something other than a timeout
    | InteractionError(elem: ElemId, op: Op)    // clear, send_keys or get_attribute raised
    | Mismatch(expected: string, actual: string) // the read-back value differs

  /** The outcome of checking one entry: look the locator up, resolve it,
      clear the element, type the value, read it back, compare exactly. */
  function CheckField(page: Page, fields: map<string, FormFieldLocator>, timeout: nat, entry: Entry): FieldOutcome
  {
    if entry.field !in fields then UnknownField(entry.field)
    else match Resolve(page, fields[entry.field], timeout)
      case Exhausted(f) => NotFound(f)
      case Aborted(err, _) => WaitError(err)
      case Found(e, _) =>
        if (e, ClearOp) in page.faults then InteractionError(e, ClearOp)
        else if (e, TypeOp) in page.faults then InteractionError(e, TypeOp)
        else if (e, ReadOp) in page.faults then InteractionError(e, ReadOp)
        else
          var actual := page.render(e)(entry.value);
          if actual == entry.value then Passed else Mismatch(entry.value, actual)
  }

  /** The calls one entry makes: none for an unknown key; the resolver's waits;
      then clear, type and read on the resolved element, up to the first that raises. */
  function FieldTrace(page: Page, fields: map<string, FormFieldLocator>, timeout: nat, entry: Entry): seq<Command>
  {
    if entry.field !in fields then []
    else
      var loc := fields[entry.field];
      ResolveTrace(page, loc, timeout)
        + match Resolve(page, loc, timeout)
          case Found(e, _) =>
            [Cleared(e)]
              + if (e, ClearOp) in page.faults then []
                else [Typed(e, entry.value)] + if (e, TypeOp) in page.faults then [] else [Read(e)]
          case _ => []
  }

  /** The ticks one entry waits: those of its resolution. */
  function FieldCost(page: Page, fields: map<string, FormFieldLocator>, timeout: nat, entry: Entry): nat
  {
    if entry.field !in fields then 0 else ResolveCost(page, fields[entry.field], timeout)
  }

  /** The element values after one entry: the resolved element is emptied, then
      holds what the page makes of the typed value, unless an interaction raised. */
  function FieldValues(page: Page, fields: map<string, FormFieldLocator>, timeout: nat, entry: Entry,
                       values: map<ElemId, string>): map<ElemId, string>
  {
    if entry.field !in fields then values
    else match Resolve(page, fields[entry.field], timeout)
      case Found(e, _) =>
        if (e, ClearOp) in page.faults then values
        else if (e, TypeOp) in page.faults then values[e := ""]
        else values[e := page.render(e)(entry.value)]
      case _ => values
  }

  /** Every entry of the batch passes. */
  predicate AllPass(page: Page, fields: map<string, FormFieldLocator>, timeout: nat, data: seq<Entry>)
  {
    forall i :: 0 <= i < |data| ==> CheckField(page, fields, timeout, data[i]) == Passed
  }

  /** The calls the batch makes from entry `i` on: it stops after the first
      entry that does not pass. */
  function BatchTraceFrom(page: Page, fields: map<string, FormFieldLocator>, timeout: nat, data: seq<Entry>, i: nat): seq<Command>
    requires i <= |data|
    decreases |data| - i
  {
    if i == |data| then []
    else
      FieldTrace(page, fields, timeout, data[i])
        + if CheckField(page, fields, timeout, data[i]) == Passed then BatchTraceFrom(page, fields, timeout, data, i + 1) else []
  }

  /** The ticks the batch waits from entry `i` on. */
  function BatchCostFrom(page: Page, fields: map<string, FormFieldLocator>, timeout: nat, data: seq<Entry>, i: nat): nat
    requires i <= |data|
    decreases |data| - i
  {
    if i == |data| then 0
    else
      FieldCost(page, fields, timeout, data[i])
        + if CheckField(page, fields, timeout, data[i]) == Passed then BatchCostFrom(page, fields, timeout, data, i + 1) else 0
  }

  /** The element values after the batch, from entry `i` on. */
  function BatchValuesFrom(page: Page, fields: map<string, FormFieldLocator>, timeout: nat, data: seq<Entry>, i: nat,
                           values: map<ElemId, string>): map<ElemId, string>
    requires i <= |data|
    decreases |data| - i
  {
    if i == |data| then values
    else
      var next := FieldValues(page, fields, timeout, data[i], values);
      if CheckField(page, fields, timeout, data[i]) == Passed then BatchValuesFrom(page, fields, timeout, data, i + 1, next) else next
  }

  /** How one entry fails: an unknown key exactly when the key is not
      registered; not found exactly when resolution is exhausted, naming the
      field; a wait error exactly when resolution aborted, with its error; an
      interaction error exactly when the page faults some interaction with the
      resolved element, naming that element and the first faulting operation
      in clear, type, read order. */
  lemma CheckFieldOutcomes(page: Page, fields: map<string, FormFieldLocator>, timeout: nat, entry: Entry)
    ensures CheckField(page, fields, timeout, entry) == UnknownField(entry.field) <==> entry.field !in fields
    ensures entry.field in fields ==>
      var loc := fields[entry.field];
      var r := CheckField(page, fields, timeout, entry);
      (r.NotFound? <==> Resolve(page, loc, timeout).Exhausted?)
      && (r.NotFound? ==> r.field == loc.name)
      && (r.WaitError? <==> Resolve(page, loc, timeout).Aborted?)
      && (r.WaitError? ==> r.error == Resolve(page, loc, timeout).error)
      && (r.InteractionError? ==>
            Resolve(page, loc, timeout).Found? && r.elem == Resolve(page, loc, timeout).elem
            && (r.elem, r.op) in page.faults)
    ensures entry.field in fields && Resolve(page, fields[entry.field], timeout).Found? ==>
      var e := Resolve(page, fields[entry.field], timeout).elem;
      (CheckField(page, fields, timeout, entry).InteractionError? <==>
         (e, ClearOp) in page.faults || (e, TypeOp) in page.faults || (e, ReadOp) in page.faults)
    ensures CheckField(page, fields, timeout, entry).InteractionError? ==>
      var r := CheckField(page, fields, timeout, entry);
      forall op: Op :: Reached(op) < Reached(r.op) ==> (r.elem, op) !in page.faults
  {
  }

  /** The interactions with a resolved element, in the order they are made. */
  function Interactions(e: ElemId, value: string): seq<Command>
  {
    [Cleared(e), Typed(e, value), Read(e)]
  }

  /** How many of those interactions are made when `op` is the one that raises. */
  function Reached(op: Op): nat
  {
    match op
    case ClearOp => 1
    case TypeOp => 2
    case ReadOp => 3
  }

  /** The calls of one entry: none for an unknown key; otherwise the
      resolution's waits, and nothing more unless resolution found an element.
      On a found element the waits are followed by clear, type and read on it,
      in that order: all three when the entry passes or mismatches, and up to
      and including the one that raises on an interaction error. */
  lemma FieldTraceShape(page: Page, fields: map<string, FormFieldLocator>, timeout: nat, entry: Entry)
    ensures entry.field !in fields ==> FieldTrace(page, fields, timeout, entry) == []
    ensures entry.field in fields ==>
      var resolving := ResolveTrace(page, fields[entry.field], timeout);
      var t := FieldTrace(page, fields, timeout, entry);
      |resolving| <= |t| <= |resolving| + 3 && t[..|resolving|] == resolving
    ensures entry.field in fields && !Resolve(page, fields[entry.field], timeout).Found? ==>
      FieldTrace(page, fields, timeout, entry) == ResolveTrace(page, fields[entry.field], timeout)
    ensures entry.field in fields && Resolve(page, fields[entry.field], timeout).Found? ==>
      var resolving := ResolveTrace(page, fields[entry.field], timeout);
      var t := FieldTrace(page, fields, timeout, entry);
      |resolving| < |t|
      && t[|resolving|..] == Interactions(Resolve(page, fields[entry.field], timeout).elem, entry.value)[..|t| - |resolving|]
    ensures CheckField(page, fields, timeout, entry).Passed? || CheckField(page, fields, timeout, entry).Mismatch? ==>
      FieldTrace(page, fields, timeout, entry)
        == ResolveTrace(page, fields[entry.field], timeout)
           + Interactions(Resolve(page, fields[entry.field], timeout).elem, entry.value)
    ensures CheckField(page, fields, timeout, entry).InteractionError? ==>
      var c := CheckField(page, fields, timeout, entry);
      FieldTrace(page, fields, timeout, entry)
        == ResolveTrace(page, fields[entry.field], timeout) + Interactions(c.elem, entry.value)[..Reached(c.op)]
  {
  }

  /** The element values after one entry are untouched unless resolution found
      an element; a passing entry leaves exactly the typed value in it and
      changes nothing else. */
  lemma FieldValuesEffect(page: Page, fields: map<string, FormFieldLocator>, timeout: nat, entry: Entry,
                          values: map<ElemId, string>)
    ensures entry.field !in fields || !Resolve(page, fields[entry.field], timeout).Found? ==>
      FieldValues(page, fields, timeout, entry, values) == values
    ensures CheckField(page, fields, timeout, entry) == Passed ==>
      FieldValues(page, fields, timeout, entry, values)
        == values[Resolve(page, fields[entry.field], timeout).elem := entry.value]
  {
  }

  /** A passing prefix grows by one passing entry. */
  lemma PassingPrefixGrows(page: Page, fields: map<string, FormFieldLocator>, timeout: nat, data: seq<Entry>, i: nat)
    requires i < |data|
    requires forall j :: 0 <= j < i ==> CheckField(page, fields, timeout, data[j]) == Passed
    requires CheckField(page, fields, timeout, data[i]) == Passed
    ensures forall j :: 0 <= j < i + 1 ==> CheckField(page, fields, timeout, data[j]) == Passed
  {
  }

  /** An entry passes exactly when its key is registered, resolution finds an
      element, clear, type and read all succeed on it, and the page keeps the
      typed value verbatim. In particular, on a page that accepts input
      unchanged and on which no interaction raises, every registered and
      resolvable field passes. */
  lemma PassedIff(page: Page, fields: map<string, FormFieldLocator>, timeout: nat, entry: Entry)
    ensures CheckField(page, fields, timeout, entry) == Passed <==>
      entry.field in fields
      && Resolve(page, fields[entry.field], timeout).Found?
      && var e := Resolve(page, fields[entry.field], timeout).elem;
         (e, ClearOp) !in page.faults && (e, TypeOp) !in page.faults && (e, ReadOp) !in page.faults
         && page.render(e)(entry.value) == entry.value
  {
  }

  /** A mismatch comes only after clear, type and read all succeeded on the
      resolved element; it reports the value that was typed and the different
      value the element gave back, which is what the page made of it. */
  lemma MismatchReportsReadBack(page: Page, fields: map<string, FormFieldLocator>, timeout: nat, entry: Entry)
    requires CheckField(page, fields, timeout, entry).Mismatch?
    ensures entry.field in fields && Resolve(page, fields[entry.field], timeout).Found?
    ensures var m := CheckField(page, fields, timeout, entry);
      m.expected == entry.value && m.actual != m.expected
      && m.actual == page.render(Resolve(page, fields[entry.field], timeout).elem)(entry.value)
    ensures var e := Resolve(page, fields[entry.field], timeout).elem;
      (e, ClearOp) !in page.faults && (e, TypeOp) !in page.faults && (e, ReadOp) !in page.faults
  {
  }

  lemma {:induction false} TraceUntouchedFrom(page: Page, fields: map<string, FormFieldLocator>, timeout: nat,
                                              data: seq<Entry>, other: seq<Entry>, k: nat, i: nat)
    requires i <= k < |data| && k < |other| && data[..k + 1] == other[..k + 1]
    requires CheckField(page, fields, timeout, data[k]) != Passed
    ensures BatchTraceFrom(page, fields, timeout, data, i) == BatchTraceFrom(page, fields, timeout, other, i)
    decreases k - i
  {
    assert data[i] == data[..k + 1][i] == other[..k + 1][i] == other[i];
    if i < k && CheckField(page, fields, timeout, data[i]) == Passed {
      TraceUntouchedFrom(page, fields, timeout, data, other, k, i + 1);
    }
  }

  lemma {:induction false} CostUntouchedFrom(page: Page, fields: map<string, FormFieldLocator>, timeout: nat,
                                             data: seq<Entry>, other: seq<Entry>, k: nat, i: nat)
    requires i <= k < |data| && k < |other| && data[..k + 1] == other[..k + 1]
    requires CheckField(page, fields, timeout, data[k]) != Passed
    ensures BatchCostFrom(page, fields, timeout, data, i) == BatchCostFrom(page, fields, timeout, other, i)
    decreases k - i
  {
    assert data[i] == data[..k + 1][i] == other[..k + 1][i] == other[i];
    if i < k && CheckField(page, fields, timeout, data[i]) == Passed {
      CostUntouchedFrom(page, fields, timeout, data, other, k, i + 1);
    }
  }

  lemma {:induction false} ValuesUntouchedFrom(page: Page, fields: map<string, FormFieldLocator>, timeout: nat,
                                               data: seq<Entry>, other: seq<Entry>, k: nat, i: nat, values: map<ElemId, string>)
    requires i <= k < |data| && k < |other| && data[..k + 1] == other[..k + 1]
    requires CheckField(page, fields, timeout, data[k]) != Passed
    ensures BatchValuesFrom(page, fields, timeout, data, i, values) == BatchValuesFrom(page, fields, timeout, other, i, values)
    decreases k - i
  {
    assert data[i] == data[..k + 1][i] == other[..k + 1][i] == other[i];
    if i < k && CheckField(page, fields, timeout, data[i]) == Passed {
      ValuesUntouchedFrom(page, fields, timeout, data, other, k, i + 1, FieldValues(page, fields, timeout, data[i], values));
    }
  }

  /** The batch stops at its first failing entry `k`: whatever follows `k` has
      no effect on the calls made, the time waited or the element values,
      and the batch does not pass. */
  lemma StopsAtFirstFailure(page: Page, fields: map<string, FormFieldLocator>, timeout: nat,
                            data: seq<Entry>, other: seq<Entry>, k: nat, values: map<ElemId, string>)
    requires k < |data| && k < |other| && data[..k + 1] == other[..k + 1]
    requires CheckField(page, fields, timeout, data[k]) != Passed
    ensures !AllPass(page, fields, timeout, data) && !AllPass(page, fields, timeout, other)
    ensures BatchTraceFrom(page, fields, timeout, data, 0) == BatchTraceFrom(page, fields, timeout, other, 0)
    ensures BatchCostFrom(page, fields, timeout, data, 0) == BatchCostFrom(page, fields, timeout, other, 0)
    ensures BatchValuesFrom(page, fields, timeout, data, 0, values) == BatchValuesFrom(page, fields, timeout, other, 0, values)
  {
    TraceUntouchedFrom(page, fields, timeout, data, other, k, 0);
    CostUntouchedFrom(page, fields, timeout, data, other, k, 0);
    ValuesUntouchedFrom(page, fields, timeout, data, other, k, 0, values);
    assert other[k] == other[..k + 1][k];
  }

  lemma FieldValuesOverride(page: Page, fields: map<string, FormFieldLocator>, timeout: nat, entry: Entry,
                            values: map<ElemId, string>)
    ensures FieldValues(page, fields, timeout, entry, values) == values + FieldValues(page, fields, timeout, entry, map[])
  {
  }

  lemma {:induction false} BatchValuesOverride(page: Page, fields: map<string, FormFieldLocator>, timeout: nat,
                                               data: seq<Entry>, i: nat, values: map<ElemId, string>)
    requires i <= |data|
    ensures BatchValuesFrom(page, fields, timeout, data, i, values)
      == values + BatchValuesFrom(page, fields, timeout, data, i, map[])
    decreases |data| - i
  {
    if i < |data| {
      var w := FieldValues(page, fields, timeout, data[i], map[]);
      FieldValuesOverride(page, fields, timeout, data[i], values);
      FieldValuesOverride(page, fields, timeout, data[i], map[]);
      assert map[] + w == w;
      if CheckField(page, fields, timeout, data[i]) == Passed {
        BatchValuesOverride(page, fields, timeout, data, i + 1, values + w);
        BatchValuesOverride(page, fields, timeout, data, i + 1, w);
        var rest := BatchValuesFrom(page, fields, timeout, data, i + 1, map[]);
        assert (values + w) + rest == values + (w + rest);
      }
    }
  }

  /** Checking a batch again on the same page changes nothing more: the
      outcome never depends on the element values it starts from, and a
      second run leaves the values the first one left. */
  lemma RerunIsIdempotent(page: Page, fields: map<string, FormFieldLocator>, timeout: nat,
                          data: seq<Entry>, values: map<ElemId, string>)
    ensures var once := BatchValuesFrom(page, fields, timeout, data, 0, values);
      BatchValuesFrom(page, fields, timeout, data, 0, once) == once
  {
    var once := BatchValuesFrom(page, fields, timeout, data, 0, values);
    var w := BatchValuesFrom(page, fields, timeout, data, 0, map[]);
    BatchValuesOverride(page, fields, timeout, data, 0, values);
    BatchValuesOverride(page, fields, timeout, data, 0, once);
    assert (values + w) + w == values + w;
  }

  /** The calls of the entries `es`, each checked in turn. */
  function EntryTraces(page: Page, fields: map<string, FormFieldLocator>, timeout: nat, es: seq<Entry>): seq<Command>
  {
    if es == [] then [] else FieldTrace(page, fields, timeout, es[0]) + EntryTraces(page, fields, timeout, es[1..])
  }

  /** The ticks the entries `es` wait, each checked in turn. */
  function EntryCosts(page: Page, fields: map<string, FormFieldLocator>, timeout: nat, es: seq<Entry>): nat
  {
    if es == [] then 0 else FieldCost(page, fields, timeout, es[0]) + EntryCosts(page, fields, timeout, es[1..])
  }

  /** The element values after the entries `es`, each checked in turn. */
  function EntryValues(page: Page, fields: map<string, FormFieldLocator>, timeout: nat, es: seq<Entry>,
                       values: map<ElemId, string>): map<ElemId, string>
  {
    if es == [] then values
    else EntryValues(page, fields, timeout, es[1..], FieldValues(page, fields, timeout, es[0], values))
  }

  /** How many entries from `i` on the batch attempts when `k` is its first
      failing entry (or `|data|` when none fails): all up to and including `k`. */
  function AttemptedUpTo(data: seq<Entry>, k: nat): nat
  {
    if k < |data| then k + 1 else |data|
  }

  /** The batch's calls are those of every entry from `i` on, in order, up to
      and including the first that fails. */
  lemma {:induction false} BatchTraceUpToFailure(page: Page, fields: map<string, FormFieldLocator>, timeout: nat,
                                                 data: seq<Entry>, k: nat, i: nat)
    requires i <= k <= |data|
    requires forall j :: i <= j < k ==> CheckField(page, fields, timeout, data[j]) == Passed
    requires k == |data| || CheckField(page, fields, timeout, data[k]) != Passed
    ensures BatchTraceFrom(page, fields, timeout, data, i)
      == EntryTraces(page, fields, timeout, data[i..AttemptedUpTo(data, k)])
    decreases |data| - i
  {
    var end := AttemptedUpTo(data, k);
    if i < |data| {
      assert data[i..end][0] == data[i];
      assert data[i..end][1..] == data[i + 1..end];
      if i < k {
        BatchTraceUpToFailure(page, fields, timeout, data, k, i + 1);
      } else {
        assert data[i + 1..end] == [];
        assert BatchTraceFrom(page, fields, timeout, data, i) == FieldTrace(page, fields, timeout, data[i]) + [];
      }
    } else {
      assert data[i..end] == [];
    }
  }

  /** The batch waits the ticks of every entry from `i` on up to and including
      the first that fails. */
  lemma {:induction false} BatchCostUpToFailure(page: Page, fields: map<string, FormFieldLocator>, timeout: nat,
                                                data: seq<Entry>, k: nat, i: nat)
    requires i <= k <= |data|
    requires forall j :: i <= j < k ==> CheckField(page, fields, timeout, data[j]) == Passed
    requires k == |data| || CheckField(page, fields, timeout, data[k]) != Passed
    ensures BatchCostFrom(page, fields, timeout, data, i)
      == EntryCosts(page, fields, timeout, data[i..AttemptedUpTo(data, k)])
    decreases |data| - i
  {
    var end := AttemptedUpTo(data, k);
    if i < |data| {
      assert data[i..end][0] == data[i];
      assert data[i..end][1..] == data[i + 1..end];
      if i < k {
        BatchCostUpToFailure(page, fields, timeout, data, k, i + 1);
      } else {
        assert data[i + 1..end] == [];
      }
    } else {
      assert data[i..end] == [];
    }
  }

  /** The element values after the batch are those left by every entry from
      `i` on up to and including the first that fails. */
  lemma {:induction false} BatchValuesUpToFailure(page: Page, fields: map<string, FormFieldLocator>, timeout: nat,
                                                  data: seq<Entry>, k: nat, i: nat, values: map<ElemId, string>)
    requires i <= k <= |data|
    requires forall j :: i <= j < k ==> CheckField(page, fields, timeout, data[j]) == Passed
    requires k == |data| || CheckField(page, fields, timeout, data[k]) != Passed
    ensures BatchValuesFrom(page, fields, timeout, data, i, values)
      == EntryValues(page, fields, timeout, data[i..AttemptedUpTo(data, k)], values)
    decreases |data| - i
  {
    var end := AttemptedUpTo(data, k);
    if i < |data| {
      assert data[i..end][0] == data[i];
      assert data[i..end][1..] == data[i + 1..end];
      if i < k {
        BatchValuesUpToFailure(page, fields, timeout, data, k, i + 1,
          FieldValues(page, fields, timeout, data[i], values));
      } else {
        assert data[i + 1..end] == [];
      }
    } else {
      assert data[i..end] == [];
    }
  }
}
