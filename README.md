# progress-of, modelled in Dafny

`progressOf(iterable)` is a generator. It walks a sized, indexable collection
and yields `[element, progress]` for each step. Each `progress` record has:

- four eager fields: `current`, `total`, `start` and `now`;
- getters for eight lazily derived fields: `etaValue`, `eta`, `rate`,
  `elapsedValue`, `elapsed`, `percentValue`, `percent` and `message`.

On every step the generator reports the counter to an ETA estimator made by
`simple-eta`. The lazy fields are computed by a callback from:

- a fresh clock reading;
- the estimator's `estimate()` and `rate()`;
- a duration formatter.

The model follows `index.js` as written, including two behaviours that
readers of its documentation may not expect:

- **Nothing is cached.** The descriptor loop `for (const key in lazyKeys)`
  visits the array's indices `"0"` to `"7"`, not its elements. So
  `Object.defineProperties` adds eight new properties holding `undefined`, and
  the getters stay in place. Every read of a lazy field runs the callback again,
  with a new clock reading and new estimator answers.
- **There is no `ratio` field.** `ratio` is computed inside the callback, but it
  is not among the lazy keys. Reading `progress.ratio` gives `undefined`.

Modules:

- `JsValues` (`values.dfy`): JavaScript numbers including the non-finite ones,
  the property reads that give the total (`length ?? size`), the `<` test
  between a counter and that total, and decimal rendering of integers.
- `Environment` (`host.dfy`): the clock and the estimators as one `Host`
  object. `Host` keeps an ordered trace of every call made to it. Its answers
  are oracle functions of the trace so far.
- `Derivation` (`derivation.dfy`): one run of the callback body, written as
  the pure function `Derive` that returns a `Snapshot`. Also the lemmas about
  the ETA, elapsed time, percentage and status line, and about the index keys
  that the descriptor loop visits.
- `Record` (`record.dfy`): the yielded record as a class whose property map is
  updated in place. It holds `lazyGetter`, the callback with its descriptor
  loop, and property reads.
- `Traversal` (`traversal.dfy`): the generator object, driven by `Next()`
  pulls, and a consumer that pulls it to the end.

## Model

| member | source | states |
|---|---|---|
| JsValues.Coalesce | index.js:19 | definition of `a ?? b`: the right operand when the left is `null` or `undefined`; the traversal's step count that follows from it is stated by `Traversal.StepCount` and `Traversal.Traverse` |
| JsValues.LessThan | index.js:22 | definition of the coerced test `current < total`: `undefined` and non-numeric totals compare false, `null` compares as 0 |
| JsValues.LessThanIsBelowCount | index.js:22 | the loop test `current < total` holds exactly for the counters below the step count; an undefined, null or non-numeric total gives no steps |
| JsValues.Scale | index.js:31 | definition of `estimate * 1000`; its finiteness and value are stated by `Derivation.EtaFollowsEstimate` |
| JsValues.NatToString | index.js:38-39 | the decimal rendering of a counter is a non-empty string of digits with no leading zero, one digit long exactly below 10 |
| JsValues.ParseNatToString | index.js:38-39 | reading back the decimal rendering of a number gives that number |
| JsValues.NatToStringInjective | index.js:39 | different counters and totals render as different strings in the message |
| Derivation.Derive | index.js:27-39 | definition of one callback run as the snapshot `p`; what it promises is stated by the lemmas `EtaFollowsEstimate`, `ElapsedIgnoresNow`, `PercentIsIntegerShare` and `MessageReadsBack` |
| Derivation.LazyKeys | index.js:4 | the eight lazy keys, in the source's order; `ratio` is not among them |
| Derivation.Lookup | index.js:45 | `p[key]` is defined (not `undefined`) exactly for the eight lazy keys, the four eager keys and `ratio` |
| Derivation.PercentText | index.js:38 | `Math.floor(percentValue) + '%'` is a non-empty run of decimal digits followed by `%` |
| Derivation.Message | index.js:39 | definition of the status-line layout; `MessageHeadRoundTrip` states that it reads back |
| Derivation.EtaFollowsEstimate | index.js:29-33 | `etaValue` is finite exactly when the estimate is, and is then 1000 times a finite estimate and `eta` is then its formatting; a non-finite estimate gives a non-finite `etaValue` and `eta == '∞'`; with a formatter that never prints `∞`, `eta` is `∞` exactly when the estimate is not finite |
| Derivation.ElapsedIgnoresNow | index.js:34-35 | `elapsedValue` and `elapsed` depend only on `start` and the callback's own clock reading: two snapshots that share these agree on both, whatever their eager `now`, step, total, estimate or rate |
| Derivation.IntegerShare | index.js:36-38 | the integer share `q` of `current` in `total` lies in 0..99 and satisfies `q * total <= 100 * current < (q + 1) * total` |
| Derivation.PercentIsIntegerShare | index.js:36-38 | `ratio` lies in [0, 1), `percentValue` is `ratio * 100`, and `percent` is the rounded-down share followed by `%` |
| Derivation.MessageReadsBack | index.js:38-39 | parsing the head of `message` gives back the integer share, `current` and `total`, and what follows the head is the snapshot's `eta`, then ` Elapsed: `, then its `elapsed` |
| Derivation.MessageHeadRoundTrip | index.js:39 | for any numbers and any ETA and elapsed strings, the status-line layout parses back to the percentage, step and total it was built from, followed by exactly `eta + " Elapsed: " + elapsed` |
| Derivation.StepThreeOfTen | index.js:36-39 | at step 3 of 10 the percentage is `30%` and the message is `30% [3/10] ETA: … Elapsed: …` |
| Derivation.SingleStep | index.js:36-39 | the only step of a one-element traversal has ratio 0, percentage `0%` and message `0% [0/1] ETA: … Elapsed: …` |
| Derivation.IndexKeyIsNoRecordKey | index.js:41 | the keys the `for...in` visits over the eight lazy keys of line 4 are one-character index strings, so none is a lazy key, an eager key or `ratio` |
| Derivation.IndexKeyMissesSnapshot | index.js:41-42 | every descriptor value `p[key]` for those keys is `undefined` |
| Record.EagerProps | index.js:25 | the record literal has exactly the keys `current`, `total`, `start` and `now` |
| Record.BuildDescriptor | index.js:40-43 | the descriptor binds the index strings `"0"` to `"7"` to `undefined` and binds no lazy key |
| Record.SlotOf | index.js:40-44 | before or after any number of evaluations, a record (eager fields from line 25, getters from lines 95-98) has a getter exactly under the lazy keys, its eager values under the eager keys, `undefined` under the index keys, and no `ratio` property |
| Record.DescriptorIdempotent | index.js:44 | defining the descriptor again leaves the record's properties as they were after the first evaluation |
| Record.Progress.constructor | index.js:25 | a new record has exactly the four eager data properties and has not been evaluated |
| Record.Progress.LazyGetter | index.js:95-98 | a getter is installed under each key, and every other property stays as it was |
| Record.Collaborators | index.js:27-32 | the callback reads the clock, then asks for the estimate, then the rate; these are exactly the next reading of the history so far, and none of them is a report |
| Record.Progress.Callback | index.js:26-46 | one callback run appends a clock read, an estimate and a rate to the trace, returns that key's field of the snapshot derived from those answers, and leaves the getters in place |
| Record.Progress.Get | index.js:97 | reading a lazy key runs a fresh evaluation each time and returns its field; an eager key gives its value; any other own-property name, `ratio` included, gives `undefined`; neither of the last two touches the clock or the estimator |
| Record.ReadElapsed | index.js:34 | reading `elapsedValue` gives the time from `start` to a clock reading taken by this read, and appends this read's clock, estimate and rate calls to the trace |
| Record.ReadElapsedTwice | index.js:97 | two reads of `elapsedValue` on one record measure from two clock readings: the first for the history before the reads, the second for that history plus the first read's three calls; nothing is cached |
| Environment.ReportsOfAppend | index.js:23 | effects that are not reports to an estimator leave that estimator's reports as they were |
| Environment.Host.MakeEta | index.js:21 | `makeEta` hands out a new estimator that has had nothing reported to it |
| Environment.Host.Report | index.js:23 | `report(step)` appends exactly that step to the estimator's reports and to no other estimator's |
| Environment.Host.Now | index.js:20 | `new Date` (also at lines 24 and 27) gives the clock's reading for the history so far and reports nothing |
| Environment.Host.Estimate | index.js:29 | `estimate()` gives the estimator's answer for the history so far and reports nothing |
| Environment.Host.Rate | index.js:32 | `rate()` gives the estimator's answer for the history so far and reports nothing |
| Traversal.Iterable.Total | index.js:19 | definition of `iterable.length ?? iterable.size` |
| Traversal.Iterable.At | index.js:47 | definition of `iterable[i]`: the i-th value, `undefined` past the indexed values; what the traversal yields is stated by `Traversal.Traverse` |
| Traversal.StepCount | index.js:19-22 | the traversal takes `length` steps, or `size` steps when `length` is null or undefined, and no steps when that total is not a positive integer, so the division at line 36 never sees a zero total |
| Traversal.NewRecord | index.js:24-26 | a step's record is fresh, takes `now` from a clock read after everything before it, and has its eager fields and the getters installed |
| Traversal.ProgressOf.constructor | index.js:18 | calling `progressOf(iterable)` runs nothing of the body: the generator is fresh and has yielded nothing |
| Traversal.ProgressOf.Begin | index.js:19-21 | the first pull reads the total, then the clock for `start`, then makes the estimator with that total |
| Traversal.ProgressOf.Step | index.js:22-48 | past the total the generator finishes with the trace untouched; otherwise it reports the counter, then reads the clock for the record, and yields `iterable[current]` with a record for that step |
| Traversal.ProgressOf.Next | index.js:18-49 | each pull yields the next counter in order, or finishes once past the total and stays finished; the report trace equals the counters yielded so far; each yield is preceded by exactly one report and one clock read |
| Traversal.Traverse | index.js:19-48 | pulling to the end yields exactly `Count(total)` pairs: `Count(length)` when `length` is an integer, `Count(size)` when `length` is `null` or `undefined`, none when it is non-numeric; the k-th pair is `iterable[k]` (the k-th item, or `undefined` past the items) with a record for step k that shares `total` and `start`; the estimator receives the reports 0, 1, …, in order, once each, however many lazy fields are read |

## Left out

- The estimator's algorithm (`simple-eta`) is not part of this model. Its
  `estimate()` and `rate()` answers are arbitrary functions of the call
  history.
- The duration formatter (`pretty-ms`) is not part of this model. It is a
  parameter `format` from a millisecond count to a string.
- The wall clock is an arbitrary function of the call history. Readings are
  integers of milliseconds, so the difference of two `Date`s is an integer.
- Derivation.Derive: computes `ratio` and `percentValue` with exact reals, not
  IEEE doubles. JavaScript's `current / total * 100` can round below the exact
  value (`29 / 100 * 100` floors to 28), and such cases are not captured.
- Derivation.PercentIsIntegerShare: states the exact-arithmetic percentage. It
  differs from what the code computes with doubles at a rounding boundary: for
  29 of 100 the model shows `29%` and JavaScript shows `28%`.
- Totals that are fractional, infinite or numeric strings are not modelled. A
  total is `undefined`, `null`, an integer or non-numeric.
- JsValues.NatToString: renders every integer in plain digits. JavaScript's
  `String(n)` uses exponent form from 10^21 up (`1e+21`), so the status line
  of such a total differs; totals are taken to be integers below 2^53.
- Traversal.ProgressOf.Step: counts with unbounded integers. In JavaScript,
  `current++` stops changing at 2^53, so a larger total never ends the loop;
  the model assumes totals below 2^53.
- JsValues.Scale: keeps `estimate * 1000` finite for every finite estimate.
  With doubles, an estimate above about 1.8e305 overflows to `Infinity`
  while `isFinite(estimate)` still holds, and line 33 then formats `Infinity`;
  the model assumes estimates small enough that the product stays finite.
- Record.Progress.Get: gives `undefined` for every name the record does not
  own. Names inherited from `Object.prototype` (`toString`, `constructor`,
  `hasOwnProperty`, ...) are not modelled; JavaScript reads them from the
  prototype.
- Changes to the collection during the traversal are not modelled. The
  collection is a fixed value, so an array rewritten or shortened between
  pulls gives the original element, where `iterable[current]` would read the
  new one or `undefined`.
- Property attributes are not modelled: enumerability, configurability, and
  the way the `{...progress}` spread skips the getters. The model keeps only
  what a read observes. The descriptor values are `undefined` because the
  descriptor's keys are `"0"` to `"7"`, which the snapshot `p` does not have.
- The generator protocol beyond `next()` is left out. `return()`, `throw()`
  and the `done` flag's object form add no logic to this module.
- The `this` and second argument that the getter passes to the callback are
  left out, because the callback ignores them.
- The JSDoc typedefs carry no logic.
