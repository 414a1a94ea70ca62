/** The collaborators progressOf calls but does not implement: the wall clock
    (`new Date`) and the estimator objects made by `simple-eta`. Every call is
    appended to one trace of effects, so the order of calls is observable. The
    answers are oracle functions of the trace so far: any clock and any
    estimator whose answers depend on what happened before fit this model. */
module Environment {
  import opened JsValues

  datatype Effect =
    | ClockRead(t: int)           // `new Date`, read as milliseconds
    | EtaMade(id: nat, max: Prop) // `makeEta({ max })`, handing out estimator `id`
    | Reported(id: nat, step: nat)  // `eta.report(step)`
    | Estimated(id: nat, e: Num)   // `eta.estimate()` answered `e` (seconds)
    | Rated(id: nat, r: Num)       // `eta.rate()` answered `r`

  /** The steps reported to estimator `id`, in the order they were reported. */
  function ReportsOf(id: nat, trace: seq<Effect>): seq<nat>
  {
    if trace == [] then []
    else
      var last := trace[|trace| - 1];
      var earlier := ReportsOf(id, trace[..|trace| - 1]);
      if last.Reported? && last.id == id then earlier + [last.step] else earlier
  }

  /** Effects that are no report to `id` leave the reports to `id` as they were. */
  lemma {:induction false} ReportsOfAppend(id: nat, trace: seq<Effect>, more: seq<Effect>)
    requires forall i :: 0 <= i < |more| ==> !(more[i].Reported? && more[i].id == id)
    ensures ReportsOf(id, trace + more) == ReportsOf(id, trace)
    decreases |more|
  {
    if more != [] {
      var init := more[..|more| - 1];
      assert (trace + more)[..|trace + more| - 1] == trace + init;
      assert (trace + more)[|trace + more| - 1] == more[|more| - 1];
      ReportsOfAppend(id, trace, init);
    } else {
      assert trace + more == trace;
    }
  }

  /** An estimator that appears nowhere in the trace has had nothing reported. */
  lemma {:induction false} ReportsOfUnused(id: nat, trace: seq<Effect>)
    requires forall i :: 0 <= i < |trace| ==> trace[i].ClockRead? || trace[i].id < id
    ensures ReportsOf(id, trace) == []
    decreases |trace|
  {
    if trace != [] {
      ReportsOfUnused(id, trace[..|trace| - 1]);
    }
  }

  /** What the derivation callback learns from the collaborators in one run:
      a clock reading, then the estimate, then the rate. */
  datatype Reading = Reading(t: int, e: Num, r: Num)

  /** The effects of taking `rd` from estimator `id`, in the order the callback makes them. */
  function ReadingEffects(id: nat, rd: Reading): seq<Effect>
  {
    [ClockRead(rd.t), Estimated(id, rd.e), Rated(id, rd.r)]
  }

  class Host {
    var trace: seq<Effect>
    var etas: nat  // estimators handed out so far
    const clock: seq<Effect> -> int
    const estimate: (nat, seq<Effect>) -> Num
    const rate: (nat, seq<Effect>) -> Num

    /** Every estimator in the trace has been handed out. */
    ghost predicate Valid()
      reads this
    {
      forall i :: 0 <= i < |trace| ==> trace[i].ClockRead? || trace[i].id < etas
    }

    /** The reading the clock and estimator `id` give next, for the history so far. */
    function NextReading(id: nat): (rd: Reading)
      reads this
    {
      var t := clock(trace);
      var e := estimate(id, trace + [ClockRead(t)]);
      Reading(t, e, rate(id, trace + [ClockRead(t)] + [Estimated(id, e)]))
    }

    constructor (clock: seq<Effect> -> int, estimate: (nat, seq<Effect>) -> Num, rate: (nat, seq<Effect>) -> Num)
      ensures Valid() && trace == [] && etas == 0
      ensures this.clock == clock && this.estimate == estimate && this.rate == rate
    {
      trace, etas := [], 0;
      this.clock, this.estimate, this.rate := clock, estimate, rate;
    }

    /** `new Date`: the clock's reading for the history so far. */
    method Now() returns (t: int)
      requires Valid()
      modifies this
      ensures Valid() && etas == old(etas)
      ensures t == clock(old(trace)) && trace == old(trace) + [ClockRead(t)]
      ensures forall id :: ReportsOf(id, trace) == ReportsOf(id, old(trace))
    {
      t := clock(trace);
      trace := trace + [ClockRead(t)];
    }

    /** `makeEta({ max })`: a new estimator, never reported to before. */
    method MakeEta(max: Prop) returns (id: nat)
      requires Valid()
      modifies this
      ensures Valid() && id == old(etas) && etas == old(etas) + 1
      ensures trace == old(trace) + [EtaMade(id, max)]
      ensures ReportsOf(id, trace) == []
      ensures forall other :: ReportsOf(other, trace) == ReportsOf(other, old(trace))
    {
      id := etas;
      ReportsOfUnused(id, trace);
      trace := trace + [EtaMade(id, max)];
      etas := etas + 1;
    }

    /** `eta.report(step)`. */
    method Report(id: nat, step: nat)
      requires Valid() && id < etas
      modifies this
      ensures Valid() && etas == old(etas)
      ensures trace == old(trace) + [Reported(id, step)]
      ensures ReportsOf(id, trace) == ReportsOf(id, old(trace)) + [step]
      ensures forall other :: other != id ==> ReportsOf(other, trace) == ReportsOf(other, old(trace))
    {
      trace := trace + [Reported(id, step)];
    }

    /** `eta.estimate()`: seconds remaining, possibly not finite. */
    method Estimate(id: nat) returns (e: Num)
      requires Valid() && id < etas
      modifies this
      ensures Valid() && etas == old(etas)
      ensures e == estimate(id, old(trace)) && trace == old(trace) + [Estimated(id, e)]
      ensures forall other :: ReportsOf(other, trace) == ReportsOf(other, old(trace))
    {
      e := estimate(id, trace);
      trace := trace + [Estimated(id, e)];
    }

    /** `eta.rate()`. */
    method Rate(id: nat) returns (r: Num)
      requires Valid() && id < etas
      modifies this
      ensures Valid() && etas == old(etas)
      ensures r == rate(id, old(trace)) && trace == old(trace) + [Rated(id, r)]
      ensures forall other :: ReportsOf(other, trace) == ReportsOf(other, old(trace))
    {
      r := rate(id, trace);
      trace := trace + [Rated(id, r)];
    }
  }
}
