/** The generator `progressOf` (index.js:18-49), driven by pulls. */
module Traversal {
  import opened JsValues
  import opened Environment
  import opened Derivation
  import opened Record

  /** A sized, indexable collection as progressOf sees it: its `length` and
      `size` properties and the values at its integer indices. */
  datatype Iterable<T> = Iterable(length: Prop, size: Prop, items: seq<T>) {
    /** `iterable.length ?? iterable.size` (index.js:19). */
    function Total(): Prop
    {
      Coalesce(length, size)
    }

    /** `iterable[i]` (index.js:47): `undefined` past the indexed values, as for
        a `Set`, which has a `size` but no indices. */
    function At(i: nat): Option<T>
    {
      if i < |items| then Some(items[i]) else None
    }
  }

  /** How many steps the traversal of `it` takes: the number of counters
      `0, 1, ...` below its total, and none when that total is no usable number. */
  lemma StepCount<T>(it: Iterable<T>)
    ensures forall i: nat :: LessThan(i, it.Total()) <==> i < Count(it.Total())
    ensures Count(it.Total()) == (if it.Total().Int? && it.Total().n > 0 then it.Total().n else 0)
    ensures !(it.length.Undefined? || it.length.Null?) ==> it.Total() == it.length
    ensures (it.length.Undefined? || it.length.Null?) ==> it.Total() == it.size
  {
    forall i: nat
      ensures LessThan(i, it.Total()) <==> i < Count(it.Total())
    {
      LessThanIsBelowCount(i, it.Total());
    }
  }

  /** The record of one step (index.js:24-26): the clock is read for `now`, the
      eager fields are set and the getters installed. */
  method NewRecord(current: nat, total: nat, start: int, host: Host, eta: nat, format: real -> string)
    returns (p: Progress)
    requires current < total && host.Valid() && eta < host.etas
    modifies host
    ensures fresh(p) && p.Valid() && !p.evaluated
    ensures p.current == current && p.total == total && p.start == start
    ensures p.host == host && p.eta == eta && p.format == format
    ensures p.now == host.clock(old(host.trace)) && host.trace == old(host.trace) + [ClockRead(p.now)]
    ensures host.etas == old(host.etas)
    ensures forall id :: ReportsOf(id, host.trace) == ReportsOf(id, old(host.trace))
  {
    var now := host.Now();
    p := new Progress(current, total, start, now, host, eta, format);
    p.LazyGetter(LazyKeys);
  }

  /** Where a generator object is: not yet pulled, suspended at the `yield`, or done. */
  datatype Phase = Fresh | Paused | Finished

  /** One yielded pair `[element, progress]`; `None` stands for `undefined`. */
  datatype Yield<T> = Yield(element: Option<T>, progress: Progress)

  class ProgressOf<T> {
    const iterable: Iterable<T>
    const host: Host
    const format: real -> string
    var phase: Phase
    var total: Prop
    var start: int
    var current: nat
    var eta: nat
    ghost var yielded: seq<nat>  // the `current` of every record yielded so far

    ghost predicate Valid()
      reads this, host
    {
      && host.Valid()
      && (forall i :: 0 <= i < |yielded| ==> yielded[i] == i)
      && (phase == Fresh ==> yielded == [])
      && (phase != Fresh ==> total == iterable.Total() && eta < host.etas && ReportsOf(eta, host.trace) == yielded)
      && (phase == Paused ==> |yielded| == current + 1 && current < Count(total))
      && (phase == Finished ==> |yielded| == Count(total))
    }

    /** `progressOf(iterable)`: a generator object; nothing of the body runs yet. */
    constructor (iterable: Iterable<T>, host: Host, format: real -> string)
      requires host.Valid()
      ensures Valid() && phase == Fresh && yielded == []
      ensures this.iterable == iterable && this.host == host && this.format == format
    {
      this.iterable, this.host, this.format := iterable, host, format;
      phase, total, start, current, eta := Fresh, Undefined, 0, 0, 0;
      yielded := [];
    }

    /** Where the body stands just before the test `current < total`
        (index.js:22): the total and the estimator are in place and every counter
        below `current` has been yielded and reported, in order. */
    ghost predicate AtTest()
      reads this, host
    {
      && host.Valid()
      && (forall i :: 0 <= i < |yielded| ==> yielded[i] == i)
      && total == iterable.Total() && eta < host.etas && ReportsOf(eta, host.trace) == yielded
      && |yielded| == current && current <= Count(total)
    }

    /** The statements before the loop (index.js:19-21), run on the first pull:
        the total is read, the clock gives the start time and the estimator is made. */
    method Begin()
      requires Valid() && phase == Fresh
      modifies this, host
      ensures AtTest() && phase == Fresh && yielded == old(yielded)
      ensures total == iterable.Total() && current == 0
      ensures start == host.clock(old(host.trace)) && eta == old(host.etas)
      ensures host.trace == old(host.trace) + [ClockRead(start), EtaMade(eta, total)]
    {
      total := iterable.Total();
      start := host.Now();
      eta := host.MakeEta(total);
      current := 0;
    }

    /** One round of the loop (index.js:22-48) from its test: past the total the
        generator is done; otherwise the step is reported, the record built, and
        the pair yielded. */
    method Step() returns (r: Option<Yield<T>>)
      requires AtTest()
      modifies this, host
      ensures Valid() && phase != Fresh
      ensures r.None? <==> phase == Finished
      ensures total == old(total) && start == old(start) && eta == old(eta)
      ensures yielded == old(yielded) + (if r.Some? then [old(current)] else [])
      ensures r.None? ==> host.trace == old(host.trace)
      ensures r.Some? ==>
        var p := r.value.progress;
        && fresh(p) && p.Valid() && !p.evaluated
        && p.current == old(current) && r.value.element == iterable.At(p.current)
        && p.total == Count(total) && p.start == start
        && p.host == host && p.eta == eta && p.format == format
        && p.now == host.clock(old(host.trace) + [Reported(eta, p.current)])
        && host.trace == old(host.trace) + [Reported(eta, p.current), ClockRead(p.now)]
    {
      LessThanIsBelowCount(current, total);
      if LessThan(current, total) {
        host.Report(eta, current);
        var progress := NewRecord(current, total.n, start, host, eta, format);
        var element := iterable.At(current);
        phase := Paused;
        yielded := yielded + [current];
        r := Some(Yield(element, progress));
      } else {
        phase := Finished;
        r := None;
      }
    }

    /** `next()`: runs the body up to the next `yield`. The first pull reads the
        total, the start time and makes the estimator (index.js:19-21); each pull
        that yields reports its step and then reads the clock (index.js:23-24),
        and nothing more reaches the clock or the estimator before the consumer
        pulls again. */
    method Next() returns (r: Option<Yield<T>>)
      requires Valid()
      modifies this, host
      ensures Valid()
      ensures old(phase) == Finished ==> r == None && host.trace == old(host.trace)
      ensures r.None? <==> phase == Finished
      ensures yielded == old(yielded) + (if r.Some? then [|old(yielded)|] else [])
      ensures old(phase) != Fresh ==> total == old(total) && start == old(start) && eta == old(eta)
      ensures old(phase) == Fresh ==>
        total == iterable.Total() && start == host.clock(old(host.trace)) && eta == old(host.etas)
      ensures old(phase) != Finished ==>
        var before := if old(phase) == Fresh then old(host.trace) + [ClockRead(start), EtaMade(eta, total)]
                      else old(host.trace);
        if r.None? then host.trace == before
        else
          var p := r.value.progress;
          && p.now == host.clock(before + [Reported(eta, p.current)])
          && host.trace == before + [Reported(eta, p.current), ClockRead(p.now)]
      ensures r.Some? ==>
        var p := r.value.progress;
        && fresh(p) && p.Valid() && !p.evaluated
        && p.current == |old(yielded)| && r.value.element == iterable.At(p.current)
        && p.total == Count(total) && p.start == start
        && p.host == host && p.eta == eta && p.format == format
    {
      if phase == Finished {
        return None;
      }
      if phase == Fresh {
        Begin();
      } else {
        current := current + 1;
      }
      r := Step();
    }
  }

  /** A consumer that pulls `g` until it is done and, on every record it
      receives, reads each of `keys`: it gets one pair per step, the `k`-th being
      the `k`-th element with a record for step `k`, all records sharing the
      total and the start time; the estimator has been told of each step once,
      in increasing order, however many lazy fields were read. */
  method Traverse<T>(g: ProgressOf<T>, keys: seq<string>) returns (ys: seq<Yield<T>>)
    requires g.Valid() && g.phase == Fresh
    modifies g, g.host
    ensures g.Valid() && g.phase == Finished
    ensures g.total == g.iterable.Total() && |ys| == Count(g.total)
    ensures g.iterable.length.Int? ==> |ys| == Count(g.iterable.length)
    ensures (g.iterable.length.Undefined? || g.iterable.length.Null?) ==> |ys| == Count(g.iterable.size)
    ensures g.iterable.length.NonNumeric? ==> ys == []
    ensures forall k :: 0 <= k < |ys| && k < |g.iterable.items| ==> ys[k].element == Some(g.iterable.items[k])
    ensures forall k :: |g.iterable.items| <= k < |ys| ==> ys[k].element == None
    ensures forall k :: 0 <= k < |ys| ==>
      && ys[k].progress.current == k && ys[k].element == g.iterable.At(k)
      && ys[k].progress.total == |ys| && ys[k].progress.start == g.start
    ensures forall k :: 0 <= k < |ReportsOf(g.eta, g.host.trace)| ==> ReportsOf(g.eta, g.host.trace)[k] == k
    ensures |ReportsOf(g.eta, g.host.trace)| == |ys|
  {
    ys := [];
    while g.phase != Finished
      invariant g.Valid()
      invariant g.phase == Fresh ==> ys == []
      invariant |ys| == |g.yielded|
      invariant forall k :: 0 <= k < |ys| ==>
        && ys[k].progress.current == k && ys[k].element == g.iterable.At(k)
        && ys[k].progress.total == Count(g.total) && ys[k].progress.start == g.start
      decreases Count(g.iterable.Total()) - |g.yielded|, if g.phase == Fresh then 2 else if g.phase == Paused then 1 else 0
    {
      ghost var phase0 := g.phase;
      var r := g.Next();
      if r.Some? {
        var p := r.value.progress;
        ys := ys + [r.value];
        var j := 0;
        while j < |keys|
          invariant 0 <= j <= |keys|
          invariant g.Valid() && p.Valid() && p.host == g.host && p.eta == g.eta
          invariant g.phase == Paused
          invariant |ys| == |g.yielded|
          invariant forall k :: 0 <= k < |ys| ==>
            && ys[k].progress.current == k && ys[k].element == g.iterable.At(k)
            && ys[k].progress.total == Count(g.total) && ys[k].progress.start == g.start
        {
          var _ := p.Get(keys[j]);
          j := j + 1;
        }
      }
    }
  }
}
