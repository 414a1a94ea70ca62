/** The record progressOf yields at each step (index.js:25-46): an object with
    four eager data properties and getters for the lazy keys, plus the helper
    lazyGetter that installs those getters (index.js:95-98). */
module Record {
  import opened JsValues
  import opened Environment
  import opened Derivation

  /** An own property: a data property holding a value, or one of the getters
      lazyGetter installs, which calls the step's derivation callback. */
  datatype Slot = Data(value: JsValue) | Getter

  /** `{ current, total, start, now }` (index.js:25). */
  function EagerProps(current: nat, total: nat, start: int, now: int): (m: map<string, Slot>)
    ensures m.Keys == EagerKeys
  {
    map["current" := Data(Number(Finite(current as real))),
        "total" := Data(Number(Finite(total as real))),
        "start" := Data(Date(start)),
        "now" := Data(Date(now))]
  }

  /** A getter under each of `keys`. */
  function Getters(keys: seq<string>): (m: map<string, Slot>)
    ensures m.Keys == set k | k in keys
  {
    map k | k in keys :: Getter
  }

  /** The descriptor built at index.js:40-43 when the `for...in` visits `n` indices:
      each index string bound to a data property holding `undefined`. */
  function Descriptor(n: nat): (m: map<string, Slot>)
    ensures m.Keys == IndexKeys(n)
  {
    map k | k in IndexKeys(n) :: Data(Undef)
  }

  lemma GettersGrow(keys: seq<string>, i: nat)
    requires i < |keys|
    ensures Getters(keys[..i + 1]) == Getters(keys[..i])[keys[i] := Getter]
  {
    assert keys[..i + 1] == keys[..i] + [keys[i]];
  }

  lemma DescriptorGrows(i: nat)
    ensures Descriptor(i + 1) == Descriptor(i)[NatToString(i) := Data(Undef)]
  {
    assert IndexKeys(i + 1) == IndexKeys(i) + {NatToString(i)};
  }

  /** The loop at index.js:40-43. `for...in` over the array `lazyKeys` visits its
      indices `"0"` to `"7"`, not its elements, and `p` has no such keys: the
      descriptor binds the index strings, never a lazy key, to `undefined`. */
  method BuildDescriptor(p: Snapshot) returns (desc: map<string, Slot>)
    ensures desc == Descriptor(|LazyKeys|)
    ensures forall k :: k in desc ==> k !in LazyKeys && desc[k] == Data(Undef)
  {
    desc := map[];
    var i := 0;
    while i < |LazyKeys|
      invariant 0 <= i <= |LazyKeys|
      invariant desc == Descriptor(i)
    {
      var key := NatToString(i);
      DescriptorGrows(i);
      IndexKeyMissesSnapshot(p, key);
      desc := desc[key := Data(Lookup(p, key))];
      i := i + 1;
    }
    forall k | k in desc
      ensures k !in LazyKeys
    {
      IndexKeyIsNoRecordKey(k);
    }
  }

  /** The own properties of a record: the eager ones and the getters, and once the
      callback has run, the index keys of the descriptor as well. */
  function RecordProps(current: nat, total: nat, start: int, now: int, evaluated: bool): map<string, Slot>
  {
    EagerProps(current, total, start, now) + Getters(LazyKeys)
      + (if evaluated then Descriptor(|LazyKeys|) else map[])
  }

  /** What a read of `key` finds on a record, before or after an evaluation: a
      getter exactly under the lazy keys, the eager values under the eager keys,
      `undefined` under the index keys, and nothing named `ratio`. */
  lemma SlotOf(current: nat, total: nat, start: int, now: int, evaluated: bool, key: string)
    ensures var props := RecordProps(current, total, start, now, evaluated);
      && (key in LazyKeys <==> key in props && props[key] == Getter)
      && (key in EagerKeys ==> key in props && props[key] == EagerProps(current, total, start, now)[key])
      && (key !in LazyKeys && key !in EagerKeys && key in props ==> props[key] == Data(Undef))
      && "ratio" !in props
  {
    var eager, getters := EagerProps(current, total, start, now), Getters(LazyKeys);
    var desc: map<string, Slot> := if evaluated then Descriptor(|LazyKeys|) else map[];
    var props := RecordProps(current, total, start, now, evaluated);
    assert props == eager + getters + desc;
    assert "ratio" !in eager && "ratio" !in getters;
    if "ratio" in desc {
      IndexKeyIsNoRecordKey("ratio");
    }
    if key in desc {
      IndexKeyIsNoRecordKey(key);
      assert props[key] == Data(Undef);
    } else if key in getters {
      assert props[key] == Getter;
    } else if key in eager {
      assert props[key] == eager[key];
    }
  }

  /** Defining the descriptor's properties again changes nothing: after any number
      of evaluations the record has the same properties as after the first. */
  lemma DescriptorIdempotent(current: nat, total: nat, start: int, now: int, evaluated: bool)
    ensures RecordProps(current, total, start, now, evaluated) + Descriptor(|LazyKeys|)
         == RecordProps(current, total, start, now, true)
  {
    var base := EagerProps(current, total, start, now) + Getters(LazyKeys);
    var d := Descriptor(|LazyKeys|);
    if evaluated {
      assert base + d + d == base + d;
    } else {
      assert base + map[] == base;
    }
  }

  /** What the callback asks of its collaborators, in order: `new Date`
      (index.js:27), `eta.estimate()` (index.js:29) and `eta.rate()` (index.js:32). */
  method Collaborators(host: Host, eta: nat) returns (rd: Reading)
    requires host.Valid() && eta < host.etas
    modifies host
    ensures host.Valid() && host.etas == old(host.etas)
    ensures rd == old(host.NextReading(eta)) && host.trace == old(host.trace) + ReadingEffects(eta, rd)
    ensures forall id :: ReportsOf(id, host.trace) == ReportsOf(id, old(host.trace))
  {
    var t := host.Now();
    var e := host.Estimate(eta);
    var r := host.Rate(eta);
    rd := Reading(t, e, r);
  }

  class Progress {
    const current: nat
    const total: nat
    const start: int
    const now: int
    const host: Host
    const eta: nat                 // the traversal's estimator
    const format: real -> string   // `prettyMs(_, { compact: true })`
    var props: map<string, Slot>
    ghost var evaluated: bool  // whether the callback has run on this record

    ghost predicate Valid()
      reads this, host
    {
      && current < total
      && host.Valid() && eta < host.etas
      && props == RecordProps(current, total, start, now, evaluated)
    }

    /** The object literal at index.js:25. */
    constructor (current: nat, total: nat, start: int, now: int, host: Host, eta: nat, format: real -> string)
      ensures this.current == current && this.total == total && this.start == start && this.now == now
      ensures this.host == host && this.eta == eta && this.format == format
      ensures props == EagerProps(current, total, start, now) && !evaluated
    {
      this.current, this.total, this.start, this.now := current, total, start, now;
      this.host, this.eta, this.format := host, eta, format;
      props := EagerProps(current, total, start, now);
      evaluated := false;
    }

    /** `lazyGetter(progress, keys, callback)`: a getter is defined under each key
        in turn; every other property stays as it was. */
    method LazyGetter(keys: seq<string>)
      modifies this
      ensures props == old(props) + Getters(keys) && evaluated == old(evaluated)
    {
      var i := 0;
      while i < |keys|
        invariant 0 <= i <= |keys|
        invariant props == old(props) + Getters(keys[..i]) && evaluated == old(evaluated)
      {
        GettersGrow(keys, i);
        props := props[keys[i] := Getter];
        i := i + 1;
      }
      assert keys[..|keys|] == keys;
    }

    /** The callback of index.js:26-46, run by the getter for `key`: a fresh clock
        reading, then the estimate and the rate, then the snapshot; the descriptor
        lands on the index keys, so every getter stays in place, and the value of
        `key` in this snapshot is returned. */
    method Callback(key: string) returns (v: JsValue)
      requires Valid()
      modifies this, host
      ensures Valid()
      ensures var rd := old(host.NextReading(eta));
        && host.trace == old(host.trace) + ReadingEffects(eta, rd)
        && host.etas == old(host.etas)
        && v == Lookup(Derive(current, total, start, now, rd.t, rd.e, rd.r, format), key)
      ensures props == RecordProps(current, total, start, now, true) && evaluated
      ensures forall id :: ReportsOf(id, host.trace) == ReportsOf(id, old(host.trace))
    {
      var rd := Collaborators(host, eta);
      var p := Derive(current, total, start, now, rd.t, rd.e, rd.r, format);
      var desc := BuildDescriptor(p);
      DescriptorIdempotent(current, total, start, now, evaluated);
      props := props + desc;
      evaluated := true;
      v := Lookup(p, key);
    }

    /** Reading `progress[key]`. A lazy key runs the callback on every read: a new
        clock reading and new estimator answers each time, nothing cached. An eager
        key gives its value, and any other key, `ratio` among them, `undefined`;
        neither touches the clock or the estimator. */
    method Get(key: string) returns (v: JsValue)
      requires Valid()
      modifies this, host
      ensures Valid()
      ensures key in LazyKeys ==>
        var rd := old(host.NextReading(eta));
        && host.trace == old(host.trace) + ReadingEffects(eta, rd)
        && host.etas == old(host.etas)
        && v == Lookup(Derive(current, total, start, now, rd.t, rd.e, rd.r, format), key)
        && props == RecordProps(current, total, start, now, true) && evaluated
      ensures key !in LazyKeys ==>
        && v == (if key in EagerKeys then old(props)[key].value else Undef)
        && props == old(props) && evaluated == old(evaluated)
        && host.trace == old(host.trace) && host.etas == old(host.etas)
      ensures key == "ratio" ==> v == Undef
      ensures forall id :: ReportsOf(id, host.trace) == ReportsOf(id, old(host.trace))
    {
      SlotOf(current, total, start, now, evaluated, key);
      if key in props {
        match props[key]
        case Data(x) =>
          v := x;
        case Getter =>
          v := Callback(key);
      } else {
        v := Undef;
      }
    }
  }

  /** `progress.elapsedValue`: the time from `start` to the clock reading the
      callback takes now, whatever the record's own `now` is. */
  method ReadElapsed(p: Progress) returns (v: JsValue)
    requires p.Valid()
    modifies p, p.host
    ensures p.Valid() && p.host.etas == old(p.host.etas)
    ensures v == Number(Finite((old(p.host.clock(p.host.trace)) - p.start) as real))
    ensures p.host.trace == old(p.host.trace) + ReadingEffects(p.eta, old(p.host.NextReading(p.eta)))
  {
    assert LazyKeys[3] == "elapsedValue";
    ghost var rd := p.host.NextReading(p.eta);
    v := p.Get("elapsedValue");
    ElapsedValueOf(p.current, p.total, p.start, p.now, rd.t, rd.e, rd.r, p.format);
  }

  /** Two reads of `elapsedValue` on one record: each runs the callback, and the
      second measures from the clock reading taken after the first run's clock
      read, estimate and rate. */
  method ReadElapsedTwice(p: Progress) returns (first: JsValue, second: JsValue)
    requires p.Valid()
    modifies p, p.host
    ensures var t0 := old(p.host.trace);
      var rd := old(p.host.NextReading(p.eta));
      && first == Number(Finite((p.host.clock(t0) - p.start) as real))
      && second == Number(Finite((p.host.clock(t0 + ReadingEffects(p.eta, rd)) - p.start) as real))
  {
    first := ReadElapsed(p);
    second := ReadElapsed(p);
  }
}
