/** The body of the callback progressOf hands to lazyGetter (index.js:27-39):
    from the step's eager fields, a fresh clock reading and the estimator's
    answers it builds a snapshot `p` holding every derived field. */
module Derivation {
  import opened JsValues

  /** The keys progressOf installs getters for (index.js:4). `ratio` is not among them. */
  const LazyKeys: seq<string> :=
    ["etaValue", "eta", "rate", "elapsedValue", "elapsed", "percentValue", "percent", "message"]

  /** The keys of the eager record `{ current, total, start, now }` (index.js:25). */
  const EagerKeys: set<string> := {"current", "total", "start", "now"}

  /** The infinity sign shown as the ETA when the estimate is not finite. */
  const Infinity: string := "\U{221E}"

  /** The object `p` (index.js:28-39): a copy of the eager fields of the record
      plus everything derived from them. */
  datatype Snapshot = Snapshot(
    current: nat, total: nat, start: int, now: int,
    etaValue: Num, rate: Num, eta: string,
    elapsedValue: int, elapsed: string,
    ratio: real, percentValue: real, percent: string,
    message: string)

  /** `p[key]`: the named field of the snapshot, `undefined` for any other key. */
  function Lookup(p: Snapshot, key: string): (v: JsValue)
    ensures v != Undef <==> key in LazyKeys || key in EagerKeys || key == "ratio"
  {
    match key
    case "current" => Number(Finite(p.current as real))
    case "total" => Number(Finite(p.total as real))
    case "start" => Date(p.start)
    case "now" => Date(p.now)
    case "etaValue" => Number(p.etaValue)
    case "rate" => Number(p.rate)
    case "eta" => Str(p.eta)
    case "elapsedValue" => Number(Finite(p.elapsedValue as real))
    case "elapsed" => Str(p.elapsed)
    case "ratio" => Number(Finite(p.ratio))
    case "percentValue" => Number(Finite(p.percentValue))
    case "percent" => Str(p.percent)
    case "message" => Str(p.message)
    case _ => Undef
  }

  /** `Math.floor(x)` for a non-negative `x`. */
  function FloorNat(x: real): (n: nat)
    requires x >= 0.0
    ensures n as real <= x < n as real + 1.0
  {
    x.Floor
  }

  /** `Math.floor(percentValue) + '%'`. */
  function PercentText(percentValue: real): (r: string)
    requires percentValue >= 0.0
    ensures |r| >= 2 && r[|r| - 1] == '%' && AllDigits(r[..|r| - 1])
  {
    var digits := NatToString(FloorNat(percentValue));
    assert (digits + "%")[..|digits|] == digits;
    digits + "%"
  }

  /** The status line `<percent> [<current>/<total>] ETA: <eta> Elapsed: <elapsed>`. */
  function Message(percent: string, current: nat, total: nat, eta: string, elapsed: string): string
  {
    percent + " [" + NatToString(current) + "/" + NatToString(total) + "] ETA: " + eta + " Elapsed: " + elapsed
  }

  /** One run of the callback body. `now` is the eager `now` copied by the spread,
      `t` the clock reading taken at index.js:27, `estimate` and `rate` the
      estimator's answers and `format` stands for `prettyMs(_, { compact: true })`.
      The callback only runs inside the loop, where `current < total`. */
  function Derive(current: nat, total: nat, start: int, now: int, t: int,
                  estimate: Num, rate: Num, format: real -> string): Snapshot
    requires current < total
  {
    var etaValue := Scale(estimate, 1000.0);
    var eta := if estimate.Finite? then format(etaValue.v) else Infinity;
    var elapsedValue := t - start;
    var elapsed := format(elapsedValue as real);
    var ratio := current as real / total as real;
    var percentValue := ratio * 100.0;
    var percent := PercentText(percentValue);
    Snapshot(current, total, start, now, etaValue, rate, eta, elapsedValue, elapsed,
             ratio, percentValue, percent, Message(percent, current, total, eta, elapsed))
  }

  /** The ETA string and value follow the estimate's finiteness: a finite estimate
      `e` seconds gives `etaValue == 1000 * e` milliseconds, formatted; anything
      else gives a non-finite `etaValue` and the infinity sign. So long as the
      formatter never prints the infinity sign itself, `eta` is the infinity sign
      exactly when the estimate is not finite. */
  lemma EtaFollowsEstimate(current: nat, total: nat, start: int, now: int, t: int,
                           estimate: Num, rate: Num, format: real -> string)
    requires current < total
    ensures var p := Derive(current, total, start, now, t, estimate, rate, format);
      && (p.etaValue.Finite? <==> estimate.Finite?)
      && (estimate.Finite? ==> p.etaValue.v == 1000.0 * estimate.v && p.eta == format(1000.0 * estimate.v))
      && (!estimate.Finite? ==> p.etaValue == estimate && p.eta == Infinity)
      && ((forall x :: format(x) != Infinity) ==> (p.eta == Infinity <==> !estimate.Finite?))
  {
  }

  /** The elapsed time depends only on `start` and the callback's own clock
      reading: not on the eager `now` copied from the record, nor on the step or
      the estimator's answers. */
  lemma ElapsedIgnoresNow(current: nat, total: nat, start: int, now: int, t: int, estimate: Num, rate: Num,
                          current': nat, total': nat, now': int, estimate': Num, rate': Num,
                          format: real -> string)
    requires current < total && current' < total'
    ensures var p := Derive(current, total, start, now, t, estimate, rate, format);
      var q := Derive(current', total', start, now', t, estimate', rate', format);
      p.elapsedValue == q.elapsedValue && p.elapsed == q.elapsed
  {
  }

  lemma ElapsedValueOf(current: nat, total: nat, start: int, now: int, t: int,
                       estimate: Num, rate: Num, format: real -> string)
    requires current < total
    ensures Lookup(Derive(current, total, start, now, t, estimate, rate, format), "elapsedValue")
         == Number(Finite((t - start) as real))
  {
  }

  lemma DivBounds(a: nat, n: nat)
    requires n > 0
    ensures (a / n) * n <= a < (a / n + 1) * n
  {
  }

  lemma CastProduct(a: int, b: int)
    ensures (a * b) as real == a as real * b as real
  {
  }

  lemma DivideBelow(a: real, b: real, n: real)
    requires n > 0.0 && a * n <= b
    ensures a <= b / n
  {
  }

  lemma DivideAbove(b: real, a: real, n: real)
    requires n > 0.0 && b < a * n
    ensures b / n < a
  {
  }

  /** The whole percentage `100 * current / total`, rounded down. */
  function IntegerShare(current: nat, total: nat): (q: nat)
    requires current < total
    ensures q < 100
    ensures q * total <= 100 * current < (q + 1) * total
  {
    DivBounds(100 * current, total);
    var q := 100 * current / total;
    assert q * total <= 100 * current < 100 * total;
    q
  }

  /** With exact arithmetic, `Math.floor(current / total * 100)` is the integer share. */
  lemma FloorOfShare(current: nat, total: nat)
    requires current < total
    ensures FloorNat(current as real / total as real * 100.0) == IntegerShare(current, total)
  {
    var q := IntegerShare(current, total);
    CastProduct(q, total);
    CastProduct(q + 1, total);
    assert current as real / total as real * 100.0 == (100 * current) as real / total as real;
    DivideBelow(q as real, (100 * current) as real, total as real);
    DivideAbove((100 * current) as real, (q + 1) as real, total as real);
  }

  lemma PercentTextOfShare(current: nat, total: nat)
    requires current < total
    ensures PercentText(current as real / total as real * 100.0) == NatToString(IntegerShare(current, total)) + "%"
  {
    FloorOfShare(current, total);
  }

  lemma DeriveShare(current: nat, total: nat, start: int, now: int, t: int,
                    estimate: Num, rate: Num, format: real -> string)
    requires current < total
    ensures var p := Derive(current, total, start, now, t, estimate, rate, format);
      && p.ratio == current as real / total as real
      && p.percentValue == current as real / total as real * 100.0
      && p.percent == PercentText(current as real / total as real * 100.0)
  {
  }

  /** The percentage shown is the integer share `100 * current / total`, rounded
      down, which lies in 0..99; the ratio lies in [0, 1). */
  lemma PercentIsIntegerShare(current: nat, total: nat, start: int, now: int, t: int,
                              estimate: Num, rate: Num, format: real -> string)
    requires current < total
    ensures var p := Derive(current, total, start, now, t, estimate, rate, format);
      && 0.0 <= p.ratio < 1.0
      && p.percentValue == p.ratio * 100.0
      && p.percent == NatToString(IntegerShare(current, total)) + "%"
  {
    DeriveShare(current, total, start, now, t, estimate, rate, format);
    PercentTextOfShare(current, total);
    DivideAbove(current as real, 1.0, total as real);
  }

  /** Reads a non-empty run of decimal digits off the front of `s`. */
  function ReadNumber(s: string): Option<(nat, string)>
  {
    var k := LeadingDigits(s);
    if k == 0 then None else Some((ParseDigits(s[..k]), s[k..]))
  }

  /** Reads the literal `lit` off the front of `s`. */
  function ReadLiteral(lit: string, s: string): Option<string>
  {
    if |lit| <= |s| && s[..|lit|] == lit then Some(s[|lit|..]) else None
  }

  lemma ReadNumberOf(d: string, t: string)
    requires |d| >= 1 && AllDigits(d)
    requires t != [] && !IsDigit(t[0])
    ensures ReadNumber(d + t) == Some((ParseDigits(d), t))
  {
    LeadingDigitsOfConcat(d, t);
    assert (d + t)[..|d|] == d;
    assert (d + t)[|d|..] == t;
  }

  lemma ReadLiteralOf(lit: string, t: string)
    ensures ReadLiteral(lit, lit + t) == Some(t)
  {
    assert (lit + t)[..|lit|] == lit;
    assert (lit + t)[|lit|..] == t;
  }

  /** The fields before the ETA read back from a status line: digits, `% [`,
      digits, `/`, digits and `] ETA: `, followed by whatever comes after. */
  function ParseMessageHead(m: string): Option<(nat, nat, nat, string)>
  {
    match ReadNumber(m)
    case None => None
    case Some((pct, r1)) =>
      match ReadLiteral("% [", r1)
      case None => None
      case Some(r2) =>
        match ReadNumber(r2)
        case None => None
        case Some((current, r3)) =>
          match ReadLiteral("/", r3)
          case None => None
          case Some(r4) =>
            match ReadNumber(r4)
            case None => None
            case Some((total, r5)) =>
              match ReadLiteral("] ETA: ", r5)
              case None => None
              case Some(rest) => Some((pct, current, total, rest))
  }

  /** The head of a line laid out as `<ps>% [<cs>/<ts>] ETA: <rest>` reads back
      as the three numbers, for any digit strings and any rest. */
  lemma HeadOfLayout(ps: string, cs: string, ts: string, rest: string)
    requires |ps| >= 1 && AllDigits(ps) && |cs| >= 1 && AllDigits(cs) && |ts| >= 1 && AllDigits(ts)
    ensures ParseMessageHead(ps + ("% [" + (cs + ("/" + (ts + ("] ETA: " + rest))))))
         == Some((ParseDigits(ps), ParseDigits(cs), ParseDigits(ts), rest))
  {
    var r4 := ts + ("] ETA: " + rest);
    var r2 := cs + ("/" + r4);
    ReadNumberOf(ps, "% [" + r2);
    ReadLiteralOf("% [", r2);
    ReadNumberOf(cs, "/" + r4);
    ReadLiteralOf("/", r4);
    ReadNumberOf(ts, "] ETA: " + rest);
    ReadLiteralOf("] ETA: ", rest);
  }

  lemma MessageLayout(ps: string, cs: string, ts: string, eta: string, elapsed: string)
    ensures ps + "%" + " [" + cs + "/" + ts + "] ETA: " + eta + " Elapsed: " + elapsed
         == ps + ("% [" + (cs + ("/" + (ts + ("] ETA: " + (eta + " Elapsed: " + elapsed))))))
  {
  }

  /** The status line starts with the percentage, the step and the total, and
      they can be read back from it, whatever the ETA and elapsed strings are;
      what follows them is the ETA, ` Elapsed: ` and the elapsed time. */
  lemma MessageHeadRoundTrip(pct: nat, current: nat, total: nat, eta: string, elapsed: string)
    ensures ParseMessageHead(Message(NatToString(pct) + "%", current, total, eta, elapsed))
         == Some((pct, current, total, eta + " Elapsed: " + elapsed))
  {
    var ps, cs, ts := NatToString(pct), NatToString(current), NatToString(total);
    var rest := eta + " Elapsed: " + elapsed;
    MessageLayout(ps, cs, ts, eta, elapsed);
    HeadOfLayout(ps, cs, ts, rest);
    ParseNatToString(pct);
    ParseNatToString(current);
    ParseNatToString(total);
  }

  /** The status line of any snapshot reads back as its percentage, step and
      total, followed by the snapshot's own ETA and elapsed strings. */
  lemma MessageReadsBack(current: nat, total: nat, start: int, now: int, t: int,
                         estimate: Num, rate: Num, format: real -> string)
    requires current < total
    ensures var p := Derive(current, total, start, now, t, estimate, rate, format);
      ParseMessageHead(p.message) == Some((IntegerShare(current, total), current, total, p.eta + " Elapsed: " + p.elapsed))
  {
    PercentIsIntegerShare(current, total, start, now, t, estimate, rate, format);
    var p := Derive(current, total, start, now, t, estimate, rate, format);
    MessageHeadRoundTrip(IntegerShare(current, total), current, total, p.eta, p.elapsed);
  }

  lemma DeriveMessage(current: nat, total: nat, start: int, now: int, t: int,
                      estimate: Num, rate: Num, format: real -> string)
    requires current < total
    ensures var p := Derive(current, total, start, now, t, estimate, rate, format);
      p.message == Message(p.percent, current, total, p.eta, p.elapsed)
  {
  }

  /** Step 3 of 10: the status line is `30% [3/10] ETA: <eta> Elapsed: <elapsed>`. */
  lemma StepThreeOfTen(start: int, now: int, t: int, estimate: Num, rate: Num, format: real -> string)
    ensures var p := Derive(3, 10, start, now, t, estimate, rate, format);
      p.percent == "30%" && p.message == "30% [3/10] ETA: " + p.eta + " Elapsed: " + p.elapsed
  {
    PercentIsIntegerShare(3, 10, start, now, t, estimate, rate, format);
    DeriveMessage(3, 10, start, now, t, estimate, rate, format);
    var p := Derive(3, 10, start, now, t, estimate, rate, format);
    StepThreeOfTenText(p.eta, p.elapsed);
  }

  lemma StepThreeOfTenText(eta: string, elapsed: string)
    ensures NatToString(IntegerShare(3, 10)) + "%" == "30%"
    ensures Message("30%", 3, 10, eta, elapsed) == "30% [3/10] ETA: " + eta + " Elapsed: " + elapsed
  {
    assert IntegerShare(3, 10) == 30;
    assert NatToString(30) == NatToString(3) + "0" == "30";
    assert NatToString(10) == "10";
  }

  /** The only step of a one-element traversal shows ratio 0 and `0%`. */
  lemma SingleStep(start: int, now: int, t: int, estimate: Num, rate: Num, format: real -> string)
    ensures var p := Derive(0, 1, start, now, t, estimate, rate, format);
      p.ratio == 0.0 && p.percent == "0%" && p.message == "0% [0/1] ETA: " + p.eta + " Elapsed: " + p.elapsed
  {
    PercentIsIntegerShare(0, 1, start, now, t, estimate, rate, format);
    DeriveShare(0, 1, start, now, t, estimate, rate, format);
    DeriveMessage(0, 1, start, now, t, estimate, rate, format);
    var p := Derive(0, 1, start, now, t, estimate, rate, format);
    SingleStepText(p.eta, p.elapsed);
  }

  lemma SingleStepText(eta: string, elapsed: string)
    ensures NatToString(IntegerShare(0, 1)) + "%" == "0%"
    ensures Message("0%", 0, 1, eta, elapsed) == "0% [0/1] ETA: " + eta + " Elapsed: " + elapsed
  {
    assert IntegerShare(0, 1) == 0;
    assert NatToString(0) == "0";
    assert NatToString(1) == "1";
  }


  // ----- the descriptor keys -----

  /** The keys a `for...in` loop visits on an array of length `n`: its indices as strings. */
  function IndexKeys(n: nat): (keys: set<string>)
  {
    set i | 0 <= i < n :: NatToString(i)
  }

  /** The `for...in` at index.js:41 visits `"0"` to `"7"`: one-character strings,
      so none is a key of the record, eager or lazy, nor `ratio`. */
  lemma {:induction false} IndexKeyIsNoRecordKey(key: string)
    requires key in IndexKeys(|LazyKeys|)
    ensures key !in LazyKeys && key !in EagerKeys && key != "ratio"
  {
    var i :| 0 <= i < |LazyKeys| && key == NatToString(i);
    assert |key| == 1;
  }

  /** Nor is any of them a key of the snapshot, so every descriptor value the
      loop builds is `undefined`. */
  lemma {:induction false} IndexKeyMissesSnapshot(p: Snapshot, key: string)
    requires key in IndexKeys(|LazyKeys|)
    ensures Lookup(p, key) == Undef
  {
    var i :| 0 <= i < |LazyKeys| && key == NatToString(i);
    assert |key| == 1;
  }
}
