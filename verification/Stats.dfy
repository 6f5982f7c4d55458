/** The CPU usage stream: cumulative counters in, percentages out. */
module Stats {
  import opened Tasks

  /** A reading of a container's counters, in nanoseconds of CPU time, at a time in nanoseconds. */
  datatype Metrics = Metrics(timestamp: int, usage: nat, user: nat, system: nat)

  datatype CpuUsage = CpuUsage(timestamp: int, percent: real, userMode: real, systemMode: real)

  datatype Counter = Total | User | System

  function Value(m: Metrics, c: Counter): nat {
    match c
    case Total => m.usage
    case User => m.user
    case System => m.system
  }

  function Share(u: CpuUsage, c: Counter): real {
    match c
    case Total => u.percent
    case User => u.userMode
    case System => u.systemMode
  }

  function Percent(previous: nat, current: nat, elapsed: real): real {
    if current <= previous || elapsed <= 0.0 then 0.0 else (current - previous) as real / elapsed * 100.0
  }

  function ResourceUsage(m: Metrics, previous: Option<Metrics>): CpuUsage {
    if previous.Some? && m.timestamp > previous.value.timestamp then
      var p := previous.value;
      var elapsed := (m.timestamp - p.timestamp) as real;
      CpuUsage(m.timestamp, Percent(p.usage, m.usage, elapsed), Percent(p.user, m.user, elapsed), Percent(p.system, m.system, elapsed))
    else CpuUsage(m.timestamp, 0.0, 0.0, 0.0)
  }

  /** The readings that succeeded. */
  function Samples(ticks: seq<Option<Metrics>>): seq<Metrics> {
    SamplesTo(ticks, |ticks|)
  }

  function SamplesTo(ticks: seq<Option<Metrics>>, n: nat): seq<Metrics>
    requires n <= |ticks|
  {
    if n == 0 then []
    else SamplesTo(ticks, n - 1) + if ticks[n - 1].Some? then [ticks[n - 1].value] else []
  }

  function Before(samples: seq<Metrics>, i: nat): Option<Metrics>
    requires i <= |samples|
  {
    if i == 0 then None else Some(samples[i - 1])
  }

  predicate UsageAt(samples: seq<Metrics>, out: seq<CpuUsage>, i: nat)
    requires i < |samples| == |out|
  {
    out[i] == ResourceUsage(samples[i], Before(samples, i))
  }

  /** One usage for each sample, taken against the sample before it. */
  predicate Streams(samples: seq<Metrics>, out: seq<CpuUsage>) {
    |out| == |samples| && forall i :: 0 <= i < |samples| ==> UsageAt(samples, out, i)
  }

  lemma UsageStays(samples: seq<Metrics>, out: seq<CpuUsage>, m: Metrics, u: CpuUsage, i: nat)
    requires i < |samples| == |out| && UsageAt(samples, out, i)
    ensures UsageAt(samples + [m], out + [u], i)
  {
    assert Before(samples + [m], i) == Before(samples, i);
  }

  lemma StreamsOn(samples: seq<Metrics>, out: seq<CpuUsage>, m: Metrics)
    requires Streams(samples, out)
    ensures Streams(samples + [m], out + [ResourceUsage(m, Before(samples, |samples|))])
  {
    var u := ResourceUsage(m, Before(samples, |samples|));
    forall i | 0 <= i < |samples|
      ensures UsageAt(samples + [m], out + [u], i)
    {
      UsageStays(samples, out, m, u, i);
    }
    assert Before(samples + [m], |samples|) == Before(samples, |samples|);
  }

  datatype StatsError = BadInterval | NoSuchTask

  /** The stream up to any tick: a failed reading sends nothing and is not remembered. */
  method TaskStats(interval: int, known: bool, ticks: seq<Option<Metrics>>)
    returns (err: Option<StatsError>, out: seq<CpuUsage>)
    ensures err == if interval <= 0 then Some(BadInterval) else if !known then Some(NoSuchTask) else None
    ensures if err.Some? then out == [] else Streams(Samples(ticks), out)
  {
    out := [];
    if interval <= 0 {
      return Some(BadInterval), out;
    }
    if !known {
      return Some(NoSuchTask), out;
    }
    err := None;
    var previous: Option<Metrics> := None;
    for i := 0 to |ticks|
      invariant Streams(SamplesTo(ticks, i), out)
      invariant previous == Before(SamplesTo(ticks, i), |out|)
    {
      if ticks[i].Some? {
        var metrics := ticks[i].value;
        StreamsOn(SamplesTo(ticks, i), out, metrics);
        out := out + [ResourceUsage(metrics, previous)];
        previous := Some(metrics);
      } else {
        assert SamplesTo(ticks, i + 1) == SamplesTo(ticks, i);
      }
    }
  }

  /** Every usage has the time of its sample. Its percentages are zero for the first sample and for one
      that is not later than the one before it; otherwise a percentage is zero exactly if its counter has
      not grown. */
  lemma UsageTimes(samples: seq<Metrics>, out: seq<CpuUsage>, i: nat, c: Counter)
    requires i < |samples| && Streams(samples, out)
    ensures out[i].timestamp == samples[i].timestamp
    ensures Share(out[i], c) == 0.0 <==>
            || i == 0 || samples[i].timestamp <= samples[i - 1].timestamp
            || Value(samples[i], c) <= Value(samples[i - 1], c)
  {
    assert UsageAt(samples, out, i);
    if i > 0 && samples[i].timestamp > samples[i - 1].timestamp {
      var p, m := samples[i - 1], samples[i];
      PercentBack(Value(p, c), Value(m, c), (m.timestamp - p.timestamp) as real);
    }
  }

  // ----- Conservation -----

  /** What a percentage accounts for: itself times the time since the sample before. */
  function Charge(u: CpuUsage, m: Metrics, p: Metrics, c: Counter): real {
    Share(u, c) * (m.timestamp - p.timestamp) as real / 100.0
  }

  /** The sum of the charges of the samples after the first, up to the `n`-th. */
  function Charged(samples: seq<Metrics>, out: seq<CpuUsage>, n: nat, c: Counter): real
    requires n < |samples| == |out|
  {
    if n == 0 then 0.0 else Charged(samples, out, n - 1, c) + Charge(out[n], samples[n], samples[n - 1], c)
  }

  function Gain(m: Metrics, p: Metrics, c: Counter): nat {
    if Value(m, c) <= Value(p, c) then 0 else Value(m, c) - Value(p, c)
  }

  /** How far a counter went back, over all neighbouring samples up to the `n`-th. */
  function Drops(samples: seq<Metrics>, n: nat, c: Counter): nat
    requires n < |samples|
  {
    if n == 0 then 0
    else
      var before, now := Value(samples[n - 1], c), Value(samples[n], c);
      Drops(samples, n - 1, c) + if now < before then before - now else 0
  }

  predicate Later(samples: seq<Metrics>) {
    forall i :: 0 < i < |samples| ==> samples[i - 1].timestamp < samples[i].timestamp
  }

  predicate NeverDrops(samples: seq<Metrics>, c: Counter) {
    forall i :: 0 < i < |samples| ==> Value(samples[i - 1], c) <= Value(samples[i], c)
  }

  lemma PercentBack(previous: nat, current: nat, elapsed: real)
    requires elapsed > 0.0
    ensures Percent(previous, current, elapsed) * elapsed / 100.0
            == if current <= previous then 0.0 else (current - previous) as real
  {
    if current > previous {
      var d := (current - previous) as real;
      assert d / elapsed * 100.0 * elapsed / 100.0 == d / elapsed * elapsed == d;
    }
  }

  lemma ChargeIsGain(m: Metrics, p: Metrics, c: Counter)
    requires p.timestamp < m.timestamp
    ensures Charge(ResourceUsage(m, Some(p)), m, p, c) == Gain(m, p, c) as real
  {
    PercentBack(Value(p, c), Value(m, c), (m.timestamp - p.timestamp) as real);
  }

  /** With later and later timestamps the stream accounts for what the counter gained, plus everything
      it went back by. */
  lemma {:induction false} AccountedFor(samples: seq<Metrics>, out: seq<CpuUsage>, n: nat, c: Counter)
    requires n < |samples| && Later(samples) && Streams(samples, out)
    ensures Charged(samples, out, n, c) == (Value(samples[n], c) - Value(samples[0], c) + Drops(samples, n, c)) as real
  {
    if n > 0 {
      AccountedFor(samples, out, n - 1, c);
      assert UsageAt(samples, out, n);
      ChargeIsGain(samples[n], samples[n - 1], c);
    }
  }

  lemma {:induction false} NoDrops(samples: seq<Metrics>, n: nat, c: Counter)
    requires n < |samples|
    ensures Drops(samples, n, c) == 0 <==> forall i :: 0 < i <= n ==> Value(samples[i - 1], c) <= Value(samples[i], c)
  {
    if n > 0 {
      NoDrops(samples, n - 1, c);
    }
  }

  /** Over the samples whose readings succeeded, the stream accounts for exactly the CPU time used
      between the first and the last if and only if the counter never went back. */
  lemma UsageConserved(samples: seq<Metrics>, out: seq<CpuUsage>, c: Counter)
    requires samples != [] && Later(samples) && Streams(samples, out)
    ensures var n := |samples| - 1;
            var used := (Value(samples[n], c) - Value(samples[0], c)) as real;
            Charged(samples, out, n, c) == used <==> NeverDrops(samples, c)
  {
    AccountedFor(samples, out, |samples| - 1, c);
    NoDrops(samples, |samples| - 1, c);
  }
}
