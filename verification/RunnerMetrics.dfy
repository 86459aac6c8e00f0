/** The throughput sampler and the run lock of the scenario runner, app.py. */
module RunnerMetrics {
  import opened Text

  // ---- Throughput ----

  /** The interface counters at one moment of the monotonic clock. */
  datatype Reading = Reading(now: real, rx: nat, tx: nat) {
    function Bytes(down: bool): nat {
      if down then rx else tx
    }
  }

  /** Bits per second between two readings; none before the first one, or when no time passed. */
  function Rate(last: Reading, r: Reading, down: bool): real {
    if last.now != 0.0 && r.now > last.now then
      var bps := (r.Bytes(down) - last.Bytes(down)) as real * 8.0 / (r.now - last.now);
      if bps < 0.0 then 0.0 else bps
    else 0.0
  }

  /** Rate times time, for each sample after the first. */
  function Parts(rs: seq<Reading>, down: bool): seq<real> {
    seq(if rs == [] then 0 else |rs| - 1, i requires 0 <= i < |rs| - 1 =>
      Rate(rs[i], rs[i + 1], down) * (rs[i + 1].now - rs[i].now))
  }

  function Total(parts: seq<real>): real {
    if parts == [] then 0.0 else Total(parts[..|parts| - 1]) + parts[|parts| - 1]
  }

  predicate Sampled(rs: seq<Reading>) {
    (forall i :: 0 <= i < |rs| ==> rs[i].now > 0.0) && forall i, j :: 0 <= i < j < |rs| ==> rs[i].now < rs[j].now
  }

  predicate Grows(counts: seq<int>) {
    forall i :: 0 < i < |counts| ==> counts[i - 1] <= counts[i]
  }

  function Counts(rs: seq<Reading>, down: bool): seq<int> {
    seq(|rs|, i requires 0 <= i < |rs| => rs[i].Bytes(down))
  }

  lemma QuotientTimes(a: real, b: real)
    requires b > 0.0
    ensures a / b * b == a && (a / b < 0.0 <==> a < 0.0)
  {
  }

  lemma RateTimesTime(last: Reading, r: Reading, down: bool)
    requires 0.0 < last.now < r.now
    ensures var grown := r.Bytes(down) - last.Bytes(down);
      Rate(last, r, down) * (r.now - last.now) == if grown < 0 then 0.0 else 8.0 * grown as real
  {
    QuotientTimes((r.Bytes(down) - last.Bytes(down)) as real * 8.0, r.now - last.now);
  }

  lemma PartIsGrowth(rs: seq<Reading>, i: nat, down: bool)
    requires Sampled(rs) && i < |rs| - 1
    ensures var grown := Counts(rs, down)[i + 1] - Counts(rs, down)[i];
      Parts(rs, down)[i] == if grown < 0 then 0.0 else 8.0 * grown as real
  {
    RateTimesTime(rs[i], rs[i + 1], down);
  }

  lemma {:induction false} TotalIsGrowth(parts: seq<real>, counts: seq<int>)
    requires |counts| == |parts| + 1
    requires forall i :: 0 <= i < |parts| ==>
      parts[i] == if counts[i + 1] < counts[i] then 0.0 else 8.0 * (counts[i + 1] - counts[i]) as real
    ensures Total(parts) >= 8.0 * (counts[|parts|] - counts[0]) as real
    ensures Total(parts) == 8.0 * (counts[|parts|] - counts[0]) as real <==> Grows(counts)
  {
    if parts != [] {
      var n := |parts|;
      TotalIsGrowth(parts[..n - 1], counts[..n]);
      assert Grows(counts) <==> Grows(counts[..n]) && counts[n - 1] <= counts[n] by {
        assert forall i :: 0 <= i < n ==> counts[..n][i] == counts[i];
      }
    }
  }

  /** Over samples of one interface with an increasing clock, rate times time sums to eight times the growth since the
      first sample exactly when the counter never went back, and to more otherwise. */
  lemma CarriedIsGrowth(rs: seq<Reading>, down: bool)
    requires rs != [] && Sampled(rs)
    ensures var growth := 8.0 * (rs[|rs| - 1].Bytes(down) - rs[0].Bytes(down)) as real;
      Total(Parts(rs, down)) >= growth && (Total(Parts(rs, down)) == growth <==> Grows(Counts(rs, down)))
  {
    var counts := Counts(rs, down);
    forall i | 0 <= i < |rs| - 1
      ensures Parts(rs, down)[i] == if counts[i + 1] < counts[i] then 0.0 else 8.0 * (counts[i + 1] - counts[i]) as real
    {
      PartIsGrowth(rs, i, down);
    }
    TotalIsGrowth(Parts(rs, down), Counts(rs, down));
  }

  /** The sample kept between requests. */
  class Sampler {
    var checked: real
    var rx: nat
    var tx: nat

    constructor ()
      ensures Last() == Reading(0.0, 0, 0)
    {
      checked, rx, tx := 0.0, 0, 0;
    }

    function Last(): Reading
      reads this
    {
      Reading(checked, rx, tx)
    }

    /** Reports the rates since the last sample; nothing is sampled when the counters cannot be read. */
    method Throughput(reading: Option<Reading>) returns (rxBps: real, txBps: real)
      modifies this
      ensures reading.None? ==> Last() == old(Last()) && rxBps == txBps == 0.0
      ensures reading.Some? ==> Last() == reading.value
      ensures reading.Some? ==> rxBps == Rate(old(Last()), reading.value, true)
      ensures reading.Some? ==> txBps == Rate(old(Last()), reading.value, false)
    {
      rxBps, txBps := 0.0, 0.0;
      if reading.None? { return; }
      var r := reading.value;
      var elapsed := r.now - checked;
      if checked != 0.0 && elapsed > 0.0 {
        rxBps := (r.rx - rx) as real * 8.0 / elapsed;
        txBps := (r.tx - tx) as real * 8.0 / elapsed;
        if rxBps < 0.0 { rxBps := 0.0; }
        if txBps < 0.0 { txBps := 0.0; }
      }
      checked, rx, tx := r.now, r.rx, r.tx;
    }
  }

  /** Factor of the i-th unit: bps, Kbps, Mbps, Gbps, Tbps. */
  function Scale(unit: nat): (s: real)
    ensures s >= 1.0
  {
    if unit == 0 then 1.0 else 1000.0 * Scale(unit - 1)
  }

  /** The value is below a thousand unless the largest unit is used, and at least one unless the smallest is. */
  predicate Scaled(bps: real, value: real, unit: nat) {
    && unit <= 4 && value * Scale(unit) == bps && 0.0 <= value
    && (unit < 4 ==> value < 1000.0) && (unit > 0 ==> value >= 1.0)
  }

  method FormatBitrate(bps: real) returns (value: real, unit: nat, precision: nat)
    ensures Scaled(if bps < 0.0 then 0.0 else bps, value, unit)
    ensures precision == if value >= 100.0 then 0 else if value >= 10.0 then 1 else 2
  {
    value, unit := if bps < 0.0 then 0.0 else bps, 0;
    while !(value < 1000.0 || unit == 4)
      invariant unit <= 4 && value * Scale(unit) == (if bps < 0.0 then 0.0 else bps) && 0.0 <= value
      invariant unit > 0 ==> value >= 1.0
      decreases 4 - unit
    {
      assert value / 1000.0 * Scale(unit + 1) == value * Scale(unit);
      value, unit := value / 1000.0, unit + 1;
    }
    precision := if value >= 100.0 then 0 else if value >= 10.0 then 1 else 2;
  }

  lemma {:induction false} ScaleSteps(low: nat, high: nat)
    requires low < high
    ensures Scale(high) >= 1000.0 * Scale(low)
  {
    if low + 1 < high { ScaleSteps(low, high - 1); }
  }

  lemma SmallerUnitIsLess(a: real, b: real, low: nat, high: nat)
    requires low < high && 0.0 <= a < 1000.0 && 1.0 <= b
    ensures a * Scale(low) < b * Scale(high)
  {
    var s, t := Scale(low), Scale(high);
    ScaleSteps(low, high);
    assert a * s < 1000.0 * s;
    assert t <= b * t;
  }

  /** A rate has one reading: the unit and the value shown are determined by it. */
  lemma ScaledIsUnique(bps: real, v: real, i: nat, w: real, j: nat)
    requires Scaled(bps, v, i) && Scaled(bps, w, j)
    ensures v == w && i == j
  {
    if i < j {
      SmallerUnitIsLess(v, w, i, j);
    } else if j < i {
      SmallerUnitIsLess(w, v, j, i);
    } else {
      assert (v - w) * Scale(i) == 0.0;
    }
  }

  // ---- The run lock ----

  type Thread = nat

  /** The shared state, and for each thread between taking and releasing the lock, the chunks of its download. */
  datatype Runner = Runner(running: bool, progress: Option<nat>, inside: map<Thread, seq<nat>>) {

    predicate Possible(e: Event) {
      match e
      case Request(t) => t !in inside
      case Download(t) => t in inside
      case Chunk(t, n) => t in inside && n > 0
      case Finish(t) => t in inside
    }

    /** Each step holds the state lock throughout or touches nothing shared. A request that finds a scenario running
        is refused. */
    function Step(e: Event): Runner
      requires Possible(e)
    {
      match e
      case Request(t) => if running then this else Runner(true, None, inside[t := []])
      case Download(t) => this.(inside := inside[t := []])
      case Chunk(t, n) => this.(inside := inside[t := inside[t] + [n]], progress := Some(Sum(inside[t] + [n])))
      case Finish(t) => Runner(false, None, inside - {t})
    }

    /** At most one thread is inside, the state says so, and progress is that of its download, if it has data. */
    ghost predicate Inv() {
      && (forall a: Thread, b: Thread :: a in inside && b in inside ==> a == b)
      && (running <==> exists t: Thread :: t in inside)
      && (progress.Some? ==> running)
      && (forall t: Thread :: t in inside && inside[t] != [] ==> progress == Some(Sum(inside[t])))
    }

    lemma StepInv(e: Event)
      requires Inv() && Possible(e)
      ensures Step(e).Inv()
    {
      var next := Step(e);
      match e
      case Request(t) => assert !running ==> t in next.inside;
      case Download(t) => assert t in next.inside;
      case Chunk(t, n) => assert t in next.inside;
      case Finish(t) => assert next.inside == map[];
    }
  }

  datatype Event = Request(thread: Thread) | Download(thread: Thread) | Chunk(thread: Thread, size: nat)
                 | Finish(thread: Thread)

  function Sum(xs: seq<nat>): nat {
    if xs == [] then 0 else Sum(xs[..|xs| - 1]) + xs[|xs| - 1]
  }

  /** A request that finds no scenario running is let in and shows no progress yet; the end of a scenario lets the next
      one in. */
  lemma RunsEndAndBegin(s: Runner, t: Thread)
    requires s.Inv()
    ensures !s.running && t !in s.inside ==> s.Step(Request(t)) == Runner(true, None, map[t := []])
    ensures s.running && t !in s.inside ==> s.Step(Request(t)) == s
    ensures t in s.inside ==> s.Step(Finish(t)) == Runner(false, None, map[])
  {
    if !s.running { assert s.inside.Keys == {}; }
    if t in s.inside { assert s.inside.Keys == {t}; }
  }

  /** No rate is shown before the first sample, without time passing, or when the counter went back. */
  lemma RateIsZero(last: Reading, r: Reading, down: bool)
    ensures last.now == 0.0 || r.now <= last.now || r.Bytes(down) < last.Bytes(down) ==> Rate(last, r, down) == 0.0
  {
    if r.now > last.now {
      QuotientTimes((r.Bytes(down) - last.Bytes(down)) as real * 8.0, r.now - last.now);
    }
  }

  const IDLE := Runner(false, None, map[])

  predicate Runs(s: Runner, run: seq<Event>)
    decreases |run|
  {
    run == [] || (s.Possible(run[0]) && Runs(s.Step(run[0]), run[1..]))
  }

  function End(s: Runner, run: seq<Event>): Runner
    requires Runs(s, run)
    decreases |run|
  {
    if run == [] then s else End(s.Step(run[0]), run[1..])
  }

  lemma {:induction false} RunInv(s: Runner, run: seq<Event>)
    requires s.Inv() && Runs(s, run)
    ensures End(s, run).Inv()
    decreases |run|
  {
    if run != [] {
      s.StepInv(run[0]);
      RunInv(s.Step(run[0]), run[1..]);
    }
  }

  /** However requests and downloads interleave, at most one scenario runs, a further request is refused exactly while
      one does, and progress exists only while one runs, where it is what the download has received. */
  lemma OneScenarioRuns(run: seq<Event>, a: Thread, b: Thread)
    requires Runs(IDLE, run)
    ensures var s := End(IDLE, run);
      && (a in s.inside && b in s.inside ==> a == b)
      && (a !in s.inside ==> (a in s.Step(Request(a)).inside <==> s.inside == map[]))
      && (s.inside == map[] ==> s.progress == None)
      && (a in s.inside && s.inside[a] != [] ==> s.progress == Some(Sum(s.inside[a])))
  {
    RunInv(IDLE, run);
    var s := End(IDLE, run);
    if s.running {
      var t: Thread :| t in s.inside;
    } else {
      assert s.inside.Keys == {};
    }
  }

  /** The shared state as do_POST and download_test update it. */
  class RunLock {
    var running: bool
    var progress: Option<nat>

    constructor ()
      ensures !running && progress == None
    {
      running, progress := false, None;
    }

    /** The beginning of do_POST, under the lock; false is answer 409. */
    method Enter() returns (admitted: bool)
      modifies this
      ensures running && admitted == !old(running)
      ensures progress == if admitted then None else old(progress)
    {
      if running { return false; }
      running, progress := true, None;
      admitted := true;
    }

    /** The loop of download_test; empty chunks are skipped. */
    method Download(chunks: seq<nat>) returns (total: nat)
      modifies `progress
      ensures total == Sum(chunks)
      ensures progress == if total == 0 then old(progress) else Some(total)
    {
      total := 0;
      for i := 0 to |chunks|
        invariant total == Sum(chunks[..i])
        invariant progress == if total == 0 then old(progress) else Some(total)
      {
        assert chunks[..i + 1][..i] == chunks[..i];
        if chunks[i] != 0 {
          total := total + chunks[i];
          progress := Some(total);
        }
      }
      assert chunks[..|chunks|] == chunks;
    }

    /** The end of do_POST, whatever happened before. */
    method Leave()
      modifies this
      ensures !running && progress == None
    {
      running, progress := false, None;
    }
  }
}
