/** The tracked value of one container: its quota, mismatch counter, sequence number,
    throttle counter, the two statistics windows and its memory limit. */
module Containers {
  import opened Words
  import opened Windows
  import opened Sums

  const TWO32: int := 0x1_0000_0000
  const WINDOW_SIZE: nat := 10
  const IDLE_AFTER_US: int := 2_000_000

  /** A container is identified by its cgroup on a server; the docker id does not take part. */
  datatype ContainerId = ContainerId(cgroup: nat, server: nat)

  datatype Container = Container(
    fd: int,
    quota: Word,
    mismatches: nat,
    seqNum: Word,
    throttled: nat,
    lastSeen: int,
    rt: ValidWindow,
    th: ValidWindow,
    memLimit: nat,
    inserted: bool)  // its own admission found an agent

  function NewContainer(fd: int, quota: Word, throttled: nat, now: int, inserted: bool): Container {
    Container(fd, quota, 0, 0, throttled, now, NewWindow(WINDOW_SIZE), NewWindow(WINDOW_SIZE), 0, inserted)
  }

  predicate IsIdle(c: Container, now: int) {
    now - c.lastSeen > IDLE_AFTER_US
  }

  /** The growth of the 32-bit throttle counter. */
  function ThrottleIncrease(c: Container, throttled: nat): nat {
    (throttled - c.throttled) % TWO32
  }

  /** One usage sample enters both windows. */
  function Sample(c: Container, rtRemaining: nat, throttled: nat): Container {
    c.(rt := Insert(c.rt, rtRemaining as real),
       th := Insert(c.th, ThrottleIncrease(c, throttled) as real),
       throttled := throttled)
  }

  function FlushStats(c: Container): Container {
    c.(rt := Flush(c.rt), th := Flush(c.th))
  }

  function SetQuota(c: Container, quota: Word): Container {
    FlushStats(c).(quota := quota)
  }

  // ---------- the throttle window telescopes ----------

  datatype StatOp = Reading(rtRemaining: nat, throttled: nat) | Reset

  ghost function ReplayStats(c: Container, ops: seq<StatOp>): Container {
    if ops == [] then c else
      var before := ReplayStats(c, ops[..|ops| - 1]);
      match ops[|ops| - 1]
      case Reading(rt, th) => Sample(before, rt, th)
      case Reset => FlushStats(before)
  }

  /** The throttle counter at the start and after each reading. */
  ghost function Counters(start: nat, ops: seq<StatOp>): (cs: seq<nat>)
    ensures |cs| > 0
  {
    if ops == [] then [start] else
      var before := Counters(start, ops[..|ops| - 1]);
      match ops[|ops| - 1]
      case Reading(_, th) => before + [th]
      case Reset => before
  }

  /** How many readings came before the last flush. */
  ghost function LastReset(start: nat, ops: seq<StatOp>): nat {
    if ops == [] then 0 else
      match ops[|ops| - 1]
      case Reading(_, _) => LastReset(start, ops[..|ops| - 1])
      case Reset => |Counters(start, ops[..|ops| - 1])| - 1
  }

  ghost predicate Monotone32(cs: seq<nat>) {
    && (forall i :: 0 <= i < |cs| ==> cs[i] < TWO32)
    && (forall i, j :: 0 <= i <= j < |cs| ==> cs[i] <= cs[j])
  }

  /** The operations the throttle window sees. */
  ghost function ThrottleOps(start: nat, ops: seq<StatOp>): seq<WindowOp> {
    if ops == [] then [] else
      var init := ops[..|ops| - 1];
      var cs := Counters(start, init);
      match ops[|ops| - 1]
      case Reading(_, th) => ThrottleOps(start, init) + [Put((th - cs[|cs| - 1]) % TWO32)]
      case Reset => ThrottleOps(start, init) + [Clear]
  }

  /** What reading `i` adds to the window once everything before reading `f` is flushed. */
  ghost function Growth(cs: seq<nat>, f: nat, i: nat): int
    requires i + 1 < |cs|
  {
    if i < f then 0 else cs[i + 1] as int - cs[i] as int
  }

  ghost predicate AreGrowths(cs: seq<nat>, e: seq<nat>, f: nat) {
    && |cs| == |e| + 1 && f <= |e|
    && (forall i :: 0 <= i < |e| ==> e[i] == Growth(cs, f, i))
  }

  lemma {:induction false} ThrottleWindowReplays(c: Container, ops: seq<StatOp>)
    requires c.th == NewWindow(WINDOW_SIZE)
    ensures ReplayStats(c, ops).th == Replay(WINDOW_SIZE, ThrottleOps(c.throttled, ops))
    ensures var cs := Counters(c.throttled, ops); ReplayStats(c, ops).throttled == cs[|cs| - 1]
  {
    if ops != [] {
      var init := ops[..|ops| - 1];
      ThrottleWindowReplays(c, init);
      var before, tops := ReplayStats(c, init), ThrottleOps(c.throttled, ops);
      assert tops[..|tops| - 1] == ThrottleOps(c.throttled, init);
      match ops[|ops| - 1]
      case Reading(_, th) =>
        assert tops[|tops| - 1] == Put(ThrottleIncrease(before, th));
      case Reset =>
    }
  }

  lemma GrowthsExtend(cs: seq<nat>, e: seq<nat>, f: nat, th: nat)
    requires AreGrowths(cs, e, f)
    requires cs[|cs| - 1] <= th
    ensures AreGrowths(cs + [th], e + [th - cs[|cs| - 1]], f)
  {
    var cs', e' := cs + [th], e + [th - cs[|cs| - 1]];
    forall i | 0 <= i < |e'| ensures e'[i] == Growth(cs', f, i) {
      if i < |e| {
        assert Growth(cs', f, i) == Growth(cs, f, i);
      }
    }
  }

  /** The effective inputs of the throttle window are the counter's growths since the last flush. */
  lemma {:induction false} ThrottleInputs(start: nat, ops: seq<StatOp>)
    requires Monotone32(Counters(start, ops))
    ensures AreGrowths(Counters(start, ops), Inputs(ThrottleOps(start, ops)), LastReset(start, ops))
  {
    if ops != [] {
      var init := ops[..|ops| - 1];
      var cs, before := Counters(start, ops), Counters(start, init);
      assert before == cs[..|before|];
      assert Monotone32(before);
      ThrottleInputs(start, init);
      var tops := ThrottleOps(start, ops);
      assert tops[..|tops| - 1] == ThrottleOps(start, init);
      match ops[|ops| - 1]
      case Reading(_, th) =>
        var last := before[|before| - 1];
        assert cs[|before| - 1] <= cs[|before|] < TWO32;
        assert (th - last) % TWO32 == th - last;
        GrowthsExtend(before, Inputs(ThrottleOps(start, init)), LastReset(start, init), th);
      case Reset =>
    }
  }

  lemma {:induction false} Telescope(cs: seq<nat>, e: seq<nat>, f: nat, k: nat)
    requires AreGrowths(cs, e, f) && k <= |e|
    ensures SumNat(e[k..]) + cs[if k < f then f else k] == cs[|e|]
    decreases |e| - k
  {
    if k < |e| {
      Telescope(cs, e, f, k + 1);
      assert e[k..] == [e[k]] + e[k + 1..];
      assert e[k] == Growth(cs, f, k);
    }
  }

  /** What a window of ten covers is the growth since the later of ten readings ago and the last flush. */
  lemma CoveredGrowth(cs: seq<nat>, e: seq<nat>, f: nat)
    requires AreGrowths(cs, e, f)
    ensures var n := |cs| - 1;
            var from := if n - WINDOW_SIZE > f then n - WINDOW_SIZE else f;
            && f <= n
            && |Covered(WINDOW_SIZE, e)| == (if n < WINDOW_SIZE then n else WINDOW_SIZE)
            && SumNat(Covered(WINDOW_SIZE, e)) + cs[from] == cs[n]
  {
    hide SumNat;
    var k := if |e| <= WINDOW_SIZE then 0 else |e| - WINDOW_SIZE;
    assert Covered(WINDOW_SIZE, e) == e[k..];
    Telescope(cs, e, f, k);
  }

  /** The mean times the readings a window of ten covers is the counter's growth since the later of ten readings ago and
      reading `f`. */
  ghost predicate CoversGrowth(mean: real, cs: seq<nat>, f: nat) {
    var n := |cs| - 1;
    var from := if n - 10 > f then n - 10 else f;
    && f <= n && cs[from] <= cs[n]
    && Balances(mean, if n < 10 then n else 10, cs[n] - cs[from])
  }

  /** For every sequence of readings of a monotone counter and flushes, the throttle window's mean times
      the readings it covers is the counter's growth since the later of ten readings ago and the last flush. */
  lemma ThrottleTelescopes(fd: int, quota: Word, start: nat, now: int, inserted: bool, ops: seq<StatOp>)
    requires Monotone32(Counters(start, ops))
    ensures CoversGrowth(ReplayStats(NewContainer(fd, quota, start, now, inserted), ops).th.mean,
                         Counters(start, ops), LastReset(start, ops))
  {
    var tops := ThrottleOps(start, ops);
    var covered := Covered(WINDOW_SIZE, Inputs(tops));
    var w := ReplayStats(NewContainer(fd, quota, start, now, inserted), ops).th;
    assert Balances(w.mean, |covered|, SumNat(covered)) by {
      ThrottleWindowReplays(NewContainer(fd, quota, start, now, inserted), ops);
      WindowRefinesMean(WINDOW_SIZE, tops);
    }
    hide Balances, SumNat, Covered, ReplayStats, Counters, LastReset, Inputs, ThrottleOps, Monotone32, AreGrowths;
    ThrottleInputs(start, ops);
    CoveredGrowth(Counters(start, ops), Inputs(tops), LastReset(start, ops));
  }

  // ---------- the runtime window sums ----------

  /** The operations the runtime window sees. */
  ghost function RuntimeOps(ops: seq<StatOp>): seq<WindowOp> {
    if ops == [] then [] else
      match ops[|ops| - 1]
      case Reading(rt, _) => RuntimeOps(ops[..|ops| - 1]) + [Put(rt)]
      case Reset => RuntimeOps(ops[..|ops| - 1]) + [Clear]
  }

  /** The runtime left over at each reading. */
  ghost function LeftOver(ops: seq<StatOp>): seq<nat> {
    if ops == [] then [] else
      match ops[|ops| - 1]
      case Reading(rt, _) => LeftOver(ops[..|ops| - 1]) + [rt]
      case Reset => LeftOver(ops[..|ops| - 1])
  }

  /** How many readings came before the last flush. */
  ghost function FlushedReadings(ops: seq<StatOp>): nat {
    if ops == [] then 0 else
      match ops[|ops| - 1]
      case Reading(_, _) => FlushedReadings(ops[..|ops| - 1])
      case Reset => |LeftOver(ops)|
  }

  lemma {:induction false} RuntimeWindowReplays(c: Container, ops: seq<StatOp>)
    requires c.rt == NewWindow(WINDOW_SIZE)
    ensures ReplayStats(c, ops).rt == Replay(WINDOW_SIZE, RuntimeOps(ops))
  {
    if ops != [] {
      var init, rops := ops[..|ops| - 1], RuntimeOps(ops);
      RuntimeWindowReplays(c, init);
      assert rops[..|rops| - 1] == RuntimeOps(init);
      hide Insert, Flush;
    }
  }

  /** The inputs of the runtime window are the readings, those before the last flush as 0. */
  lemma {:induction false} RuntimeInputs(ops: seq<StatOp>)
    ensures FlushedReadings(ops) <= |LeftOver(ops)|
    ensures Inputs(RuntimeOps(ops)) == seq(FlushedReadings(ops), _ => 0) + LeftOver(ops)[FlushedReadings(ops)..]
  {
    if ops != [] {
      var init, rops := ops[..|ops| - 1], RuntimeOps(ops);
      RuntimeInputs(init);
      assert rops[..|rops| - 1] == RuntimeOps(init);
    }
  }

  /** The mean times the readings a window of ten covers is the sum of the readings since the later of ten readings ago and
      reading `f`. */
  ghost predicate CoversSum(mean: real, rs: seq<nat>, f: nat) {
    var n := |rs|;
    var from := if n - 10 > f then n - 10 else f;
    f <= n && Balances(mean, if n < 10 then n else 10, SumNat(rs[from..]))
  }

  lemma CoveredReadings(rs: seq<nat>, inputs: seq<nat>, f: nat)
    requires f <= |rs| && inputs == seq(f, _ => 0) + rs[f..]
    ensures var n := |rs|;
            var from := if n - 10 > f then n - 10 else f;
            && |Covered(WINDOW_SIZE, inputs)| == (if n < 10 then n else 10)
            && SumNat(Covered(WINDOW_SIZE, inputs)) == SumNat(rs[from..])
  {
    var n := |rs|;
    var k := if n <= 10 then 0 else n - 10;
    assert Covered(WINDOW_SIZE, inputs) == inputs[k..];
    if k >= f {
      assert inputs[k..] == rs[k..];
    } else {
      assert inputs[k..] == seq(f - k, _ => 0) + rs[f..];
      SumSeqConcat(seq(f - k, _ => 0), rs[f..], Identity);
      SumZeros(f - k);
    }
  }

  /** For every sequence of readings and flushes, the runtime window's mean times the readings it covers is the sum of the
      runtime left over at the readings since the later of ten readings ago and the last flush. */
  lemma RuntimeSums(c: Container, ops: seq<StatOp>)
    requires c.rt == NewWindow(WINDOW_SIZE)
    ensures CoversSum(ReplayStats(c, ops).rt.mean, LeftOver(ops), FlushedReadings(ops))
  {
    hide ReplayStats, Replay, RuntimeOps, Inputs, LeftOver, FlushedReadings, SumNat, Covered, SumReal, RingHolds;
    RuntimeWindowReplays(c, ops);
    WindowRefinesMean(WINDOW_SIZE, RuntimeOps(ops));
    RuntimeInputs(ops);
    CoveredReadings(LeftOver(ops), Inputs(RuntimeOps(ops)), FlushedReadings(ops));
    hide Balances;
  }
}
