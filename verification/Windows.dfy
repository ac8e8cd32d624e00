/** The sliding window of statistics: a ring buffer with an incrementally updated mean. */
module Windows {
  import opened Sums

  const CUTOFF: real := 0.001

  /** The value of a window. `periods` starts at 1 and counts the inserts of its whole lifetime. */
  datatype WindowState = WindowState(slots: seq<real>, mean: real, periods: nat) {
    ghost predicate Valid() {
      |slots| > 0 && periods > 0
    }
  }

  type ValidWindow = w: WindowState | w.Valid() witness WindowState([0.0], 0.0, 1)

  function NewWindow(winsize: nat): (w: ValidWindow)
    requires winsize > 0
  {
    WindowState(seq(winsize, _ => 0.0), 0.0, 1)
  }

  /** The incremental mean: a running mean while the window fills, a correction once it slides. */
  function StepMean(periods: nat, winsize: nat, mean: real, x: real, popped: real): real
    requires periods > 0 && winsize > 0
  {
    if periods <= winsize then
      ((periods - 1) as real * mean + x) / periods as real
    else
      mean + (x - popped) / winsize as real
  }

  function NewMean(w: ValidWindow, x: real): real {
    StepMean(w.periods, |w.slots|, w.mean, x, w.slots[w.periods % |w.slots|])
  }

  function Insert(w: ValidWindow, x: real): (r: ValidWindow)
    ensures |r.slots| == |w.slots|
  {
    var mean := NewMean(w, x);
    WindowState(w.slots[w.periods % |w.slots| := x], if mean < CUTOFF then 0.0 else mean, w.periods + 1)
  }

  function Flush(w: ValidWindow): (r: ValidWindow)
    ensures |r.slots| == |w.slots|
  {
    WindowState(seq(|w.slots|, _ => 0.0), 0.0, w.periods)
  }

  /** The ring buffer itself. */
  class Window {
    const winsize: nat
    const winstat: array<real>
    var mean: real
    var periodsElapsed: nat
    var popped: real

    ghost predicate Valid()
      reads this
    {
      winsize > 0 && winstat.Length == winsize && periodsElapsed > 0
    }

    ghost function View(): (w: ValidWindow)
      requires Valid()
      reads this, winstat
    {
      WindowState(winstat[..], mean, periodsElapsed)
    }

    constructor (size: nat)
      requires size > 0
      ensures Valid() && fresh(winstat)
      ensures View() == NewWindow(size)
    {
      winsize := size;
      winstat := new real[size](_ => 0.0);
      mean, popped, periodsElapsed := 0.0, 0.0, 1;
      new;
      assert winstat[..] == seq(size, _ => 0.0);
    }

    method InsertElement(element: real) returns (m: real)
      requires Valid()
      modifies this, winstat
      ensures Valid()
      ensures View() == Insert(old(View()), element)
      ensures m == mean
    {
      popped := winstat[periodsElapsed % winsize];
      winstat[periodsElapsed % winsize] := element;
      m := UpdateStats(element);
    }

    method UpdateStats(element: real) returns (m: real)
      requires Valid()
      modifies this
      ensures Valid()
      ensures m == mean && periodsElapsed == old(periodsElapsed) + 1
      ensures var next := StepMean(old(periodsElapsed), winsize, old(mean), element, old(popped));
              mean == if next < CUTOFF then 0.0 else next
    {
      if periodsElapsed <= winsize {
        mean := ((periodsElapsed - 1) as real * mean + element) / periodsElapsed as real;
      } else {
        mean := mean + (element - popped) / winsize as real;
      }
      periodsElapsed := periodsElapsed + 1;
      if mean < CUTOFF {
        mean := 0.0;
      }
      m := mean;
    }

    method FlushAll()
      requires Valid()
      modifies this, winstat
      ensures Valid()
      ensures View() == Flush(old(View()))
    {
      for i := 0 to winstat.Length
        invariant Valid() && periodsElapsed == old(periodsElapsed)
        invariant forall j :: 0 <= j < i ==> winstat[j] == 0.0
      {
        winstat[i] := 0.0;
      }
      mean, popped := 0.0, 0.0;
      assert winstat[..] == seq(winsize, _ => 0.0);
    }
  }

  // ---------- what a window means ----------

  datatype WindowOp = Put(x: nat) | Clear

  ghost function Replay(winsize: nat, ops: seq<WindowOp>): (w: ValidWindow)
    requires winsize > 0
    ensures |w.slots| == winsize
  {
    if ops == [] then NewWindow(winsize) else
      var w := Replay(winsize, ops[..|ops| - 1]);
      match ops[|ops| - 1]
      case Put(x) => Insert(w, x as real)
      case Clear => Flush(w)
  }

  /** All inputs so far, with those before the last flush replaced by 0. */
  ghost function Inputs(ops: seq<WindowOp>): seq<nat> {
    if ops == [] then [] else
      var before := Inputs(ops[..|ops| - 1]);
      match ops[|ops| - 1]
      case Put(x) => before + [x]
      case Clear => seq(|before|, _ => 0)
  }

  function Identity(x: nat): nat { x }

  ghost function SumNat(s: seq<nat>): nat { SumSeq(s, Identity) }

  /** The inputs a window of size `winsize` still covers. */
  ghost function Covered(winsize: nat, inputs: seq<nat>): seq<nat> {
    if |inputs| <= winsize then inputs else inputs[|inputs| - winsize..]
  }

  /** The input that slot `j` holds after `inputs`: the last one written there, or 0. */
  ghost function SlotInput(winsize: nat, inputs: seq<nat>, j: nat): nat
    requires j < winsize
  {
    var n := |inputs|;
    var i := n - (n - j) % winsize;
    if i >= 1 then inputs[i - 1] else 0
  }

  ghost predicate RingHolds(w: WindowState, inputs: seq<nat>) {
    && w.periods == |inputs| + 1
    && forall j :: 0 <= j < |w.slots| ==> w.slots[j] == SlotInput(|w.slots|, inputs, j) as real
  }

  ghost predicate MeanExact(w: WindowState, inputs: seq<nat>) {
    IsMeanOf(w.mean, Covered(|w.slots|, inputs))
  }

  ghost predicate IsMeanOf(mean: real, s: seq<nat>) {
    Balances(mean, |s|, SumNat(s))
  }

  ghost predicate Balances(mean: real, count: nat, sum: nat) {
    mean * count as real == sum as real
  }

  /** Advancing the count by one moves every slot but one a step further from the head. */
  lemma ModStep(n: nat, j: nat, winsize: nat)
    requires j < winsize
    ensures j == (n + 1) % winsize ==> (n + 1 - j) % winsize == 0 && (n - j) % winsize == winsize - 1
    ensures j != (n + 1) % winsize ==> (n + 1 - j) % winsize == (n - j) % winsize + 1
  {
    var q, r := (n - j) / winsize, (n - j) % winsize;
    assert n - j == q * winsize + r;
    if r == winsize - 1 {
      assert n + 1 - j == (q + 1) * winsize;
      ModIs(n + 1 - j, q + 1, 0, winsize);
      ModIs(n + 1, q + 1, j, winsize);
    } else {
      ModIs(n + 1 - j, q, r + 1, winsize);
      if j == (n + 1) % winsize {
        var p := (n + 1) / winsize;
        assert n + 1 - j == p * winsize;
        ModIs(n + 1 - j, p, 0, winsize);
      }
    }
  }

  lemma ModIs(x: int, q: int, r: nat, winsize: nat)
    requires r < winsize && x == q * winsize + r
    ensures x % winsize == r
  {
    var q', r' := x / winsize, x % winsize;
    Distribute(q, q', winsize);
    if q > q' {
      AtLeastOnce(q - q', winsize);
    } else if q < q' {
      AtLeastOnce(q' - q, winsize);
    }
  }

  lemma Distribute(a: int, b: int, c: int)
    ensures (a - b) * c == a * c - b * c && (b - a) * c == b * c - a * c
  {
  }

  lemma AtLeastOnce(k: int, c: nat)
    requires k >= 1
    ensures k * c >= c
  {
  }

  lemma Quotient(a: real, b: real)
    requires b != 0.0
    ensures a / b * b == a && a * b / b == a
  {
  }

  lemma QuotientSum(a: real, b: real, c: real)
    requires c != 0.0
    ensures (a + b / c) * c == a * c + b
  {
    Quotient(b, c);
  }

  lemma PutKeepsRing(w: ValidWindow, inputs: seq<nat>, x: nat)
    requires RingHolds(w, inputs)
    ensures RingHolds(Insert(w, x as real), inputs + [x])
  {
    var n, size := |inputs|, |w.slots|;
    forall j | 0 <= j < size
      ensures Insert(w, x as real).slots[j] == SlotInput(size, inputs + [x], j) as real
    {
      ModStep(n, j, size);
    }
  }

  lemma {:induction false} SumZeros(n: nat)
    ensures SumNat(seq(n, _ => 0)) == 0
  {
    if n > 0 {
      assert seq(n, _ => 0)[1..] == seq(n - 1, _ => 0);
      SumZeros(n - 1);
    }
  }

  /** Sliding the covered window by one input. */
  lemma CoveredSlides(winsize: nat, inputs: seq<nat>, x: nat)
    requires winsize > 0
    ensures |inputs| < winsize ==> SumNat(Covered(winsize, inputs + [x])) == SumNat(Covered(winsize, inputs)) + x
    ensures |inputs| >= winsize ==>
      SumNat(Covered(winsize, inputs + [x])) == SumNat(Covered(winsize, inputs)) + x - inputs[|inputs| - winsize]
  {
    var c := Covered(winsize, inputs);
    if |inputs| < winsize {
      SumSeqConcat(c, [x], Identity);
    } else {
      assert Covered(winsize, inputs + [x]) == c[1..] + [x];
      SumSeqConcat(c[1..], [x], Identity);
    }
  }

  lemma FillMean(mean: real, n: nat, sum: nat, x: nat, popped: real, size: nat)
    requires n < size && Balances(mean, n, sum)
    ensures Balances(StepMean(n + 1, size, mean, x as real, popped), n + 1, sum + x)
  {
    Quotient(n as real * mean + x as real, (n + 1) as real);
  }

  lemma SlideMean(mean: real, n: nat, size: nat, sum: nat, x: nat, out: nat)
    requires 0 < size <= n && out <= sum + x && Balances(mean, size, sum)
    ensures Balances(StepMean(n + 1, size, mean, x as real, out as real), size, sum + x - out)
  {
    QuotientSum(mean, x as real - out as real, size as real);
  }

  /** One insert keeps the mean exact, unless the cutoff erases a positive mean. */
  lemma PutKeepsMean(w: ValidWindow, inputs: seq<nat>, x: nat)
    requires RingHolds(w, inputs) && MeanExact(w, inputs)
    ensures IsMeanOf(NewMean(w, x as real), Covered(|w.slots|, inputs + [x]))
  {
    var n, size := |inputs|, |w.slots|;
    var sum := SumNat(Covered(size, inputs));
    CoveredSlides(size, inputs, x);
    if n < size {
      FillMean(w.mean, n, sum, x, w.slots[w.periods % size], size);
    } else {
      ModStep(n, (n + 1) % size, size);
      SlideMean(w.mean, n, size, sum, x, inputs[n - size]);
    }
  }

  lemma Monotone(a: real, b: real, c: real)
    requires a < b && c > 0.0
    ensures a * c < b * c
  {
  }

  lemma BelowOne(a: real, c: real)
    requires a < CUTOFF && 0.0 < c <= 1000.0
    ensures a * c < 1.0
  {
    Monotone(a, 0.001, c);
  }

  lemma ZeroProduct(a: real, c: real)
    requires a * c == 0.0 && c > 0.0
    ensures a == 0.0
  {
  }

  /** A sum of at most 1000 counts has a mean of 0 or of at least the cutoff. */
  lemma CutoffSpares(mean: real, count: nat, sum: nat)
    requires Balances(mean, count, sum)
    requires 0 < count <= 1000
    ensures mean < CUTOFF ==> mean == 0.0
  {
    if mean < CUTOFF {
      var c := count as real;
      BelowOne(mean, c);
      assert sum as real == mean * c;
      assert sum == 0;
      ZeroProduct(mean, c);
    }
  }

  lemma AfterCutoff(r: WindowState, mean: real, inputs: seq<nat>)
    requires inputs != [] && 0 < |r.slots| <= 1000
    requires IsMeanOf(mean, Covered(|r.slots|, inputs))
    requires r.mean == if mean < CUTOFF then 0.0 else mean
    ensures MeanExact(r, inputs)
  {
    var covered := Covered(|r.slots|, inputs);
    CutoffSpares(mean, |covered|, SumNat(covered));
    assert r.mean == mean;
  }

  lemma PutKeepsExact(w: ValidWindow, inputs: seq<nat>, x: nat)
    requires |w.slots| <= 1000
    requires RingHolds(w, inputs) && MeanExact(w, inputs)
    ensures MeanExact(Insert(w, x as real), inputs + [x])
  {
    PutKeepsMean(w, inputs, x);
    AfterCutoff(Insert(w, x as real), NewMean(w, x as real), inputs + [x]);
  }

  lemma ClearKeepsExact(w: ValidWindow, inputs: seq<nat>)
    requires RingHolds(w, inputs)
    ensures var zeros := seq(|inputs|, _ => 0);
            RingHolds(Flush(w), zeros) && MeanExact(Flush(w), zeros)
  {
    var zeros := seq(|inputs|, _ => 0);
    var k := |Covered(|w.slots|, zeros)|;
    assert Covered(|w.slots|, zeros) == seq(k, _ => 0);
    SumZeros(k);
  }

  // ---------- the slots add up ----------

  ghost function SumReal(s: seq<real>): real {
    if s == [] then 0.0 else s[0] + SumReal(s[1..])
  }

  ghost predicate SlotsSum(w: WindowState, inputs: seq<nat>) {
    SumReal(w.slots) == SumNat(Covered(|w.slots|, inputs)) as real
  }

  lemma {:induction false} SumRealUpdate(s: seq<real>, i: nat, x: real)
    requires i < |s|
    ensures SumReal(s[i := x]) == SumReal(s) - s[i] + x
  {
    if i == 0 {
      assert s[0 := x][1..] == s[1..];
    } else {
      assert s[i := x][1..] == s[1..][i - 1 := x];
      SumRealUpdate(s[1..], i - 1, x);
    }
  }

  lemma {:induction false} SumRealZeros(n: nat)
    ensures SumReal(seq(n, _ => 0.0)) == 0.0
  {
    if n > 0 {
      assert seq(n, _ => 0.0)[1..] == seq(n - 1, _ => 0.0);
      SumRealZeros(n - 1);
    }
  }

  /** The slot to be overwritten next holds the input that leaves the window, or 0 while it fills. */
  lemma PoppedInput(w: ValidWindow, inputs: seq<nat>)
    requires RingHolds(w, inputs)
    ensures var n, size := |inputs|, |w.slots|;
            w.slots[w.periods % size] == if n < size then 0.0 else inputs[n - size] as real
  {
    var n, size := |inputs|, |w.slots|;
    var j := (n + 1) % size;
    ModStep(n, j, size);
    assert w.slots[j] == SlotInput(size, inputs, j) as real;
  }

  lemma PutKeepsSum(w: ValidWindow, inputs: seq<nat>, x: nat)
    requires RingHolds(w, inputs) && SlotsSum(w, inputs)
    ensures SlotsSum(Insert(w, x as real), inputs + [x])
  {
    hide SumReal, SumNat, Covered, StepMean, RingHolds;
    PoppedInput(w, inputs);
    SumRealUpdate(w.slots, w.periods % |w.slots|, x as real);
    CoveredSlides(|w.slots|, inputs, x);
  }

  lemma ClearKeepsSum(w: ValidWindow, inputs: seq<nat>)
    ensures SlotsSum(Flush(w), seq(|inputs|, _ => 0))
  {
    var zeros := seq(|inputs|, _ => 0);
    var k := |Covered(|w.slots|, zeros)|;
    assert Covered(|w.slots|, zeros) == seq(k, _ => 0);
    SumZeros(k);
    SumRealZeros(|w.slots|);
  }

  lemma NewWindowSum(winsize: nat)
    requires winsize > 0
    ensures SlotsSum(NewWindow(winsize), [])
  {
    SumRealZeros(winsize);
  }

  /** After any inserts and flushes of a window of any size, slot by slot the ring holds the last inputs, and the slots
      sum to the inputs it covers. */
  lemma {:induction false} RingRefinesInputs(winsize: nat, ops: seq<WindowOp>)
    requires winsize > 0
    ensures RingHolds(Replay(winsize, ops), Inputs(ops))
    ensures SlotsSum(Replay(winsize, ops), Inputs(ops))
  {
    hide SlotsSum;
    if ops == [] {
      NewWindowSum(winsize);
    } else {
      var before := ops[..|ops| - 1];
      RingRefinesInputs(winsize, before);
      var w, inputs := Replay(winsize, before), Inputs(before);
      match ops[|ops| - 1]
      case Put(x) =>
        PutKeepsRing(w, inputs, x);
        PutKeepsSum(w, inputs, x);
      case Clear =>
        ClearKeepsExact(w, inputs);
        ClearKeepsSum(w, inputs);
    }
  }

  /** After any inserts and flushes, slot by slot the ring holds the last inputs, the slots sum to the covered inputs,
      and the mean times the number of covered inputs is that sum. */
  lemma {:induction false} WindowRefinesMean(winsize: nat, ops: seq<WindowOp>)
    requires 0 < winsize <= 1000
    ensures RingHolds(Replay(winsize, ops), Inputs(ops))
    ensures SumReal(Replay(winsize, ops).slots) == SumNat(Covered(winsize, Inputs(ops))) as real
    ensures MeanExact(Replay(winsize, ops), Inputs(ops))
  {
    RingRefinesInputs(winsize, ops);
    if ops != [] {
      var before := ops[..|ops| - 1];
      RingRefinesInputs(winsize, before);
      WindowRefinesMean(winsize, before);
      hide SumReal, SumNat;
      var w, inputs := Replay(winsize, before), Inputs(before);
      match ops[|ops| - 1]
      case Put(x) =>
        PutKeepsExact(w, inputs, x);
      case Clear =>
        ClearKeepsExact(w, inputs);
    }
  }

  /** The mean of any window is the plain mean of the covered inputs. */
  lemma MeanIsPlainMean(winsize: nat, ops: seq<WindowOp>)
    requires 0 < winsize <= 1000
    ensures Replay(winsize, ops).mean == PlainMean(Covered(winsize, Inputs(ops)))
  {
    WindowRefinesMean(winsize, ops);
    var covered := Covered(winsize, Inputs(ops));
    if covered == [] {
      EmptyMean(winsize, ops);
    } else {
      SolveMean(Replay(winsize, ops).mean, |covered|, SumNat(covered));
    }
  }

  lemma SolveMean(mean: real, count: nat, sum: nat)
    requires count > 0 && Balances(mean, count, sum)
    ensures mean == sum as real / count as real
  {
    Quotient(mean, count as real);
  }

  ghost function PlainMean(s: seq<nat>): real {
    if s == [] then 0.0 else SumNat(s) as real / |s| as real
  }

  lemma {:induction false} EmptyMean(winsize: nat, ops: seq<WindowOp>)
    requires winsize > 0 && Inputs(ops) == []
    ensures Replay(winsize, ops).mean == 0.0
  {
    if ops != [] {
      assert ops[|ops| - 1].Clear?;
    }
  }

  /** One count followed by `k` zeros. */
  ghost function LoneCount(k: nat): seq<WindowOp> {
    [Put(1)] + seq(k, _ => Put(0))
  }

  lemma {:induction false} LoneCountFades(winsize: nat, k: nat)
    requires winsize > 1000 && k <= 1000
    ensures var w, inputs := Replay(winsize, LoneCount(k)), Inputs(LoneCount(k));
            && RingHolds(w, inputs) && |inputs| == k + 1 && SumNat(inputs) == 1
            && (if k < 1000 then MeanExact(w, inputs) else w.mean == 0.0)
  {
    var ops := LoneCount(k);
    var before := ops[..k];
    var w, inputs := Replay(winsize, before), Inputs(before);
    var x := ops[k].x;
    if k == 0 {
      assert before == [];
      assert RingHolds(w, inputs) && MeanExact(w, inputs);
    } else {
      assert before == LoneCount(k - 1);
      LoneCountFades(winsize, k - 1);
    }
    PutKeepsRing(w, inputs, x);
    SumSeqConcat(inputs, [x], Identity);
    FadeStep(w, inputs, x, k);
  }

  lemma FadeStep(w: ValidWindow, inputs: seq<nat>, x: nat, k: nat)
    requires |w.slots| > 1000 >= k == |inputs|
    requires RingHolds(w, inputs) && MeanExact(w, inputs)
    requires SumNat(inputs + [x]) == 1
    ensures var r := Insert(w, x as real);
            if k < 1000 then MeanExact(r, inputs + [x]) else r.mean == 0.0
  {
    PutKeepsMean(w, inputs, x);
    var mean := NewMean(w, x as real);
    assert Covered(|w.slots|, inputs + [x]) == inputs + [x];
    if k < 1000 {
      CutoffSpares(mean, k + 1, 1);
      assert Insert(w, x as real).mean == mean;
    } else {
      assert mean * 1001.0 == 1.0;
    }
  }

  /** The cutoff never changes a mean exactly for windows of at most 1000 entries. */
  lemma CutoffHarmlessIff(winsize: nat)
    requires winsize > 0
    ensures (forall ops :: MeanExact(Replay(winsize, ops), Inputs(ops))) <==> winsize <= 1000
  {
    if winsize <= 1000 {
      forall ops ensures MeanExact(Replay(winsize, ops), Inputs(ops)) {
        WindowRefinesMean(winsize, ops);
      }
    } else {
      LoneCountFades(winsize, 1000);
      var ops := LoneCount(1000);
      assert Covered(winsize, Inputs(ops)) == Inputs(ops);
      assert 0.0 * 1001.0 != 1.0;
      assert !MeanExact(Replay(winsize, ops), Inputs(ops));
    }
  }
}
