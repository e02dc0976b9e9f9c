/** The Operations heartbeat window: a loop over telemetry that sends on the first two consecutive distinct
    healthy samples at 60 beats a minute or more, and the recheck of that pair. */
module Heartbeat {

  import opened Wrappers

  /** UTC; its text is the ISO form that the Kernel writes, always with six digits of fraction. */
  datatype Stamp = Stamp(second: nat, micros: nat)

  datatype Cadence = Unproven | Degraded | Observed

  datatype Event = BootBoundStart | HeartbeatEvent | MissedHeartbeat

  datatype Continuity = Continuity(chains: nat, receipts: nat, consumed: nat)

  /** rest: all the other fields of the canonical sample. */
  datatype Sample = Sample(sequence: int, clock: int, stamp: Stamp, cadence: Cadence, event: Event,
                           silent: bool, continuity: Option<Continuity>, rest: nat)

  datatype Observation = Observation(nonce: nat, sample: Sample)

  /** None: some check or read of that round raised. */
  type Stream = seq<Option<Observation>>

  datatype Result = Window(first: Observation, last: Observation, at: nat) | Denied | Stopped

  const SECOND_NS := 1_000_000_000

  function Instant(t: Stamp): int { t.second * 1_000_000 + t.micros }

  predicate Startup(s: Sample) {
    s.sequence == 1 && s.cadence.Unproven? && s.silent && s.event.BootBoundStart?
  }

  predicate Lagging(s: Sample) { s.cadence.Degraded? && (s.event.HeartbeatEvent? || s.event.MissedHeartbeat?) }

  predicate Healthy(s: Sample) { s.sequence > 1 && s.cadence.Observed? && s.event.HeartbeatEvent? }

  /** Sequence, clock and time all move forward, and no replay counter goes back. */
  predicate Advances(a: Sample, b: Sample) {
    && a.sequence < b.sequence && a.clock < b.clock && Instant(a.stamp) < Instant(b.stamp)
    && a.continuity.Some? && b.continuity.Some? && NotBehind(a.continuity.value, b.continuity.value)
  }

  predicate NotBehind(a: Continuity, b: Continuity) {
    a.chains <= b.chains && a.receipts <= b.receipts && a.consumed <= b.consumed
  }

  /** The sample is bound to the running processes, whose starts are in microseconds. */
  predicate Current(s: Sample, starts: seq<nat>) {
    s.continuity.Some? && forall i :: 0 <= i < |starts| ==> s.clock > 1000 * starts[i]
  }

  predicate FastEnough(a: Sample, b: Sample) { b.clock - a.clock <= (b.sequence - a.sequence) * SECOND_NS }

  // ----- what each round should do, without the loop's variables

  predicate Repeats(stream: Stream, j: nat) {
    && 0 < j < |stream| && stream[j].Some? && stream[j - 1].Some?
    && stream[j].value.sample == stream[j - 1].value.sample
  }

  predicate Denies(stream: Stream, starts: seq<nat>, j: nat)
    requires j < |stream|
    requires forall k :: 0 <= k < j ==> stream[k].Some?
  {
    stream[j].None?
    || (var s := stream[j].value.sample;
        || !Current(s, starts)
        || (!Repeats(stream, j) && ((j > 0 && !Advances(stream[j - 1].value.sample, s))
                                    || (!Startup(s) && !Lagging(s) && !Healthy(s))
                                    || (s.sequence <= 1 && !Startup(s)))))
  }

  /** A round is denied exactly when it raised, is not bound to the running processes, or shows a new sample that
      does not move everything forward or is of none of three kinds: the start of the boot, a degraded or a
      healthy heartbeat. */
  lemma DeniesIff(stream: Stream, starts: seq<nat>, j: nat)
    requires j < |stream| && forall k :: 0 <= k < j ==> stream[k].Some?
    ensures Denies(stream, starts, j) <==>
            stream[j].None? ||
            var s := stream[j].value.sample;
            || s.continuity.None? || (exists i :: 0 <= i < |starts| && s.clock <= 1000 * starts[i])
            || ((j == 0 || s != stream[j - 1].value.sample) &&
                (|| (j > 0 &&
                     var a := stream[j - 1].value.sample;
                     || s.sequence <= a.sequence || s.clock <= a.clock || Instant(s.stamp) <= Instant(a.stamp)
                     || a.continuity.None? || s.continuity.value.chains < a.continuity.value.chains
                     || s.continuity.value.receipts < a.continuity.value.receipts
                     || s.continuity.value.consumed < a.continuity.value.consumed)
                 || !(|| (&& s.sequence == 1 && s.cadence == Unproven && s.silent && s.event == BootBoundStart)
                      || (&& s.sequence > 1 && s.cadence == Degraded
                          && (s.event == HeartbeatEvent || s.event == MissedHeartbeat))
                      || (s.sequence > 1 && s.cadence == Observed && s.event == HeartbeatEvent))))
  {
  }

  predicate Sends(stream: Stream, j: nat)
    requires j < |stream|
    requires forall k :: 0 <= k <= j ==> stream[k].Some?
  {
    && j > 0 && !Repeats(stream, j)
    && Healthy(stream[j - 1].value.sample) && Healthy(stream[j].value.sample)
    && FastEnough(stream[j - 1].value.sample, stream[j].value.sample)
  }

  /** The rounds before `j` neither deny nor send. */
  ghost predicate Quiet(stream: Stream, starts: seq<nat>, j: nat)
    requires j <= |stream|
  {
    && (forall k :: 0 <= k < j ==> stream[k].Some?)
    && (forall k :: 0 <= k < j ==> !Denies(stream, starts, k) && !Sends(stream, k))
  }

  /** Where the run of equal samples that ends at `j` begins. */
  function RunStart(stream: Stream, j: nat): (i: nat)
    requires j < |stream|
    ensures i <= j
  {
    if Repeats(stream, j) then RunStart(stream, j - 1) else j
  }

  lemma {:induction false} RunIsConstant(stream: Stream, j: nat, k: nat)
    requires j < |stream| && stream[j].Some? && RunStart(stream, j) <= k <= j
    ensures stream[k].Some? && stream[k].value.sample == stream[j].value.sample
  {
    if k < j { RunIsConstant(stream, j - 1, k); }
  }

  /** observe_operations_lifecycle, up to the recheck: it stops at the first round that denies or sends, and
      sends the first observation of the previous sample with the present one. */
  method Observe(stream: Stream, starts: seq<nat>) returns (r: Result, j: nat)
    ensures j <= |stream| && Quiet(stream, starts, j)
    ensures r.Stopped? <==> j == |stream|
    ensures r.Denied? ==> j < |stream| && Denies(stream, starts, j)
    ensures r.Window? ==> j < |stream| && !Denies(stream, starts, j) && Sends(stream, j)
    ensures r.Window? ==> r.at == RunStart(stream, j - 1)
                          && Some(r.first) == stream[r.at] && Some(r.last) == stream[j]
  {
    var prior: Option<Sample> := None;
    var healthy: Option<Observation> := None;
    ghost var at := 0;
    var from := 0;
    j := 0;
    while j < |stream|
      invariant 0 <= j <= |stream| && Quiet(stream, starts, j)
      invariant prior == if j == 0 then None else Some(stream[j - 1].value.sample)
      invariant prior.Some? ==> prior.value.continuity.Some?
      invariant healthy.Some? <==> j > 0 && Healthy(stream[j - 1].value.sample)
      invariant healthy.Some? ==> from == RunStart(stream, j - 1) && stream[from] == healthy
    {
      if stream[j].None? { return Denied, j; }
      var observed := stream[j].value;
      var sample := observed.sample;
      if sample.continuity.None? { return Denied, j; }
      if exists i :: 0 <= i < |starts| && sample.clock <= 1000 * starts[i] { return Denied, j; }
      if prior.Some? {
        if sample == prior.value {
          RepeatIsQuiet(stream, starts, j);
          j := j + 1;
          continue;
        }
        if sample.sequence <= prior.value.sequence || sample.clock <= prior.value.clock
           || Instant(sample.stamp) <= Instant(prior.value.stamp) { return Denied, j; }
        if !NotBehind(prior.value.continuity.value, sample.continuity.value) { return Denied, j; }
      }
      prior := Some(sample);
      if sample.sequence <= 1 && !Startup(sample) { return Denied, j; }
      if Startup(sample) || Lagging(sample) {
        healthy := None;
        j := j + 1;
        continue;
      }
      if !sample.cadence.Observed? || !sample.event.HeartbeatEvent? { return Denied, j; }
      if healthy.Some? {
        RunIsConstant(stream, j - 1, from);
        var first := healthy.value.sample;
        var count, elapsed := sample.sequence - first.sequence, sample.clock - first.clock;
        if elapsed <= count * SECOND_NS { return Window(healthy.value, observed, from), j; }
      }
      healthy := Some(observed);
      from := j;
      j := j + 1;
    }
    r := Stopped;
  }

  lemma RepeatIsQuiet(stream: Stream, starts: seq<nat>, j: nat)
    requires j < |stream| && Quiet(stream, starts, j) && Repeats(stream, j)
    ensures Quiet(stream, starts, j + 1)
  {
    assert !Denies(stream, starts, j - 1);
  }

  // ----- monotone over the whole loop

  lemma {:induction false} NeverGoesBack(stream: Stream, starts: seq<nat>, a: nat, b: nat)
    requires a <= b < |stream| && Quiet(stream, starts, b) && !Denies(stream, starts, b)
    ensures stream[a].value.sample == stream[b].value.sample || Advances(stream[a].value.sample, stream[b].value.sample)
  {
    if a < b {
      NeverGoesBack(stream, starts, a, b - 1);
    }
  }

  // ----- the recheck

  /** The ISO text after the seconds. */
  function Tail(t: Stamp): string { "." + Digits(t.micros, 6) + "Z" }

  function Digits(n: nat, width: nat): (d: string)
    ensures |d| == width
  {
    if width == 0 then "" else Digits(n / 10, width - 1) + [('0' as int + n % 10) as char]
  }

  /** Lexicographic order of strings. */
  predicate Precedes(a: string, b: string) {
    b != [] && (a == [] || a[0] < b[0] || (a[0] == b[0] && Precedes(a[1..], b[1..])))
  }

  /** The order of the texts; up to the seconds they have one width, so they sort as the seconds do. */
  predicate TextBefore(a: Stamp, b: Stamp) {
    a.second < b.second || (a.second == b.second && Precedes(Tail(a), Tail(b)))
  }

  lemma {:induction false} PrecedesAppend(a: string, b: string, c: char, d: char)
    requires |a| == |b|
    ensures Precedes(a + [c], b + [d]) <==> Precedes(a, b) || (a == b && c < d)
  {
    if a == [] {
      assert a + [c] == [c] && b + [d] == [d];
    } else {
      assert (a + [c])[1..] == a[1..] + [c] && (b + [d])[1..] == b[1..] + [d];
      PrecedesAppend(a[1..], b[1..], c, d);
      assert a == b <==> a[0] == b[0] && a[1..] == b[1..];
    }
  }

  lemma {:induction false} DigitsOrder(m: nat, n: nat, width: nat)
    requires width == 0 ==> m == n == 0
    requires width > 0 ==> m < Pow10(width) && n < Pow10(width)
    ensures Precedes(Digits(m, width), Digits(n, width)) <==> m < n
    ensures Digits(m, width) == Digits(n, width) <==> m == n
  {
    if width > 0 {
      DigitsOrder(m / 10, n / 10, width - 1);
      var c, d := ('0' as int + m % 10) as char, ('0' as int + n % 10) as char;
      PrecedesAppend(Digits(m / 10, width - 1), Digits(n / 10, width - 1), c, d);
      var p, q := Digits(m, width), Digits(n, width);
      assert p[..width - 1] == Digits(m / 10, width - 1) && p[width - 1] == c;
      assert q[..width - 1] == Digits(n / 10, width - 1) && q[width - 1] == d;
    }
  }

  function Pow10(k: nat): (p: nat)
    ensures p > 0
  {
    if k == 0 then 1 else 10 * Pow10(k - 1)
  }

  /** The texts sort as the instants do, so the recheck compares what the loop compares. */
  lemma TextOrderIsTimeOrder(a: Stamp, b: Stamp)
    requires a.micros < 1_000_000 && b.micros < 1_000_000
    ensures TextBefore(a, b) <==> Instant(a) < Instant(b)
  {
    if a.second == b.second {
      assert Pow10(6) == 1_000_000 by {
        assert Pow10(1) == 10 && Pow10(2) == 100 && Pow10(3) == 1000 && Pow10(4) == 10_000 && Pow10(5) == 100_000;
      }
      var p, q := Digits(a.micros, 6), Digits(b.micros, 6);
      DigitsOrder(a.micros, b.micros, 6);
      PrecedesAppend(p, q, 'Z', 'Z');
      assert ("." + p + "Z")[1..] == p + "Z" && ("." + q + "Z")[1..] == q + "Z";
    }
  }

  /** _compare_operations_lifecycle on two observations whose sources and requests are in order. */
  predicate Compare(first: Observation, last: Observation, starts: seq<nat>) {
    var a, b := first.sample, last.sample;
    && Current(a, starts) && Current(b, starts)
    && b.sequence - a.sequence > 0 && b.clock - a.clock > 0 && TextBefore(a.stamp, b.stamp)
    && first.nonce != last.nonce
    && b.cadence.Observed? && b.event.HeartbeatEvent? && FastEnough(a, b)
  }

  /** Each round asks with a nonce of its own. */
  predicate NoncesDiffer(stream: Stream) {
    forall i, j :: 0 <= i < j < |stream| && stream[i].Some? && stream[j].Some? ==>
        stream[i].value.nonce != stream[j].value.nonce
  }

  predicate StampsInRange(stream: Stream) {
    forall i :: 0 <= i < |stream| && stream[i].Some? ==> stream[i].value.sample.stamp.micros < 1_000_000
  }

  /** First observed at `i` and repeated up to `j`, where the next distinct sample is. */
  predicate IsWindow(stream: Stream, i: nat, j: nat, first: Observation, last: Observation) {
    && i < j < |stream| && stream[i] == Some(first) && stream[j] == Some(last)
    && forall k :: i <= k < j ==> stream[k].Some? && stream[k].value.sample == first.sample
  }

  /** Whatever window is sent on: two consecutive distinct healthy samples, the first as first observed; and
      the recheck accepts it. */
  method ObserveAndRecheck(stream: Stream, starts: seq<nat>) returns (r: Result, accepted: bool)
    requires NoncesDiffer(stream) && StampsInRange(stream)
    ensures accepted <==> r.Window?
    ensures r.Window? ==>
              var a, b := r.first.sample, r.last.sample;
              && 1 < a.sequence < b.sequence && a.cadence == b.cadence == Observed
              && a.event == b.event == HeartbeatEvent
              && 0 < b.clock - a.clock <= (b.sequence - a.sequence) * 1_000_000_000
              && 1_000_000 * a.stamp.second + a.stamp.micros < 1_000_000 * b.stamp.second + b.stamp.micros
              && a.continuity.Some? && b.continuity.Some?
              && a.continuity.value.chains <= b.continuity.value.chains
              && a.continuity.value.receipts <= b.continuity.value.receipts
              && a.continuity.value.consumed <= b.continuity.value.consumed
              && forall i :: 0 <= i < |starts| ==> a.clock > 1000 * starts[i]
    ensures r.Window? ==> exists j :: IsWindow(stream, r.at, j, r.first, r.last)
  {
    var j;
    r, j := Observe(stream, starts);
    accepted := false;
    if r.Window? {
      accepted := Compare(r.first, r.last, starts);
      assert !Denies(stream, starts, j - 1);
      forall k | r.at <= k < j ensures stream[k].Some? && stream[k].value.sample == r.first.sample {
        RunIsConstant(stream, j - 1, k);
        RunIsConstant(stream, j - 1, r.at);
      }
      assert IsWindow(stream, r.at, j, r.first, r.last);
      TextOrderIsTimeOrder(r.first.sample.stamp, r.last.sample.stamp);
    }
  }
}
