/** The generator of description fixtures: rounds over what is still undocumented, until enough is
    described, nothing is left, time is up, the provider throttles, or rounds stop paying. */
module ChunkGen {
  import opened Common

  datatype Status = Ok | Timeout | Stalled | RateLimit | MaxRounds

  /** One wave of workers: whether time is up before it starts, and how many of its workers hit a
      provider limit. */
  datatype Wave = Wave(late: bool, limited: nat)

  /** One round: whether time is up before it, its waves, and how much is described after it. */
  datatype Round = Round(late: bool, waves: nat -> Wave, described: nat)

  function CeilDiv(a: nat, b: int): nat
    requires b >= 1
  {
    (a + b - 1) / b
  }

  lemma {:induction false} CeilOf(a: nat, b: int)
    requires b >= 1
    ensures var q := CeilDiv(a, b); a <= q * b && (q == 0 || (q - 1) * b < a)
  {
  }

  // ---------- The waves of a round ----------

  /** At least half of the wave's workers hit a limit, and at least one. */
  predicate Throttled(w: Wave, size: int) {
    w.limited >= Max(1, (size + 1) / 2)
  }

  /** How a round with this many chunks left stops before its last wave, from the k-th on. */
  function RoundStop(waves: nat -> Wave, left: int, parallel: int, k: nat): Option<Status>
    requires parallel >= 1
    decreases left
  {
    if left <= 0 then None
    else if waves(k).late then Some(Timeout)
    else if Throttled(waves(k), Min(parallel, left)) then Some(RateLimit)
    else RoundStop(waves, left - parallel, parallel, k + 1)
  }

  /** A round runs its waves in order, all its chunks unless it is stopped. */
  method RunRound(waves: nat -> Wave, chunks: nat, parallel: int) returns (stop: Option<Status>, run: nat)
    requires parallel >= 1
    ensures stop == RoundStop(waves, chunks, parallel, 0)
    ensures run <= chunks && (stop.None? ==> run == chunks) && (stop == Some(Timeout) ==> run < chunks)
  {
    stop, run := None, 0;
    var i, k := 0, 0;
    while i < chunks
      invariant 0 <= i && run == Min(i, chunks)
      invariant k >= 0 && RoundStop(waves, chunks, parallel, 0) == RoundStop(waves, chunks - i, parallel, k)
      decreases chunks - i
    {
      var wave := waves(k);
      if wave.late {
        return Some(Timeout), run;
      }
      var size := Min(parallel, chunks - i);
      i := i + parallel;
      run := run + size;
      if wave.limited >= Max(1, (size + 1) / 2) {
        return Some(RateLimit), run;
      }
      k := k + 1;
    }
  }

  // ---------- Rounds ----------

  datatype Setup = Setup(total: nat, before: nat, target: real, chunkSize: int, parallel: int, maxRounds: int,
                         minGain: int)

  function Coverage(described: nat, total: nat): real {
    if total == 0 then 0.0 else described as real / total as real
  }

  /** Described after n rounds. */
  function Described(s: Setup, rounds: nat -> Round, n: nat): nat {
    if n == 0 then s.before else rounds(n - 1).described
  }

  function Remaining(s: Setup, rounds: nat -> Round, n: nat): int {
    s.total - Described(s, rounds, n)
  }

  function Chunks(s: Setup, rounds: nat -> Round, n: nat): nat
    requires s.chunkSize >= 1 && Remaining(s, rounds, n) >= 0
  {
    CeilDiv(Remaining(s, rounds, n), s.chunkSize)
  }

  /** The chunks cover what remains, and the last one is not empty. */
  lemma {:induction false} ChunksCover(s: Setup, rounds: nat -> Round, n: nat)
    requires s.chunkSize >= 1 && Remaining(s, rounds, n) >= 0
    ensures var left, chunks := s.total - Described(s, rounds, n), Chunks(s, rounds, n);
            left <= chunks * s.chunkSize && (chunks == 0 || (chunks - 1) * s.chunkSize < left)
  {
    CeilOf(Remaining(s, rounds, n), s.chunkSize);
  }

  /** Nothing described is ever lost, and no resource appears. */
  ghost predicate Growing(s: Setup, rounds: nat -> Round) {
    && s.before <= s.total
    && (forall n: nat :: s.before <= rounds(n).described <= s.total)
    && forall m: nat, n: nat | m < n :: rounds(m).described <= rounds(n).described
  }

  /** A gain that stops the run: none, or a small one with a large backlog. */
  predicate Stalls(minGain: int, gain: int, remaining: int) {
    gain == 0 || (gain < minGain && remaining > 10 * minGain)
  }

  /** How the run ends before its next round, after n of them. */
  function EndsBefore(s: Setup, rounds: nat -> Round, n: nat): Option<Status> {
    if n >= s.maxRounds then Some(MaxRounds)
    else if Coverage(Described(s, rounds, n), s.total) >= s.target then Some(Ok)
    else if rounds(n).late then Some(Timeout)
    else if Remaining(s, rounds, n) <= 0 then Some(Ok)
    else None
  }

  /** How the run ends with its n-th round, counted from 0. */
  function EndsWith(s: Setup, rounds: nat -> Round, n: nat): Option<Status>
    requires s.chunkSize >= 1 && s.parallel >= 1 && EndsBefore(s, rounds, n).None?
  {
    var stop := RoundStop(rounds(n).waves, Chunks(s, rounds, n), s.parallel, 0);
    if stop.Some? then stop
    else if Stalls(s.minGain, Remaining(s, rounds, n) - Remaining(s, rounds, n + 1), Remaining(s, rounds, n + 1)) then
      Some(Stalled)
    else None
  }

  predicate Passes(s: Setup, rounds: nat -> Round, n: nat)
    requires s.chunkSize >= 1 && s.parallel >= 1
  {
    EndsBefore(s, rounds, n).None? && EndsWith(s, rounds, n).None?
  }

  ghost predicate GoesOn(s: Setup, rounds: nat -> Round, n: nat)
    requires s.chunkSize >= 1 && s.parallel >= 1
  {
    forall k: nat | k < n :: Passes(s, rounds, k)
  }

  /** The run ends after n rounds for the given reason. */
  ghost predicate Ends(s: Setup, rounds: nat -> Round, n: nat, reason: Status)
    requires s.chunkSize >= 1 && s.parallel >= 1
  {
    || (GoesOn(s, rounds, n) && EndsBefore(s, rounds, n) == Some(reason))
    || (n > 0 && GoesOn(s, rounds, n - 1) && EndsBefore(s, rounds, n - 1).None?
        && EndsWith(s, rounds, n - 1) == Some(reason))
  }

  /** Enough coverage turns any reason into success. */
  function Final(s: Setup, described: nat, reason: Status): Status {
    if Coverage(described, s.total) >= s.target then Ok else reason
  }

  // ---------- The bound on rounds ----------

  /** The most rounds that can go by with r resources undescribed: rounds of `g` down to a small
      backlog, and then one by one. */
  function Rank(r: nat, g: int): nat
    requires g >= 1
  {
    CeilDiv(Max(0, r - 10 * g), g) + Min(r, 10 * g)
  }

  lemma {:induction false} Scaled(x: int, y: int, g: int)
    requires g >= 0
    ensures x >= y ==> x * g >= y * g
  {
    if x >= y {
      assert (x - y) * g >= 0;
    }
  }

  lemma {:induction false} CeilFalls(a: nat, b: nat, g: int)
    requires g >= 1 && b + g <= a
    ensures CeilDiv(b, g) + 1 <= CeilDiv(a, g)
  {
    CeilOf(a, g);
    CeilOf(b, g);
    Scaled(CeilDiv(b, g), CeilDiv(a, g), g);
    assert CeilDiv(b, g) * g == (CeilDiv(b, g) - 1) * g + g;
  }

  lemma {:induction false} CeilIs(a: nat, g: int, q: nat)
    requires g >= 1 && a <= q * g && (q == 0 || (q - 1) * g < a)
    ensures CeilDiv(a, g) == q
  {
    CeilOf(a, g);
    Scaled(q - 1, CeilDiv(a, g), g);
    Scaled(CeilDiv(a, g) - 1, q, g);
  }

  lemma {:induction false} CeilPositive(a: nat, g: int)
    requires g >= 1
    ensures CeilDiv(a, g) == 0 <==> a == 0
  {
    CeilOf(a, g);
    Scaled(0, CeilDiv(a, g), g);
    if a == 0 {
      CeilIs(0, g, 0);
    }
  }

  /** A round that does not stall takes at least one off the bound. */
  lemma {:induction false} RankFalls(r: nat, next: nat, g: int)
    requires g >= 1 && next <= r && !Stalls(g, r - next, next)
    ensures Rank(next, g) + 1 <= Rank(r, g)
  {
    if next > 10 * g {
      CeilFalls(r - 10 * g, next - 10 * g, g);
    } else if r > 10 * g {
      CeilPositive(r - 10 * g, g);
      CeilPositive(0, g);
    }
  }

  lemma {:induction false} RankLeft(s: Setup, rounds: nat -> Round, n: nat)
    requires s.chunkSize >= 1 && s.parallel >= 1 && s.minGain >= 1
    requires Growing(s, rounds) && GoesOn(s, rounds, n)
    ensures 0 <= Remaining(s, rounds, n)
    ensures n + Rank(Remaining(s, rounds, n), s.minGain) <= Rank(s.total - s.before, s.minGain)
  {
    if n > 0 {
      RankLeft(s, rounds, n - 1);
      assert Passes(s, rounds, n - 1);
      assert n > 1 ==> rounds(n - 2).described <= rounds(n - 1).described;
      RankFalls(Remaining(s, rounds, n - 1), Remaining(s, rounds, n), s.minGain);
    }
  }

  /** However many rounds are allowed, the stall rule bounds them by what is left at the start. */
  lemma {:induction false} RoundsAreBounded(s: Setup, rounds: nat -> Round, n: nat, reason: Status)
    requires s.chunkSize >= 1 && s.parallel >= 1
    requires Growing(s, rounds) && Ends(s, rounds, n, reason)
    ensures n <= Max(0, s.maxRounds)
    ensures s.minGain >= 1 ==> n <= Rank(s.total - s.before, s.minGain)
  {
    if GoesOn(s, rounds, n) {
      BoundedSoFar(s, rounds, n);
    } else {
      BoundedSoFar(s, rounds, n - 1);
    }
  }

  lemma {:induction false} BoundedSoFar(s: Setup, rounds: nat -> Round, n: nat)
    requires s.chunkSize >= 1 && s.parallel >= 1
    requires Growing(s, rounds) && GoesOn(s, rounds, n)
    ensures n <= Max(0, s.maxRounds)
    ensures s.minGain >= 1 ==> n <= Rank(s.total - s.before, s.minGain)
    ensures EndsBefore(s, rounds, n).None? ==> n + 1 <= s.maxRounds
    ensures EndsBefore(s, rounds, n).None? && s.minGain >= 1 ==> n + 1 <= Rank(s.total - s.before, s.minGain)
  {
    if n > 0 {
      assert Passes(s, rounds, n - 1);
    }
    if s.minGain >= 1 {
      RankLeft(s, rounds, n);
      if Remaining(s, rounds, n) > 0 {
        RankPositive(Remaining(s, rounds, n), s.minGain);
      }
    }
  }

  lemma {:induction false} RankPositive(r: nat, g: int)
    requires g >= 1 && r > 0
    ensures Rank(r, g) >= 1
  {
  }

  /** Success means enough coverage, or nothing left to describe; and for a share of a fixture
      with resources, exactly enough coverage. */
  lemma {:induction false} OkMeansCovered(s: Setup, rounds: nat -> Round, n: nat, reason: Status)
    requires s.chunkSize >= 1 && s.parallel >= 1
    requires Growing(s, rounds) && Ends(s, rounds, n, reason)
    ensures var described := Described(s, rounds, n);
            && (Final(s, described, reason) == Ok ==> Coverage(described, s.total) >= s.target || described == s.total)
            && (s.total > 0 && s.target <= 1.0 ==>
                  (Final(s, described, reason) == Ok <==> Coverage(described, s.total) >= s.target))
  {
    if n > 0 {
      OnlyThree(rounds(n - 1).waves, Chunks(s, rounds, n - 1), s.parallel, 0);
    }
    if s.total > 0 && Described(s, rounds, n) == s.total {
      FullCoverage(s.total);
    }
  }

  lemma {:induction false} FullCoverage(total: nat)
    requires total > 0
    ensures Coverage(total, total) == 1.0
  {
  }

  lemma {:induction false} OnlyThree(waves: nat -> Wave, left: int, parallel: int, k: nat)
    requires parallel >= 1
    ensures RoundStop(waves, left, parallel, k) in {None, Some(Timeout), Some(RateLimit)}
    decreases left
  {
    if left > 0 {
      OnlyThree(waves, left - parallel, parallel, k + 1);
    }
  }

  /** The slowest round that does not stall: `g` while that leaves a large backlog, else what
      brings it down to a small one, then one at a time. */
  function Slowest(r: nat, g: int): nat
    requires g >= 1
  {
    if r > 10 * g then Max(r - g, 10 * g) else if r > 0 then r - 1 else 0
  }

  lemma {:induction false} CeilStep(a: nat, g: int)
    requires g >= 1
    ensures CeilDiv(a + g, g) == CeilDiv(a, g) + 1
    ensures 0 < a <= g ==> CeilDiv(a, g) == 1
    ensures CeilDiv(0, g) == 0
  {
    CeilIs(a + g, g, CeilDiv(a, g) + 1);
    if 0 < a <= g {
      CeilIs(a, g, 1);
    }
    CeilIs(0, g, 0);
  }

  /** The bound is reached: the slowest round takes exactly one off it. */
  lemma {:induction false} BoundIsExact(r: nat, g: int)
    requires g >= 1 && r > 0
    ensures !Stalls(g, r - Slowest(r, g), Slowest(r, g)) && Rank(Slowest(r, g), g) + 1 == Rank(r, g)
  {
    if r > 11 * g {
      CeilStep(r - 11 * g, g);
    } else if r > 10 * g {
      CeilStep(r - 10 * g, g);
    } else {
      CeilStep(0, g);
    }
  }

  /** How many slowest rounds it takes to describe everything. */
  function SlowestRun(r: nat, g: int): nat
    requires g >= 1
    decreases r
  {
    if r == 0 then 0 else 1 + SlowestRun(Slowest(r, g), g)
  }

  /** A run of slowest rounds takes exactly the bound. */
  lemma {:induction false} SlowestRunIsTheBound(r: nat, g: int)
    requires g >= 1
    ensures SlowestRun(r, g) == Rank(r, g)
    decreases r
  {
    if r == 0 {
      CeilPositive(0, g);
    } else {
      BoundIsExact(r, g);
      SlowestRunIsTheBound(Slowest(r, g), g);
    }
  }

  // ---------- The program ----------

  /** One round, from its rows to its gain. */
  method NextRound(s: Setup, rounds: nat -> Round, n: nat, described: nat)
    returns (end: Option<Status>, after: nat, run: nat)
    requires s.chunkSize >= 1 && s.parallel >= 1
    requires described == Described(s, rounds, n) && EndsBefore(s, rounds, n).None?
    ensures after == Described(s, rounds, n + 1) && end == EndsWith(s, rounds, n)
    ensures run <= Chunks(s, rounds, n) && (end in {None, Some(Stalled)} ==> run == Chunks(s, rounds, n))
  {
    var stop, count := RunRound(rounds(n).waves, CeilDiv(s.total - described, s.chunkSize), s.parallel);
    after, run := rounds(n).described, count;
    OnlyThree(rounds(n).waves, Chunks(s, rounds, n), s.parallel, 0);
    if stop.Some? {
      return stop, after, run;
    }
    var gain, remaining := after - described, s.total - after;
    if gain == 0 || (gain < s.minGain && remaining > 10 * s.minGain) {
      return Some(Stalled), after, run;
    }
    end := None;
  }

  /** The run: it ends where and as it must. */
  method GenerateFixture(s: Setup, rounds: nat -> Round)
    returns (status: Status, described: nat, n: nat, chunksRun: nat, ghost reason: Status)
    requires s.chunkSize >= 1 && s.parallel >= 1 && Growing(s, rounds)
    ensures Ends(s, rounds, n, reason) && described == Described(s, rounds, n)
    ensures status == Final(s, described, reason)
  {
    described, n, chunksRun := s.before, 0, 0;
    var end: Option<Status> := None;
    while n < s.maxRounds && end.None?
      invariant described == Described(s, rounds, n)
      invariant if end.Some? then Ends(s, rounds, n, end.value) else GoesOn(s, rounds, n)
      decreases s.maxRounds - n, end.None?
    {
      if Coverage(described, s.total) >= s.target {
        end := Some(Ok);
      } else if rounds(n).late {
        end := Some(Timeout);
      } else if s.total - described == 0 {
        end := Some(Ok);
      } else {
        var run;
        end, described, run := NextRound(s, rounds, n, described);
        n, chunksRun := n + 1, chunksRun + run;
      }
    }
    reason := if end.Some? then end.value else MaxRounds;
    status := if end.Some? then end.value else MaxRounds;
    if Coverage(described, s.total) >= s.target {
      status := Ok;
    }
  }

  // ---------- What the ends mean ----------

  /** How many waves a round with this many chunks has, and how large each is. */
  function WaveCount(left: int, parallel: int): nat
    requires parallel >= 1
    decreases left
  {
    if left <= 0 then 0 else 1 + WaveCount(left - parallel, parallel)
  }

  function WaveSize(left: int, parallel: int, j: nat): int
    requires parallel >= 1
    decreases j
  {
    if j == 0 then Min(parallel, left) else WaveSize(left - parallel, parallel, j - 1)
  }

  /** Some worker hit a limit, and they are half of the wave or more. */
  predicate HalfLimited(w: Wave, size: int) {
    w.limited >= 1 && 2 * w.limited >= size
  }

  lemma {:induction false} ThrottledIff(w: Wave, size: int)
    requires size >= 1
    ensures Throttled(w, size) <==> HalfLimited(w, size)
  {
  }

  /** Neither time nor the provider stops the wave. */
  predicate Runs(waves: nat -> Wave, left: int, parallel: int, k: nat, j: nat)
    requires parallel >= 1
  {
    !waves(k + j).late && !HalfLimited(waves(k + j), WaveSize(left, parallel, j))
  }

  /** A round is stopped at its first wave before which time is up, for that reason, or in which
      half of the workers or more hit a limit, for that; and it is not stopped if there is none. */
  ghost predicate StopsAt(waves: nat -> Wave, left: int, parallel: int, k: nat, j: nat, stop: Option<Status>)
    requires parallel >= 1
  {
    && (forall i: nat | i < j :: Runs(waves, left, parallel, k, i))
    && if j == WaveCount(left, parallel) then stop.None?
       else !Runs(waves, left, parallel, k, j)
            && stop == Some(if waves(k + j).late then Timeout else RateLimit)
  }

  lemma {:induction false} RoundStopMeans(waves: nat -> Wave, left: int, parallel: int, k: nat) returns (j: nat)
    requires parallel >= 1
    ensures j <= WaveCount(left, parallel)
    ensures StopsAt(waves, left, parallel, k, j, RoundStop(waves, left, parallel, k))
    decreases left
  {
    if left <= 0 {
      j := 0;
    } else {
      ThrottledIff(waves(k), Min(parallel, left));
      assert WaveSize(left, parallel, 0) == Min(parallel, left);
      if Runs(waves, left, parallel, k, 0) {
        var rest := RoundStopMeans(waves, left - parallel, parallel, k + 1);
        j := rest + 1;
        forall i: nat | i < j ensures Runs(waves, left, parallel, k, i) {
          assert i > 0 ==> Runs(waves, left - parallel, parallel, k + 1, i - 1);
        }
        assert Runs(waves, left, parallel, k, j) <==> Runs(waves, left - parallel, parallel, k + 1, rest);
      } else {
        j := 0;
      }
    }
  }

  /** The target share of the fixture is described; of an empty one nothing ever is. */
  predicate Enough(s: Setup, rounds: nat -> Round, n: nat) {
    if s.total == 0 then s.target <= 0.0 else Described(s, rounds, n) as real >= s.target * s.total as real
  }

  lemma {:induction false} EnoughIff(s: Setup, rounds: nat -> Round, n: nat)
    ensures Coverage(Described(s, rounds, n), s.total) >= s.target <==> Enough(s, rounds, n)
  {
    if s.total > 0 {
      var d, t := Described(s, rounds, n) as real, s.total as real;
      assert (d / t) * t == d;
      if d / t >= s.target {
        assert (d / t - s.target) * t >= 0.0;
      } else {
        assert (s.target - d / t) * t > 0.0;
      }
    }
  }

  /** What a round brings, in new descriptions. */
  function Gain(s: Setup, rounds: nat -> Round, n: nat): int {
    Described(s, rounds, n + 1) - Described(s, rounds, n)
  }

  /** The round found too little described, on time and with something left; nothing stopped it; and
      it paid: it gained something, and as much as asked for unless little is left. */
  ghost predicate Paid(s: Setup, rounds: nat -> Round, n: nat)
    requires s.chunkSize >= 1 && s.parallel >= 1
  {
    && n < s.maxRounds && !Enough(s, rounds, n) && !rounds(n).late && Described(s, rounds, n) < s.total
    && StopsAt(rounds(n).waves, Chunks(s, rounds, n), s.parallel, 0,
               WaveCount(Chunks(s, rounds, n), s.parallel), None)
    && Gain(s, rounds, n) != 0
    && (Gain(s, rounds, n) >= s.minGain || s.total - Described(s, rounds, n + 1) <= 10 * s.minGain)
  }

  lemma {:induction false} PassesIsPaid(s: Setup, rounds: nat -> Round, n: nat)
    requires s.chunkSize >= 1 && s.parallel >= 1 && Growing(s, rounds)
    requires Passes(s, rounds, n)
    ensures Paid(s, rounds, n)
  {
    EnoughIff(s, rounds, n);
    var j := RoundStopMeans(rounds(n).waves, Chunks(s, rounds, n), s.parallel, 0);
  }

  predicate LateWave(r: Round, j: nat) {
    r.waves(j).late
  }

  predicate LimitedWave(r: Round, chunks: nat, parallel: int, j: nat)
    requires parallel >= 1
  {
    HalfLimited(r.waves(j), WaveSize(chunks, parallel, j))
  }

  ghost predicate SomeLate(r: Round) {
    exists j: nat :: LateWave(r, j)
  }

  ghost predicate SomeLimited(r: Round, chunks: nat, parallel: int)
    requires parallel >= 1
  {
    exists j: nat :: LimitedWave(r, chunks, parallel, j)
  }

  /** The reason a run gives is true of where it ended: the rounds are used up; enough is described,
      or nothing is left; time was up before the round or one of its waves; half of a wave hit a
      limit; or the last round gained nothing, or little with much left. */
  ghost predicate IsReason(s: Setup, rounds: nat -> Round, n: nat, reason: Status)
    requires s.chunkSize >= 1 && s.parallel >= 1
  {
    match reason
    case MaxRounds => n >= s.maxRounds
    case Ok => Enough(s, rounds, n) || Described(s, rounds, n) >= s.total
    case Timeout => rounds(n).late || (n > 0 && SomeLate(rounds(n - 1)))
    case RateLimit =>
      n > 0 && Described(s, rounds, n - 1) <= s.total
      && SomeLimited(rounds(n - 1), Chunks(s, rounds, n - 1), s.parallel)
    case Stalled =>
      n > 0 && (Gain(s, rounds, n - 1) == 0
                || (Gain(s, rounds, n - 1) < s.minGain && s.total - Described(s, rounds, n) > 10 * s.minGain))
  }

  /** Every round before the end was needed and paid, and the reason given at the end is true. */
  lemma {:induction false} EndIsJustified(s: Setup, rounds: nat -> Round, n: nat, reason: Status)
    requires s.chunkSize >= 1 && s.parallel >= 1 && Growing(s, rounds)
    requires Ends(s, rounds, n, reason)
    ensures IsReason(s, rounds, n, reason)
    ensures forall k: nat | k < n - 1 :: Paid(s, rounds, k)
    ensures reason == Ok || reason == MaxRounds ==> forall k: nat | k < n :: Paid(s, rounds, k)
  {
    EnoughIff(s, rounds, n);
    forall k: nat | k < n && Passes(s, rounds, k) ensures Paid(s, rounds, k) {
      PassesIsPaid(s, rounds, k);
    }
    if GoesOn(s, rounds, n) && EndsBefore(s, rounds, n) == Some(reason) {
      assert forall k: nat | k < n :: Passes(s, rounds, k);
    } else {
      assert forall k: nat | k < n - 1 :: Passes(s, rounds, k);
      var j := RoundStopMeans(rounds(n - 1).waves, Chunks(s, rounds, n - 1), s.parallel, 0);
      OnlyThree(rounds(n - 1).waves, Chunks(s, rounds, n - 1), s.parallel, 0);
      if reason == RateLimit {
        assert LimitedWave(rounds(n - 1), Chunks(s, rounds, n - 1), s.parallel, j);
      } else if reason == Timeout {
        assert LateWave(rounds(n - 1), j);
      }
    }
  }
}
