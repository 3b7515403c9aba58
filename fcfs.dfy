/** A first-come-first-served CPU scheduling simulator: processes are sorted
    stably by arrival time and dispatched one after another, each running for
    its whole burst; the scheduler records a Gantt chart of
    (pid, start, completion) triples and reports mean turnaround and waiting. */
module Fcfs {

  datatype Option<T> = None | Some(value: T)

  /** The failures of the statistics report: a process without a start or
      completion time cannot be formatted into the table (Python raises
      TypeError on formatting `None` with a width), and averaging over no
      processes divides by zero (Python raises ZeroDivisionError). */
  datatype StatsError = NotScheduled | NoProcesses

  datatype Result<T> = Success(value: T) | Failure(error: StatsError)

  /** A process descriptor. The identifier, arrival and burst are fixed at
      construction; the scheduler fills in the derived fields. */
  class Process {
    const pid: string
    const arrivalTime: int
    const burstTime: int
    var startTime: Option<int>
    var completionTime: Option<int>
    var waitingTime: int
    var turnaroundTime: int

    constructor (pid: string, arrivalTime: int, burstTime: int)
      ensures this.pid == pid && this.arrivalTime == arrivalTime && this.burstTime == burstTime
      ensures startTime == None && completionTime == None
      ensures waitingTime == 0 && turnaroundTime == 0
    {
      this.pid := pid;
      this.arrivalTime := arrivalTime;
      this.burstTime := burstTime;
      startTime := None;
      completionTime := None;
      waitingTime := 0;
      turnaroundTime := 0;
    }
  }

  /** One Gantt chart entry: (pid, start, completion). */
  datatype Slot = Slot(pid: string, start: int, completion: int)

  function Max(a: int, b: int): int {
    if a < b then b else a
  }

  // ---------------------------------------------------------------------
  // The order `run` dispatches in: a stable sort by arrival time.
  // ---------------------------------------------------------------------

  predicate SortedByArrival(s: seq<Process>) {
    forall i, j :: 0 <= i < j < |s| ==> s[i].arrivalTime <= s[j].arrivalTime
  }

  /** The processes of `s` that arrive at time `a`, in their order in `s`. */
  function ArrivingAt(s: seq<Process>, a: int): seq<Process>
    decreases |s|
  {
    if s == [] then []
    else (if s[0].arrivalTime == a then [s[0]] else []) + ArrivingAt(s[1..], a)
  }

  /** `r` is `s` stably sorted by arrival: ordered by arrival, and for every
      arrival time the processes arriving then keep their relative order. */
  ghost predicate IsStableSortOf(r: seq<Process>, s: seq<Process>) {
    SortedByArrival(r) && forall a :: ArrivingAt(r, a) == ArrivingAt(s, a)
  }

  lemma {:induction false} ArrivingAtConcat(s: seq<Process>, t: seq<Process>, a: int)
    ensures ArrivingAt(s + t, a) == ArrivingAt(s, a) + ArrivingAt(t, a)
    decreases |s|
  {
    if s == [] {
      assert s + t == t;
    } else {
      var u := s + t;
      var h := if s[0].arrivalTime == a then [s[0]] else [];
      assert u != [] && u[0] == s[0];
      assert u[1..] == s[1..] + t;
      ArrivingAtConcat(s[1..], t, a);
      assert ArrivingAt(u, a) == h + (ArrivingAt(s[1..], a) + ArrivingAt(t, a));
      assert ArrivingAt(s, a) == h + ArrivingAt(s[1..], a);
    }
  }

  /** Only processes of `s` that arrive at `a` are in `ArrivingAt(s, a)`. */
  lemma {:induction false} ArrivingAtMembers(s: seq<Process>, a: int, x: Process)
    requires x in ArrivingAt(s, a)
    ensures x in s && x.arrivalTime == a
    decreases |s|
  {
    if s[0] != x || s[0].arrivalTime != a {
      ArrivingAtMembers(s[1..], a, x);
    }
  }

  lemma NoneArriving(s: seq<Process>, a: int)
    requires forall m :: 0 <= m < |s| ==> s[m].arrivalTime != a
    ensures ArrivingAt(s, a) == []
  {
    if ArrivingAt(s, a) != [] {
      ArrivingAtMembers(s, a, ArrivingAt(s, a)[0]);
    }
  }

  /** Each occurrence of `x` in `s` is an occurrence in its own arrival group. */
  lemma {:induction false} CountInGroup(s: seq<Process>, x: Process)
    ensures multiset(s)[x] == multiset(ArrivingAt(s, x.arrivalTime))[x]
    decreases |s|
  {
    if s != [] {
      CountInGroup(s[1..], x);
      assert s == [s[0]] + s[1..];
    }
  }

  /** A stable sort is a permutation. */
  lemma StableSortIsPermutation(r: seq<Process>, s: seq<Process>)
    requires IsStableSortOf(r, s)
    ensures multiset(r) == multiset(s)
  {
    forall x
      ensures multiset(r)[x] == multiset(s)[x]
    {
      CountInGroup(r, x);
      CountInGroup(s, x);
    }
  }

  lemma LeadGroupNonEmpty(s: seq<Process>)
    requires s != []
    ensures ArrivingAt(s, s[0].arrivalTime) != []
  {
  }

  /** Dropping the head of `s` drops it from its own arrival group only. */
  lemma ArrivingAtTail(s: seq<Process>, a: int)
    requires s != []
    ensures ArrivingAt(s[1..], a) == if s[0].arrivalTime == a then ArrivingAt(s, a)[1..] else ArrivingAt(s, a)
  {
  }

  lemma HeadArrivesFirst(s: seq<Process>, x: Process)
    requires SortedByArrival(s) && x in s
    ensures s[0].arrivalTime <= x.arrivalTime
  {
  }

  /** Two lists sorted by arrival with the same arrival groups start with the
      same process. */
  lemma SameLead(r1: seq<Process>, r2: seq<Process>)
    requires r1 != [] && r2 != []
    requires SortedByArrival(r1) && SortedByArrival(r2)
    requires forall a :: ArrivingAt(r1, a) == ArrivingAt(r2, a)
    ensures r1[0] == r2[0]
  {
    var k1, k2 := r1[0].arrivalTime, r2[0].arrivalTime;
    var g1, g2 := ArrivingAt(r1, k1), ArrivingAt(r2, k2);
    assert g1 == [r1[0]] + ArrivingAt(r1[1..], k1);
    assert g2 == [r2[0]] + ArrivingAt(r2[1..], k2);
    assert r1[0] in ArrivingAt(r2, k1);
    assert r2[0] in ArrivingAt(r1, k2);
    ArrivingAtMembers(r2, k1, r1[0]);
    ArrivingAtMembers(r1, k2, r2[0]);
    HeadArrivesFirst(r2, r1[0]);
    HeadArrivesFirst(r1, r2[0]);
    assert k1 == k2;
    assert g1 == ArrivingAt(r2, k1) == g2;
    assert g1[0] == r1[0] && g2[0] == r2[0];
  }

  lemma SortedTail(s: seq<Process>)
    requires s != [] && SortedByArrival(s)
    ensures SortedByArrival(s[1..])
  {
  }

  lemma SameTailGroups(r1: seq<Process>, r2: seq<Process>)
    requires r1 != [] && r2 != [] && r1[0] == r2[0]
    requires forall a :: ArrivingAt(r1, a) == ArrivingAt(r2, a)
    ensures forall a :: ArrivingAt(r1[1..], a) == ArrivingAt(r2[1..], a)
  {
    forall a
      ensures ArrivingAt(r1[1..], a) == ArrivingAt(r2[1..], a)
    {
      ArrivingAtTail(r1, a);
      ArrivingAtTail(r2, a);
    }
  }

  /** Two sequences sorted by arrival with the same arrival groups are equal:
      every stable sort of a list gives the same result. */
  lemma {:induction false} StableSortUnique(r1: seq<Process>, r2: seq<Process>)
    requires SortedByArrival(r1) && SortedByArrival(r2)
    requires forall a :: ArrivingAt(r1, a) == ArrivingAt(r2, a)
    ensures r1 == r2
    decreases |r1|
  {
    if r1 != [] {
      LeadGroupNonEmpty(r1);
    }
    if r2 != [] {
      LeadGroupNonEmpty(r2);
    }
    if r1 != [] && r2 != [] {
      SameLead(r1, r2);
      SameTailGroups(r1, r2);
      SortedTail(r1);
      SortedTail(r2);
      StableSortUnique(r1[1..], r2[1..]);
      assert r1 == [r1[0]] + r1[1..] && r2 == [r2[0]] + r2[1..];
    }
  }

  /** Sorting a list that is already sorted by arrival leaves it as it is. */
  lemma SortIdempotent(r: seq<Process>, s: seq<Process>)
    requires SortedByArrival(s)
    requires IsStableSortOf(r, s)
    ensures r == s
  {
    StableSortUnique(r, s);
  }

  /** Inserting `x` behind every process that arrives no later than it
      extends a stable sort of `s` to one of `s + [x]`. */
  lemma InsertKeepsStable(r: seq<Process>, j: nat, x: Process, s: seq<Process>)
    requires IsStableSortOf(r, s)
    requires j <= |r|
    requires j > 0 ==> r[j - 1].arrivalTime <= x.arrivalTime
    requires forall m :: j <= m < |r| ==> r[m].arrivalTime > x.arrivalTime
    ensures IsStableSortOf(r[..j] + [x] + r[j..], s + [x])
  {
    InsertKeepsSorted(r, j, x);
    forall a
      ensures ArrivingAt(r[..j] + [x] + r[j..], a) == ArrivingAt(s + [x], a)
    {
      InsertKeepsGroup(r, j, x, s, a);
    }
  }

  lemma InsertKeepsSorted(r: seq<Process>, j: nat, x: Process)
    requires SortedByArrival(r)
    requires j <= |r|
    requires j > 0 ==> r[j - 1].arrivalTime <= x.arrivalTime
    requires forall m :: j <= m < |r| ==> r[m].arrivalTime > x.arrivalTime
    ensures SortedByArrival(r[..j] + [x] + r[j..])
  {
    var r' := r[..j] + [x] + r[j..];
    forall i, k | 0 <= i < k < |r'|
      ensures r'[i].arrivalTime <= r'[k].arrivalTime
    {
      if k < j {
        assert r'[i] == r[i] && r'[k] == r[k];
      } else if k == j {
        assert r'[i] == r[i] && r'[k] == x;
        assert r[i].arrivalTime <= r[j - 1].arrivalTime;
      } else if i < j {
        assert r'[i] == r[i] && r'[k] == r[k - 1];
      } else if i == j {
        assert r'[i] == x && r'[k] == r[k - 1];
      } else {
        assert r'[i] == r[i - 1] && r'[k] == r[k - 1];
      }
    }
  }

  lemma InsertKeepsGroup(r: seq<Process>, j: nat, x: Process, s: seq<Process>, a: int)
    requires j <= |r|
    requires ArrivingAt(r, a) == ArrivingAt(s, a)
    requires forall m :: j <= m < |r| ==> r[m].arrivalTime > x.arrivalTime
    ensures ArrivingAt(r[..j] + [x] + r[j..], a) == ArrivingAt(s + [x], a)
  {
    var front, back := r[..j], r[j..];
    assert front + back == r;
    ArrivingAtConcat(front + [x], back, a);
    ArrivingAtConcat(front, [x], a);
    ArrivingAtConcat(front, back, a);
    ArrivingAtConcat(s, [x], a);
    assert [x][1..] == [];
    var gx := ArrivingAt([x], a);
    assert gx == (if x.arrivalTime == a then [x] else []);
    if x.arrivalTime == a {
      NoneArriving(back, a);
      assert ArrivingAt(r, a) == ArrivingAt(front, a);
    } else {
      assert ArrivingAt(front + [x], a) == ArrivingAt(front, a);
      assert ArrivingAt(s + [x], a) == ArrivingAt(s, a);
    }
  }

  /** The stable sort `run` applies (Python's `list.sort` with the arrival
      time as key), written as an insertion sort: each process goes behind
      every process already placed that arrives no later than it. */
  method SortByArrival(s: seq<Process>) returns (r: seq<Process>)
    ensures IsStableSortOf(r, s)
    ensures multiset(r) == multiset(s)
  {
    r := [];
    var i := 0;
    while i < |s|
      invariant 0 <= i <= |s|
      invariant IsStableSortOf(r, s[..i])
    {
      var x := s[i];
      var j := |r|;
      while j > 0 && r[j - 1].arrivalTime > x.arrivalTime
        invariant 0 <= j <= |r|
        invariant forall m :: j <= m < |r| ==> r[m].arrivalTime > x.arrivalTime
      {
        j := j - 1;
      }
      InsertKeepsStable(r, j, x, s[..i]);
      assert s[..i + 1] == s[..i] + [x];
      r := r[..j] + [x] + r[j..];
      i := i + 1;
    }
    assert s[..|s|] == s;
    StableSortIsPermutation(r, s);
  }

  // ---------------------------------------------------------------------
  // The timeline `run` produces from the sorted order.
  // ---------------------------------------------------------------------

  /** The Gantt chart entries for dispatching `s` in order, the clock
      standing at `t` before the first: each process starts when both the
      CPU is free and it has arrived, and runs for its burst. */
  function Schedule(s: seq<Process>, t: int): (r: seq<Slot>)
    ensures |r| == |s|
    decreases |s|
  {
    if s == [] then []
    else
      var start := Max(t, s[0].arrivalTime);
      [Slot(s[0].pid, start, start + s[0].burstTime)] + Schedule(s[1..], start + s[0].burstTime)
  }

  /** The clock just before the `k`-th process of `s` is dispatched. */
  function ClockBefore(s: seq<Process>, t: int, k: nat): int
    requires k <= |s|
  {
    if k == 0 then t else Schedule(s, t)[k - 1].completion
  }

  /** The per-process rule of `run`: the `k`-th process starts at the later
      of the previous completion (or the initial clock) and its own arrival,
      and completes one burst later. */
  lemma {:induction false} ScheduleStep(s: seq<Process>, t: int, k: nat)
    requires k < |s|
    ensures var start := Max(ClockBefore(s, t, k), s[k].arrivalTime);
      Schedule(s, t)[k] == Slot(s[k].pid, start, start + s[k].burstTime)
    decreases k
  {
    if k > 0 {
      var t' := Max(t, s[0].arrivalTime) + s[0].burstTime;
      ScheduleStep(s[1..], t', k - 1);
      assert Schedule(s, t)[1..] == Schedule(s[1..], t');
    }
  }

  /** What `run` guarantees of each entry: the pid is the process's, it starts
      no earlier than it arrives, it completes one burst after it starts, it
      waits `turnaround - burst == start - arrival >= 0`, and it starts no
      earlier than its predecessor completes. */
  lemma ScheduleBounds(s: seq<Process>, t: int, k: nat)
    requires k < |s|
    ensures Schedule(s, t)[k].pid == s[k].pid
    ensures Schedule(s, t)[k].start >= s[k].arrivalTime
    ensures Schedule(s, t)[k].completion == Schedule(s, t)[k].start + s[k].burstTime
    ensures (Schedule(s, t)[k].completion - s[k].arrivalTime) - s[k].burstTime
            == Schedule(s, t)[k].start - s[k].arrivalTime >= 0
    ensures k == 0 ==> Schedule(s, t)[k].start == Max(t, s[k].arrivalTime)
    ensures k > 0 ==> Schedule(s, t)[k].start >= Schedule(s, t)[k - 1].completion
  {
    ScheduleStep(s, t, k);
  }

  /** The CPU idles only while nothing has arrived: a process that does not
      start right when its predecessor completes starts at its arrival. */
  lemma IdleOnlyUntilArrival(s: seq<Process>, t: int, k: nat)
    requires 0 < k < |s|
    requires Schedule(s, t)[k].start != Schedule(s, t)[k - 1].completion
    ensures Schedule(s, t)[k].start == s[k].arrivalTime
  {
    ScheduleStep(s, t, k);
  }

  predicate NonNegativeBursts(s: seq<Process>) {
    forall i :: 0 <= i < |s| ==> s[i].burstTime >= 0
  }

  /** With non-negative bursts, the intervals are pairwise disjoint and in
      dispatch order: every entry starts after each earlier one completes,
      so start times never decrease. */
  lemma {:induction false} IntervalsOrdered(s: seq<Process>, t: int, j: nat, k: nat)
    requires NonNegativeBursts(s)
    requires j < k < |s|
    ensures Schedule(s, t)[j].completion <= Schedule(s, t)[k].start
    ensures Schedule(s, t)[j].start <= Schedule(s, t)[k].start
    decreases k - j
  {
    ScheduleStep(s, t, k);
    ScheduleStep(s, t, j);
    if j + 1 < k {
      ScheduleStep(s, t, k - 1);
      IntervalsOrdered(s, t, j, k - 1);
    }
  }

  /** Total burst of a run of processes. */
  function TotalBurst(s: seq<Process>): int
    decreases |s|
  {
    if s == [] then 0 else TotalBurst(s[..|s| - 1]) + s[|s| - 1].burstTime
  }

  /** The bursts of `s[j..k]` are those of `s[j..k - 1]` and the last one. */
  lemma TotalBurstSnoc(s: seq<Process>, j: nat, k: nat)
    requires j < k <= |s|
    ensures TotalBurst(s[j..k]) == TotalBurst(s[j..k - 1]) + s[k - 1].burstTime
  {
    var u := s[j..k];
    assert u[..|u| - 1] == s[j..k - 1];
    assert u[|u| - 1] == s[k - 1];
  }

  /** Closed form of the timeline, independent of the step rule: the `k`-th
      process starts no earlier than the initial clock plus every earlier
      burst, nor than any earlier-or-same process's arrival plus the bursts
      from it up to `k` ... */
  lemma {:induction false} StartLowerBounds(s: seq<Process>, t: int, k: nat)
    requires k < |s|
    ensures Schedule(s, t)[k].start >= t + TotalBurst(s[0..k])
    ensures forall j :: 0 <= j <= k ==> Schedule(s, t)[k].start >= s[j].arrivalTime + TotalBurst(s[j..k])
    decreases k
  {
    ScheduleStep(s, t, k);
    assert s[k..k] == [];
    if k > 0 {
      StartLowerBounds(s, t, k - 1);
      ScheduleStep(s, t, k - 1);
      TotalBurstSnoc(s, 0, k);
      forall j | 0 <= j < k
        ensures Schedule(s, t)[k].start >= s[j].arrivalTime + TotalBurst(s[j..k])
      {
        TotalBurstSnoc(s, j, k);
      }
    }
  }

  /** ... and it is the least such time: it equals one of those bounds. */
  lemma {:induction false} StartAttained(s: seq<Process>, t: int, k: nat)
    requires k < |s|
    ensures Schedule(s, t)[k].start == t + TotalBurst(s[0..k])
         || exists j :: 0 <= j <= k && Schedule(s, t)[k].start == s[j].arrivalTime + TotalBurst(s[j..k])
    decreases k
  {
    ScheduleStep(s, t, k);
    assert s[k..k] == [];
    if k > 0 && Schedule(s, t)[k].start != s[k].arrivalTime {
      StartAttained(s, t, k - 1);
      ScheduleStep(s, t, k - 1);
      TotalBurstSnoc(s, 0, k);
      if Schedule(s, t)[k - 1].start != t + TotalBurst(s[0..k - 1]) {
        var j :| 0 <= j <= k - 1 && Schedule(s, t)[k - 1].start == s[j].arrivalTime + TotalBurst(s[j..k - 1]);
        TotalBurstSnoc(s, j, k);
      }
    }
  }

  // ---------------------------------------------------------------------
  // The derived fields `run` writes.
  // ---------------------------------------------------------------------

  /** `p` carries the derived fields of the Gantt chart entry `slot`. */
  ghost predicate Dispatched(p: Process, slot: Slot)
    reads p
  {
    && p.startTime == Some(slot.start)
    && p.completionTime == Some(slot.completion)
    && p.turnaroundTime == slot.completion - p.arrivalTime
    && p.waitingTime == p.turnaroundTime - p.burstTime
  }

  /** `p` has a start and a completion time, so its table row can be formatted. */
  predicate HasTimes(p: Process)
    reads p
  {
    p.startTime.Some? && p.completionTime.Some?
  }

  /** The state `run` leaves each process in: started no earlier than it
      arrived, completed one burst after it started, and waiting
      `turnaround - burst == start - arrival >= 0`. */
  ghost predicate Scheduled(p: Process)
    reads p
  {
    && HasTimes(p)
    && p.arrivalTime <= p.startTime.value
    && p.completionTime.value == p.startTime.value + p.burstTime
    && p.waitingTime == p.turnaroundTime - p.burstTime
    && p.waitingTime == p.startTime.value - p.arrivalTime >= 0
  }

  /** No later position in `s` before `n` holds the same object as position `k`. */
  ghost predicate LastBefore(s: seq<Process>, k: nat, n: nat) {
    forall m :: k < m < n && m < |s| ==> s[m] != s[k]
  }

  function Turnarounds(s: seq<Process>): (r: seq<int>)
    reads set p | p in s
    ensures |r| == |s|
    ensures forall i :: 0 <= i < |s| ==> r[i] == s[i].turnaroundTime
    decreases |s|
  {
    if s == [] then [] else [s[0].turnaroundTime] + Turnarounds(s[1..])
  }

  function Waitings(s: seq<Process>): (r: seq<int>)
    reads set p | p in s
    ensures |r| == |s|
    ensures forall i :: 0 <= i < |s| ==> r[i] == s[i].waitingTime
    decreases |s|
  {
    if s == [] then [] else [s[0].waitingTime] + Waitings(s[1..])
  }

  function Bursts(s: seq<Process>): (r: seq<int>)
    ensures |r| == |s|
    ensures forall i :: 0 <= i < |s| ==> r[i] == s[i].burstTime
    decreases |s|
  {
    if s == [] then [] else [s[0].burstTime] + Bursts(s[1..])
  }

  // ---------------------------------------------------------------------
  // Averages reported by `show_results`.
  // ---------------------------------------------------------------------

  function Sum(xs: seq<int>): int
    decreases |xs|
  {
    if xs == [] then 0 else xs[0] + Sum(xs[1..])
  }

  /** `sum(xs) / len(xs)` with true division. */
  function Average(xs: seq<int>): (r: real)
    requires |xs| > 0
    ensures r * (|xs| as real) == Sum(xs) as real
  {
    Sum(xs) as real / |xs| as real
  }

  lemma {:induction false} SumNonNegative(xs: seq<int>)
    requires forall i :: 0 <= i < |xs| ==> xs[i] >= 0
    ensures Sum(xs) >= 0
    decreases |xs|
  {
    if xs != [] {
      SumNonNegative(xs[1..]);
    }
  }

  lemma {:induction false} SumDifference(xs: seq<int>, ys: seq<int>, zs: seq<int>)
    requires |xs| == |ys| == |zs|
    requires forall i :: 0 <= i < |xs| ==> xs[i] == ys[i] - zs[i]
    ensures Sum(xs) == Sum(ys) - Sum(zs)
    decreases |xs|
  {
    if xs != [] {
      SumDifference(xs[1..], ys[1..], zs[1..]);
    }
  }

  /** A mean of non-negative values is non-negative. */
  lemma AverageNonNegative(xs: seq<int>)
    requires |xs| > 0
    requires forall i :: 0 <= i < |xs| ==> xs[i] >= 0
    ensures Average(xs) >= 0.0
  {
    SumNonNegative(xs);
  }

  /** The mean of pointwise differences is the difference of the means. */
  lemma AverageDifference(xs: seq<int>, ys: seq<int>, zs: seq<int>)
    requires |xs| == |ys| == |zs| > 0
    requires forall i :: 0 <= i < |xs| ==> xs[i] == ys[i] - zs[i]
    ensures Average(xs) == Average(ys) - Average(zs)
  {
    SumDifference(xs, ys, zs);
    var n := |xs| as real;
    assert Sum(xs) as real / n == Sum(ys) as real / n - Sum(zs) as real / n;
  }

  /** What the report computes of a scheduled process list: the mean waiting
      time is the mean turnaround time less the mean burst time, and it is
      never negative. */
  lemma ReportedWaitingIsTurnaroundLessBurst(s: seq<Process>)
    requires |s| > 0
    requires forall i :: 0 <= i < |s| ==> s[i].waitingTime >= 0
    requires forall i :: 0 <= i < |s| ==> s[i].waitingTime == s[i].turnaroundTime - s[i].burstTime
    ensures Average(Waitings(s)) == Average(Turnarounds(s)) - Average(Bursts(s))
    ensures Average(Waitings(s)) >= 0.0
  {
    AverageDifference(Waitings(s), Turnarounds(s), Bursts(s));
    AverageNonNegative(Waitings(s));
  }

  // ---------------------------------------------------------------------
  // The scheduler.
  // ---------------------------------------------------------------------

  class Scheduler {
    var processes: seq<Process>
    var ganttChart: seq<Slot>

    constructor ()
      ensures processes == [] && ganttChart == []
    {
      processes := [];
      ganttChart := [];
    }

    /** Appends `p`; nothing else changes. Duplicate pids, and the same
        object added twice, are accepted. */
    method AddProcess(p: Process)
      modifies this
      ensures processes == old(processes) + [p]
      ensures ganttChart == old(ganttChart)
    {
      processes := processes + [p];
    }

    /** Sorts the processes stably by arrival, dispatches them in that order
        from clock 0, writes each one's derived fields and appends its
        (pid, start, completion) to the Gantt chart. When one object occurs
        several times in the list, its fields are those of its last
        occurrence, as the last write wins. */
    method Run()
      modifies this, set p | p in processes
      ensures IsStableSortOf(processes, old(processes))
      ensures multiset(processes) == multiset(old(processes))
      ensures ganttChart == old(ganttChart) + Schedule(processes, 0)
      ensures forall k :: 0 <= k < |processes| && LastBefore(processes, k, |processes|) ==>
                Dispatched(processes[k], Schedule(processes, 0)[k])
      ensures forall p :: p in processes ==> Scheduled(p)
    {
      var ps := SortByArrival(processes);
      forall x | x in ps
        ensures x in old(processes)
      {
        assert multiset(ps)[x] > 0;
      }
      processes := ps;
      Dispatch();
      DispatchedAreScheduled(ps);
    }

    /** The clock loop of `run` over the list in its current order: the
        clock waits for each process's arrival when the CPU is idle, runs
        the process for its burst, and records its fields and its slot. */
    method Dispatch()
      modifies this, set p | p in processes
      ensures processes == old(processes)
      ensures ganttChart == old(ganttChart) + Schedule(processes, 0)
      ensures DispatchedUpTo(processes, Schedule(processes, 0), |processes|)
    {
      var ps := processes;
      ghost var full := Schedule(ps, 0);
      var time := 0;
      var i := 0;
      while i < |ps|
        invariant 0 <= i <= |ps|
        invariant processes == ps
        invariant ganttChart == old(ganttChart) + full[..i]
        invariant time == ClockBefore(ps, 0, i)
        invariant DispatchedUpTo(ps, full, i)
      {
        var p := ps[i];
        ScheduleStep(ps, 0, i);
        if time < p.arrivalTime {
          time := p.arrivalTime;
        }
        var start := time;
        time := time + p.burstTime;
        Record(ps, full, i, start, time);
        ganttChart := ganttChart + [Slot(p.pid, start, time)];
        assert full[..i + 1] == full[..i] + [full[i]];
        i := i + 1;
      }
      assert full[..|ps|] == full;
    }

    /** The table rows, then the mean turnaround and mean waiting time over
        the process list. A row fails for a process that has not been
        dispatched; with no processes `show_results` divides by zero. */
    method ShowResults() returns (r: Result<(real, real)>)
      ensures r == Failure(NotScheduled) <==> exists p :: p in processes && !HasTimes(p)
      ensures r == Failure(NoProcesses) <==> processes == []
      ensures r.Success? <==> processes != [] && forall p :: p in processes ==> HasTimes(p)
      ensures r.Success? ==> r.value == (Average(Turnarounds(processes)), Average(Waitings(processes)))
      ensures r.Success? ==>
                r.value.0 * (|processes| as real) == Sum(Turnarounds(processes)) as real &&
                r.value.1 * (|processes| as real) == Sum(Waitings(processes)) as real
    {
      for i := 0 to |processes|
        invariant forall k :: 0 <= k < i ==> HasTimes(processes[k])
      {
        if !HasTimes(processes[i]) {
          return Failure(NotScheduled);
        }
      }
      if |processes| == 0 {
        return Failure(NoProcesses);
      }
      var avgTurnaround := Average(Turnarounds(processes));
      var avgWaiting := Average(Waitings(processes));
      r := Success((avgTurnaround, avgWaiting));
    }
  }

  /** Every process among the first `i` of `ps` carries the fields of its
      slot of `full`, as of its last occurrence there. */
  ghost predicate DispatchedUpTo(ps: seq<Process>, full: seq<Slot>, i: nat)
    requires i <= |ps| == |full|
    reads set p | p in ps
  {
    forall k {:trigger Dispatched(ps[k], full[k])} :: 0 <= k < i && LastBefore(ps, k, i) ==> Dispatched(ps[k], full[k])
  }

  /** The field writes of one step of `run`'s loop: `ps[i]` gets the start
      and completion of its slot, `turnaround = completion - arrival` and
      `waiting = turnaround - burst`. Only `ps[i]` changes, so the earlier
      processes whose last occurrence is before `i` keep their fields. */
  method Record(ps: seq<Process>, ghost full: seq<Slot>, i: nat, start: int, completion: int)
    requires i < |ps| == |full|
    requires full[i].start == start && full[i].completion == completion
    requires DispatchedUpTo(ps, full, i)
    modifies ps[i]
    ensures DispatchedUpTo(ps, full, i + 1)
    ensures ps[i].startTime == Some(start) && ps[i].completionTime == Some(completion)
  {
    var p := ps[i];
    var turnaround := completion - p.arrivalTime;
    p.startTime, p.completionTime := Some(start), Some(completion);
    p.turnaroundTime, p.waitingTime := turnaround, turnaround - p.burstTime;
    forall k | 0 <= k < i + 1 && LastBefore(ps, k, i + 1)
      ensures Dispatched(ps[k], full[k])
    {
      if k < i {
        assert ps[k] != ps[i] && LastBefore(ps, k, i);
        assert old(Dispatched(ps[k], full[k]));
      }
    }
  }

  /** The position of the last occurrence of `x` in `s`. */
  ghost function LastIndex(s: seq<Process>, x: Process): (k: nat)
    requires x in s
    ensures k < |s| && s[k] == x && LastBefore(s, k, |s|)
    decreases |s|
  {
    if s[|s| - 1] == x then |s| - 1 else LastIndex(s[..|s| - 1], x)
  }

  /** Every object of a list whose last occurrences carry the fields of the
      timeline is in the `Scheduled` state. */
  lemma DispatchedAreScheduled(ps: seq<Process>)
    requires forall k :: 0 <= k < |ps| && LastBefore(ps, k, |ps|) ==> Dispatched(ps[k], Schedule(ps, 0)[k])
    ensures forall p :: p in ps ==> Scheduled(p)
  {
    forall p | p in ps
      ensures Scheduled(p)
    {
      var k := LastIndex(ps, p);
      ScheduleBounds(ps, 0, k);
    }
  }

  /** Calling `run` a second time dispatches identically (the list is already
      sorted, so the sort leaves it alone) but, as the chart is never
      cleared, appends the same entries a second time. */
  method RunTwice(sch: Scheduler)
    modifies sch, sch.processes
    ensures IsStableSortOf(sch.processes, old(sch.processes))
    ensures sch.ganttChart == old(sch.ganttChart) + Schedule(sch.processes, 0) + Schedule(sch.processes, 0)
    ensures forall k :: 0 <= k < |sch.processes| && LastBefore(sch.processes, k, |sch.processes|) ==>
              Dispatched(sch.processes[k], Schedule(sch.processes, 0)[k])
  {
    sch.Run();
    ghost var first := sch.processes;
    forall x | x in first
      ensures x in old(sch.processes)
    {
      assert multiset(first)[x] > 0;
    }
    sch.Run();
    SortIdempotent(sch.processes, first);
  }
}
