/** Client scenarios of the FCFS scheduler, proved from the contracts of
    `Scheduler` alone. */
module FcfsScenarios {
  import opened Fcfs

  /** The sample workload P1(0,5), P2(2,3), P3(4,1), P4(6,2), in the order
      it is added. */
  predicate IsSampleWorkload(ps: seq<Process>) {
    && |ps| == 4
    && ps[0].pid == "P1" && ps[0].arrivalTime == 0 && ps[0].burstTime == 5
    && ps[1].pid == "P2" && ps[1].arrivalTime == 2 && ps[1].burstTime == 3
    && ps[2].pid == "P3" && ps[2].arrivalTime == 4 && ps[2].burstTime == 1
    && ps[3].pid == "P4" && ps[3].arrivalTime == 6 && ps[3].burstTime == 2
  }

  /** The timeline of the sample workload P1(0,5), P2(2,3), P3(4,1), P4(6,2). */
  lemma SampleTimeline(ps: seq<Process>)
    requires IsSampleWorkload(ps)
    ensures SortedByArrival(ps)
    ensures Schedule(ps, 0) == [Slot("P1", 0, 5), Slot("P2", 5, 8), Slot("P3", 8, 9), Slot("P4", 9, 11)]
  {
    ScheduleStep(ps, 0, 0);
    ScheduleStep(ps, 0, 1);
    ScheduleStep(ps, 0, 2);
    ScheduleStep(ps, 0, 3);
  }

  lemma SampleSums(tt: seq<int>, wt: seq<int>)
    requires |tt| == 4 && tt[0] == 5 && tt[1] == 6 && tt[2] == 5 && tt[3] == 5
    requires |wt| == 4 && wt[0] == 0 && wt[1] == 3 && wt[2] == 4 && wt[3] == 3
    ensures Sum(tt) == 21 && Sum(wt) == 10
  {
    assert tt[1..][1..] == tt[2..] && tt[2..][1..] == tt[3..] && tt[3..][1..] == [];
    assert wt[1..][1..] == wt[2..] && wt[2..][1..] == wt[3..] && wt[3..][1..] == [];
    assert Sum(tt[3..]) == 5 && Sum(wt[3..]) == 3;
    assert Sum(tt[2..]) == 10 && Sum(wt[2..]) == 7;
    assert Sum(tt[1..]) == 16 && Sum(wt[1..]) == 10;
  }

  /** After `run`, the sample workload's waiting times are 0, 3, 4 and 3,
      the turnaround and waiting times add up to 21 and 10, and their means
      are 5.25 and 2.5. */
  lemma SampleFields(ps: seq<Process>)
    requires IsSampleWorkload(ps)
    requires forall k :: 0 <= k < |ps| && LastBefore(ps, k, |ps|) ==> Dispatched(ps[k], Schedule(ps, 0)[k])
    ensures ps[0].waitingTime == 0 && ps[1].waitingTime == 3 && ps[2].waitingTime == 4 && ps[3].waitingTime == 3
    ensures Sum(Turnarounds(ps)) == 21 && Sum(Waitings(ps)) == 10
    ensures Average(Turnarounds(ps)) == 5.25 && Average(Waitings(ps)) == 2.5
  {
    SampleTimeline(ps);
    var full := Schedule(ps, 0);
    assert LastBefore(ps, 0, 4) by {
      assert ps[0] != ps[1] && ps[0] != ps[2] && ps[0] != ps[3];
    }
    assert LastBefore(ps, 1, 4) by {
      assert ps[1] != ps[2] && ps[1] != ps[3];
    }
    assert LastBefore(ps, 2, 4) by {
      assert ps[2] != ps[3];
    }
    assert LastBefore(ps, 3, 4);
    assert Dispatched(ps[0], full[0]) && Dispatched(ps[1], full[1]);
    assert Dispatched(ps[2], full[2]) && Dispatched(ps[3], full[3]);
    SampleSums(Turnarounds(ps), Waitings(ps));
    SampleMeans(Turnarounds(ps), Waitings(ps));
  }

  lemma SampleMeans(tt: seq<int>, wt: seq<int>)
    requires |tt| == 4 && Sum(tt) == 21
    requires |wt| == 4 && Sum(wt) == 10
    ensures Average(tt) == 5.25 && Average(wt) == 2.5
  {
  }

  /** The sample workload through `run`: the Gantt chart, and every
      process carrying the fields of its slot. */
  method RunSampleWorkload() returns (sch: Scheduler, ps: seq<Process>)
    ensures fresh(sch) && sch.processes == ps && IsSampleWorkload(ps)
    ensures sch.ganttChart == [Slot("P1", 0, 5), Slot("P2", 5, 8), Slot("P3", 8, 9), Slot("P4", 9, 11)]
    ensures forall k :: 0 <= k < |ps| && LastBefore(ps, k, |ps|) ==> Dispatched(ps[k], Schedule(ps, 0)[k])
    ensures forall p :: p in ps ==> Scheduled(p)
  {
    sch, ps := NewSampleScheduler();
    SampleTimeline(ps);
    sch.Run();
    SortIdempotent(sch.processes, ps);
  }

  /** The sample workload's reported averages, 5.25 and 2.5. */
  method SampleAverages() {
    var sch, ps := RunSampleWorkload();
    assert forall p :: p in sch.processes ==> HasTimes(p);
    var r := sch.ShowResults();
    SampleFields(ps);
    assert r == Success((5.25, 2.5));
  }

  /** The `__main__` block up to `run`: a new scheduler with the sample
      workload added. */
  method NewSampleScheduler() returns (sch: Scheduler, ps: seq<Process>)
    ensures fresh(sch) && sch.processes == ps && sch.ganttChart == []
    ensures IsSampleWorkload(ps) && forall p :: p in ps ==> fresh(p)
  {
    sch := new Scheduler();
    var p1 := new Process("P1", 0, 5);
    var p2 := new Process("P2", 2, 3);
    var p3 := new Process("P3", 4, 1);
    var p4 := new Process("P4", 6, 2);
    sch.AddProcess(p1);
    sch.AddProcess(p2);
    sch.AddProcess(p3);
    sch.AddProcess(p4);
    ps := [p1, p2, p3, p4];
  }

  /** A process that arrives late leaves the CPU idle until it arrives. */
  method IdleGap() {
    var sch := new Scheduler();
    var p := new Process("P1", 10, 2);
    sch.AddProcess(p);
    assert sch.processes == [p];
    sch.Run();
    SortIdempotent(sch.processes, [p]);
    ScheduleStep([p], 0, 0);
    assert sch.ganttChart == [Slot("P1", 10, 12)];
    assert p.startTime == Some(10) && p.completionTime == Some(12) && p.waitingTime == 0;
  }

  /** Simultaneous arrivals are dispatched in the order they were added. */
  method SimultaneousArrivals() {
    var sch := new Scheduler();
    var p1 := new Process("P1", 0, 4);
    var p2 := new Process("P2", 0, 2);
    sch.AddProcess(p1);
    sch.AddProcess(p2);
    sch.Run();
    SortIdempotent(sch.processes, [p1, p2]);
    ScheduleStep([p1, p2], 0, 0);
    ScheduleStep([p1, p2], 0, 1);
    assert sch.ganttChart == [Slot("P1", 0, 4), Slot("P2", 4, 6)];
  }

  /** Two processes in decreasing arrival order are stably sorted by swapping. */
  lemma SwapIsStableSort(p1: Process, p2: Process)
    requires p2.arrivalTime < p1.arrivalTime
    ensures IsStableSortOf([p2, p1], [p1, p2])
  {
    forall a
      ensures ArrivingAt([p2, p1], a) == ArrivingAt([p1, p2], a)
    {
      assert [p2, p1][1..] == [p1] && [p1, p2][1..] == [p2];
      assert [p1][1..] == [] && [p2][1..] == [];
    }
  }

  /** Processes added out of arrival order are reordered by `run`. */
  method OutOfOrder() {
    var sch := new Scheduler();
    var p1 := new Process("P1", 3, 1);
    var p2 := new Process("P2", 0, 2);
    sch.AddProcess(p1);
    sch.AddProcess(p2);
    sch.Run();
    SwapIsStableSort(p1, p2);
    StableSortUnique(sch.processes, [p2, p1]);
    ScheduleStep([p2, p1], 0, 0);
    ScheduleStep([p2, p1], 0, 1);
    assert sch.ganttChart == [Slot("P2", 0, 2), Slot("P1", 3, 4)];
  }

  /** Reporting before `run` fails on the first row: the process has no
      start time yet. */
  method ReportBeforeRun() {
    var sch := new Scheduler();
    var p := new Process("P1", 0, 5);
    sch.AddProcess(p);
    assert sch.processes == [p] && !HasTimes(p);
    assert exists q :: q in sch.processes && !HasTimes(q);
    var r := sch.ShowResults();
    assert exists q :: q in sch.processes && !HasTimes(q);
    assert r == Failure(NotScheduled);
  }

  /** With no processes the chart stays empty and the report fails. */
  method EmptyScheduler() {
    var sch := new Scheduler();
    sch.Run();
    assert sch.ganttChart == [];
    var r := sch.ShowResults();
    assert r == Failure(NoProcesses);
  }
}
