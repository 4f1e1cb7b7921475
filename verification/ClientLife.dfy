/** How the interleaved steps make up the operations of the client object, and how a client stops. */
module ClientLife {
  import opened ClientRuntime
  import opened ClientRuns
  import opened AdmissionBound

  // The operations of the object, run alone.

  /** `Acquire`: the callback runs at once, or the request is refused and then queued at the end. */
  lemma AcquireRefines(s: Client, q: Request)
    ensures var (buckets, ok) := TryTake(s.buckets, q, s.now);
            if ok then Enabled(s, Hit(q)) && Next(s, Hit(q)) == s.(buckets := buckets)
            else
              && Enabled(s, Miss(q)) && Enabled(Next(s, Miss(q)), Enqueue(|s.callers|))
              && Next(Next(s, Miss(q)), Enqueue(|s.callers|)) == s.(buckets := buckets, queue := s.queue + [q])
  {
    hide TryTake;
    assert (s.callers + [q])[..|s.callers|] + (s.callers + [q])[|s.callers| + 1..] == s.callers;
  }

  /** `Start`: the client runs, its worker is at the head of its loop, and the first response is applied. */
  lemma StartRefines(s: Client, allocations: map<int, real>)
    requires s.phase.Idle?
    ensures Enabled(s, Launch) && Enabled(Next(s, Launch), Apply(allocations))
    ensures Next(Next(s, Launch), Apply(allocations)) ==
            s.(phase := Running, worker := Top, buckets := Reconcile(s.buckets, allocations, s.now))
  {
  }

  /** An iteration that finds no request changes nothing. */
  lemma EmptyTurn(s: Client)
    requires s.worker.Top? && s.phase.Running? && s.queue == []
    ensures Enabled(s, Enter) && Enabled(Next(s, Enter), TimeOut) && Next(Next(s, Enter), TimeOut) == s
  {
  }

  // Stopping.

  lemma Single(s: Client, step: Step)
    requires Enabled(s, step)
    ensures Legal(s, [step]) && After(s, [step]) == Next(s, step)
  {
    assert [step][..0] == [];
    hide Enabled, Next;
    assert Legal(s, []) && After(s, []) == s;
  }

  /** What the worker leaves behind. */
  ghost predicate Left(s: Client, t: Client) {
    t == s.(worker := Exited, buckets := t.buckets, queue := t.queue)
  }

  lemma StepOn(s: Client, steps: seq<Step>, step: Step) returns (more: seq<Step>)
    requires Legal(s, steps) && Enabled(After(s, steps), step)
    ensures more == steps + [step] && Legal(s, more) && After(s, more) == Next(After(s, steps), step)
  {
    OneStep(s, steps, step);
    more := steps + [step];
  }

  /** A worker holding a request runs it or puts it back, and leaves its loop. */
  lemma PutDown(s: Client, steps: seq<Step>) returns (more: seq<Step>)
    requires Legal(s, steps) && After(s, steps).phase.Halting? && After(s, steps).worker.Holding?
    ensures Legal(s, more) && Left(After(s, steps), After(s, more))
  {
    var t := After(s, steps);
    hide Legal, After, TryTake;
    if TryTake(t.buckets, t.worker.q, t.now).1 {
      more := StepOn(s, steps, Run);
    } else {
      more := StepOn(s, steps, Refuse);
      more := StepOn(s, more, Requeue);
    }
    more := StepOn(s, more, Leave);
  }

  /** Once halted, the worker can always leave its loop, wherever it is. */
  lemma WorkerLeaves(s: Client, steps: seq<Step>) returns (more: seq<Step>)
    requires Legal(s, steps) && After(s, steps).phase.Halting?
    ensures Legal(s, more) && Left(After(s, steps), After(s, more))
  {
    var t := After(s, steps);
    hide Legal, After, TryTake;
    match t.worker {
      case Exited => more := steps;
      case Top => more := StepOn(s, steps, Leave);
      case Holding(q) => more := PutDown(s, steps);
      case Refused(q) =>
        more := StepOn(s, steps, Requeue);
        more := StepOn(s, more, Leave);
      case Waiting =>
        if t.queue == [] {
          more := StepOn(s, steps, Break);
        } else {
          more := StepOn(s, steps, Pop);
          more := PutDown(s, more);
        }
    }
  }

  /** With the worker out of its loop the rest of the stop is three steps. */
  lemma FinishStop(s: Client, steps: seq<Step>) returns (more: seq<Step>)
    requires Legal(s, steps) && After(s, steps).phase.Halting? && After(s, steps).worker.Exited?
    ensures Legal(s, more) && After(s, more) == After(s, steps).(phase := Idle, buckets := map[], queue := [])
  {
    hide Legal, After;
    more := StepOn(s, steps, Join);
    more := StepOn(s, more, ClearBuckets);
    more := StepOn(s, more, ClearQueue);
  }

  /**
   * A stop can always be completed, whatever the worker is doing: it leaves its loop, is joined, and the client ends
   * idle with no buckets and an empty queue, as the object's `Stop` says.
   */
  lemma StopCompletes(s: Client) returns (steps: seq<Step>)
    requires s.phase.Running?
    ensures Legal(s, steps)
    ensures After(s, steps) == s.(phase := Idle, worker := Exited, buckets := map[], queue := [])
  {
    assert Enabled(s, Halt) && Next(s, Halt) == s.(phase := Halting);
    hide Legal, After, Next, Enabled;
    Single(s, Halt);
    steps := WorkerLeaves(s, [Halt]);
    steps := FinishStop(s, steps);
  }

  // After the buckets have been cleared.

  predicate Silent(step: Step) {
    !step.Apply?
  }

  lemma NothingAtOnce(s: Client, step: Step, r: int)
    requires s.buckets == map[] && Enabled(s, step) && Silent(step)
    ensures Next(s, step).buckets == map[] && Charge(s, step, r) == 0.0
    ensures !step.Hit? && !step.Run?
  {
  }

  lemma {:induction false} NothingWithoutBuckets(s: Client, steps: seq<Step>, r: int)
    requires s.buckets == map[] && Legal(s, steps) && forall step | step in steps :: Silent(step)
    ensures After(s, steps).buckets == map[] && Admitted(s, steps, r) == 0.0
    ensures forall step | step in steps :: !step.Hit? && !step.Run?
  {
    hide Enabled, Next, Charge, Silent;
    if steps != [] {
      var n := |steps| - 1;
      assert steps == steps[..n] + [steps[n]] && steps[n] in steps;
      NothingWithoutBuckets(s, steps[..n], r);
      NothingAtOnce(After(s, steps[..n]), steps[n], r);
    }
  }

  /** After `Stop` has cleared the buckets nothing runs, by either path, until a response is applied. */
  lemma StoppedAdmitsNothing(s: Client, steps: seq<Step>, r: int)
    requires Enabled(s, ClearBuckets)
    requires Legal(Next(s, ClearBuckets), steps) && forall step | step in steps :: !step.Apply?
    ensures Admitted(Next(s, ClearBuckets), steps, r) == 0.0
    ensures forall step | step in steps :: !step.Hit? && !step.Run?
  {
    NothingWithoutBuckets(Next(s, ClearBuckets), steps, r);
  }
}
