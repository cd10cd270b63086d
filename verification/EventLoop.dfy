/** The loop of `run` as a function: what it has done once the kernel has given certain answers. */
module EventLoop {
  import opened Wrappers
  import opened ObjectHandles
  import opened Protocol
  import opened MachineSpecs
  import opened ExecutorModel
  import opened ExecutorInvariant
  import opened ExecutorSteps
  import opened ExecutorRuns
  import opened SingleFlightSteps
  import opened SingleFlightRuns

  // ---------- The kernel's answers ----------

  /** One answer of the kernel: to which request, and what. */
  datatype Completion = Completion(i: nat, res: int, flags: nat, fill: seq<byte>) {
    function Posting(): Step { Post(i, res, flags, fill) }
  }

  /** The kernel gives some answers, one after the other; those it may not give then are skipped. */
  function Answered(s: Exec, answers: seq<Completion>): Exec
    decreases |answers|
  {
    if answers == [] then s
    else if Enabled(s, answers[0].Posting()) then Answered(Apply(s, answers[0].Posting()).value, answers[1..])
    else Answered(s, answers[1..])
  }

  /** The steps that this is. */
  function Posts(s: Exec, answers: seq<Completion>): seq<Step>
    decreases |answers|
  {
    if answers == [] then []
    else if Enabled(s, answers[0].Posting()) then
      [answers[0].Posting()] + Posts(Apply(s, answers[0].Posting()).value, answers[1..])
    else Posts(s, answers[1..])
  }

  lemma NoAnswer(s: Exec)
    ensures Answered(s, []) == s && Posts(s, []) == []
  {
  }

  lemma {:induction false} AnsweredInv(s: Exec, answers: seq<Completion>)
    requires Inv(s)
    ensures Inv(Answered(s, answers)) && Run(s, Posts(s, answers), Answered(s, answers))
    ensures Answered(s, answers).cur == s.cur && Answered(s, answers).next == s.next
    decreases |answers|
  {
    if answers != [] {
      var step := answers[0].Posting();
      if Enabled(s, step) {
        StepInv(s, step);
        var t := Apply(s, step).value;
        AnsweredInv(t, answers[1..]);
        assert ([step] + Posts(t, answers[1..]))[1..] == Posts(t, answers[1..]);
      } else {
        AnsweredInv(s, answers[1..]);
      }
    }
  }

  // ---------- The loops ----------

  /** `turns` are the answers given before each iteration of the inner loops and while `submit_and_wait` waits. */
  type Turns = seq<seq<Completion>>

  function Now(turns: Turns): seq<Completion> { if turns == [] then [] else turns[0] }
  function Later(turns: Turns): Turns { if turns == [] then [] else turns[1..] }

  /** The state reached, the steps taken, the answers left, and the panic in which the next step ends the run. */
  datatype Progress = Progress(s: Exec, steps: seq<Step>, left: Turns, panic: Option<Panic>) {
    function After(before: seq<Step>): Progress { this.(steps := before + steps) }

    /** The same but for the steps. */
    predicate Ends(r: Progress) { s == r.s && left == r.left && panic == r.panic }
  }

  /** Events are handled until the current queue is empty, though handling one may queue another. */
  ghost function DrainAll(s: Exec, listen: ListenResult, turns: Turns): (r: Progress)
    requires Inv(s)
    ensures r.panic.None? ==> Inv(r.s) && r.s.cur == []
    ensures |r.left| <= |turns|
    decreases DrainMeasure(s.cur)
  {
    AnsweredInv(s, Now(turns));
    var s1 := Answered(s, Now(turns));
    var posts := Posts(s, Now(turns));
    if s1.cur == [] then Progress(s1, posts, Later(turns), None)
    else
      DispatchInv(s1, listen);
      match DispatchEvent(s1, listen)
      case Panicked(reason) => Progress(s1, posts, Later(turns), Some(reason))
      case Ok(s2) =>
        DrainTerminates(s1, listen);
        DrainAll(s2, listen, Later(turns)).After(posts + [Dispatch(listen)])
  }

  /** Completions go to the next queue until none is left, also those posted meanwhile. */
  ghost function CollectAll(s: Exec, turns: Turns): (r: Progress)
    requires Inv(s) && s.cur == []
    ensures r.panic.None? ==> Inv(r.s) && r.s.cur == [] && r.s.k.cq == []
    ensures |r.left| <= |turns|
    decreases |turns|, |s.k.cq|
  {
    AnsweredInv(s, Now(turns));
    var s1 := Answered(s, Now(turns));
    var posts := Posts(s, Now(turns));
    if s1.k.cq == [] then Progress(s1, posts, Later(turns), None)
    else
      StepInv(s1, Collect);
      match CollectCompletion(s1)
      case Panicked(reason) => Progress(s1, posts, Later(turns), Some(reason))
      case Ok(s2) => CollectAll(s2, Later(turns)).After(posts + [Collect])
  }

  /** Drain, wait, collect, switch; without more answers the wait does not end. */
  ghost function Loop(s: Exec, listen: ListenResult, turns: Turns): (r: Progress)
    requires Inv(s)
    ensures r.panic.None? ==> Inv(r.s) && r.s.cur == [] && r.left == []
    decreases |turns|
  {
    var d := DrainAll(s, listen, turns);
    if d.panic.Some? || d.left == [] then d
    else
      AnsweredInv(d.s, d.left[0]);
      var c := CollectAll(Answered(d.s, d.left[0]), d.left[1..]).After(d.steps + Posts(d.s, d.left[0]));
      if c.panic.Some? then c
      else
        StepInv(c.s, Switch);
        Loop(Apply(c.s, Switch).value, listen, c.left).After(c.steps + [Switch])
  }

  // ---------- The loop follows the model ----------

  /** The steps lead from `s` to the state reached, and the panic is that of a step of the loop there. */
  ghost predicate Follows(s: Exec, r: Progress) {
    Run(s, r.steps, r.s) && (r.panic.Some? ==> exists step :: StopsIn(r, step))
  }

  ghost predicate StopsIn(r: Progress, step: Step) {
    r.panic.Some? && !step.Post? && Enabled(r.s, step) && Apply(r.s, step) == Panicked(r.panic.value)
  }

  lemma FollowsAfter(s: Exec, before: seq<Step>, t: Exec, r: Progress)
    requires Run(s, before, t) && Follows(t, r)
    ensures Follows(s, r.After(before))
  {
    RunConcat(s, before, t, r.steps, r.s);
    if r.panic.Some? {
      var step :| StopsIn(r, step);
      assert StopsIn(r.After(before), step);
    }
  }

  /** Answers, and then a step of the loop. */
  lemma AnsweredThen(s: Exec, answers: seq<Completion>, step: Step)
    requires Inv(s) && Enabled(Answered(s, answers), step) && Apply(Answered(s, answers), step).Ok?
    ensures Run(s, Posts(s, answers) + [step], Apply(Answered(s, answers), step).value)
  {
    AnsweredInv(s, answers);
    RunSnoc(s, Posts(s, answers), Answered(s, answers), step);
  }

  lemma {:induction false} DrainFollows(s: Exec, listen: ListenResult, turns: Turns)
    requires Inv(s)
    ensures Follows(s, DrainAll(s, listen, turns))
    decreases DrainMeasure(s.cur)
  {
    AnsweredInv(s, Now(turns));
    var s1 := Answered(s, Now(turns));
    if s1.cur != [] {
      DispatchInv(s1, listen);
      match DispatchEvent(s1, listen) {
        case Panicked(_) => assert StopsIn(DrainAll(s, listen, turns), Dispatch(listen));
        case Ok(s2) =>
          DrainTerminates(s1, listen);
          DrainFollows(s2, listen, Later(turns));
          AnsweredThen(s, Now(turns), Dispatch(listen));
          FollowsAfter(s, Posts(s, Now(turns)) + [Dispatch(listen)], s2, DrainAll(s2, listen, Later(turns)));
      }
    }
  }

  lemma {:induction false} CollectFollows(s: Exec, turns: Turns)
    requires Inv(s) && s.cur == []
    ensures Follows(s, CollectAll(s, turns))
    decreases |turns|, |s.k.cq|
  {
    AnsweredInv(s, Now(turns));
    var s1 := Answered(s, Now(turns));
    if s1.k.cq != [] {
      StepInv(s1, Collect);
      match CollectCompletion(s1) {
        case Panicked(_) => assert StopsIn(CollectAll(s, turns), Collect);
        case Ok(s2) =>
          CollectFollows(s2, Later(turns));
          AnsweredThen(s, Now(turns), Collect);
          FollowsAfter(s, Posts(s, Now(turns)) + [Collect], s2, CollectAll(s2, Later(turns)));
      }
    }
  }

  lemma {:induction false} LoopFollows(s: Exec, listen: ListenResult, turns: Turns)
    requires Inv(s)
    ensures Follows(s, Loop(s, listen, turns))
    decreases |turns|
  {
    var d := DrainAll(s, listen, turns);
    DrainFollows(s, listen, turns);
    if d.panic.None? && d.left != [] {
      AnsweredInv(d.s, d.left[0]);
      var w := Answered(d.s, d.left[0]);
      var c := CollectAll(w, d.left[1..]);
      CollectFollows(w, d.left[1..]);
      RunConcat(s, d.steps, d.s, Posts(d.s, d.left[0]), w);
      FollowsAfter(s, d.steps + Posts(d.s, d.left[0]), w, c);
      if c.panic.None? {
        var before := d.steps + Posts(d.s, d.left[0]) + c.steps;
        StepInv(c.s, Switch);
        RunSnoc(s, before, c.s, Switch);
        LoopFollows(Apply(c.s, Switch).value, listen, c.left);
        FollowsAfter(s, before + [Switch], Apply(c.s, Switch).value, Loop(Apply(c.s, Switch).value, listen, c.left));
      }
    }
  }

  /** The whole run, with whatever the kernel answers and when: it is a run of the model, it goes on until the
      answers are used up, and it stops only in six panics; in four if no receive completes with an errno that
      leaves other than one request in flight, and the pool has a slot for each descriptor. */
  lemma LoopStops(c: Config, listen: ListenResult, turns: Turns)
    requires c.Valid()
    ensures Inv(c.Begin())
    ensures var r := Loop(c.Begin(), listen, turns);
      && Reached(c, r.steps, r.s)
      && (r.panic.None? ==> r.left == [] && r.s.cur == [])
      && (r.panic.Some? ==> Reachable(r.panic.value))
      && (r.panic.Some? && SingleFlight(c.Begin(), r.steps) ==>
            || r.panic.value in {UnexpectedIoError, GenerationOverflow, BufferFull, CompletionQueueFull}
            || (r.panic.value == HandlerPoolFull && POOL_MASK < c.handlers))
  {
    StartInv(c.ListenerSlots(), c.Slots(), c.handlers, c.bufs, c.mem);
    var r := Loop(c.Begin(), listen, turns);
    LoopFollows(c.Begin(), listen, turns);
    if r.panic.Some? {
      var step :| StopsIn(r, step);
      ReachedInv(c, r.steps, r.s);
      StepInv(r.s, step);
      if SingleFlight(c.Begin(), r.steps) {
        ReachedSF(c, r.steps, r.s);
        StepSF(r.s, step);
      }
    }
  }
}
