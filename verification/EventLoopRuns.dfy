/** Every way a run of the transition system can stop is a way the loop can: the kernel only has to answer as it
    did in the run. */
module EventLoopRuns {
  import opened Wrappers
  import opened Protocol
  import opened MachineSpecs
  import opened ExecutorModel
  import opened ExecutorInvariant
  import opened ExecutorSteps
  import opened ExecutorRuns
  import opened EventLoop

  /** A step of the loop that ends the run. */
  predicate StopsAt(s: Exec, step: Step, reason: Panic) {
    !step.Post? && Enabled(s, step) && Apply(s, step) == Panicked(reason)
  }

  // ---------- The listener's socket calls are made once ----------

  lemma ListenIsOver(s: Exec, listen: ListenResult, other: ListenResult)
    requires Inv(s) && s.cur != [] && !Server(s).state.Init?
    ensures DispatchEvent(s, listen) == DispatchEvent(s, other)
  {
    if s.cur[0].handle.poolId == TCP_SERVER {
      ListenerEvent(s);
      ListenerIoDispatch(s, listen);
      ListenerIoDispatch(s, other);
    }
  }

  lemma StaysStarted(s: Exec, step: Step)
    requires Inv(s) && Enabled(s, step) && Apply(s, step).Ok? && !Server(s).state.Init?
    ensures Inv(Apply(s, step).value) && !Server(Apply(s, step).value).state.Init?
  {
    StepInv(s, step);
    if step.Dispatch? {
      if s.cur[0].handle.poolId == TCP_SERVER {
        ListenerEvent(s);
        ListenerIoDispatch(s, step.listen);
      } else if s.cur[0].handle.id in s.conns.objects {
        var _, _ := HandlerShape(s, step.listen);
      }
    }
  }

  // ---------- The loop, one step at a time ----------

  /** What the loop does from within the collecting loop on. */
  ghost function FromCollect(s: Exec, listen: ListenResult, turns: Turns): Progress
    requires Inv(s) && s.cur == []
  {
    var c := CollectAll(s, turns);
    if c.panic.Some? then c
    else
      StepInv(c.s, Switch);
      Loop(Apply(c.s, Switch).value, listen, c.left)
  }

  lemma FirstTurn(answers: seq<Completion>, turns: Turns)
    ensures Now([answers] + turns) == answers && Later([answers] + turns) == turns
  {
  }

  /** The steps taken so far do not matter to what comes. */
  lemma SameAfterDrain(s: Exec, t: Exec, listen: ListenResult, turns: Turns, others: Turns)
    requires Inv(s) && Inv(t) && DrainAll(s, listen, turns).Ends(DrainAll(t, listen, others))
    ensures Loop(s, listen, turns).Ends(Loop(t, listen, others))
  {
    hide Inv, Answered, Posts, DrainAll, CollectAll;
  }

  lemma SameAfterCollect(s: Exec, t: Exec, listen: ListenResult, turns: Turns, others: Turns)
    requires Inv(s) && Inv(t) && s.cur == [] && t.cur == [] && CollectAll(s, turns).Ends(CollectAll(t, others))
    ensures FromCollect(s, listen, turns).Ends(FromCollect(t, listen, others))
  {
    hide Inv, Answered, Posts, CollectAll, Loop;
  }

  lemma DrainDispatches(s: Exec, listen: ListenResult, answers: seq<Completion>, turns: Turns)
    requires Inv(s) && Answered(s, answers).cur != [] && DispatchEvent(Answered(s, answers), listen).Ok?
    ensures var s2 := DispatchEvent(Answered(s, answers), listen).value;
      Inv(s2) && DrainAll(s, listen, [answers] + turns).Ends(DrainAll(s2, listen, turns))
  {
    AnsweredInv(s, answers);
    DispatchInv(Answered(s, answers), listen);
    FirstTurn(answers, turns);
    hide Inv, Answered, Posts, DispatchEvent, Now, Later;
  }

  lemma LoopDispatches(s: Exec, listen: ListenResult, answers: seq<Completion>, turns: Turns)
    requires Inv(s) && Answered(s, answers).cur != [] && DispatchEvent(Answered(s, answers), listen).Ok?
    ensures var s2 := DispatchEvent(Answered(s, answers), listen).value;
      Inv(s2) && Loop(s, listen, [answers] + turns).Ends(Loop(s2, listen, turns))
  {
    hide Inv, Answered, Posts, DispatchEvent, DrainAll, Loop;
    DrainDispatches(s, listen, answers, turns);
    SameAfterDrain(s, DispatchEvent(Answered(s, answers), listen).value, listen, [answers] + turns, turns);
  }

  lemma LoopStopsDraining(s: Exec, listen: ListenResult, answers: seq<Completion>, reason: Panic)
    requires Inv(s) && Answered(s, answers).cur != []
    requires DispatchEvent(Answered(s, answers), listen) == Panicked(reason)
    ensures var r := Loop(s, listen, [answers]); r.panic == Some(reason) && r.s == Answered(s, answers)
  {
    hide Inv, Answered, Posts, DispatchEvent;
  }

  lemma DrainEnds(s: Exec, listen: ListenResult, answers: seq<Completion>, turns: Turns)
    requires Inv(s) && Answered(s, answers).cur == []
    ensures DrainAll(s, listen, [answers] + turns) == Progress(Answered(s, answers), Posts(s, answers), turns, None)
  {
    FirstTurn(answers, turns);
    hide Inv, Answered, Posts, Now, Later;
  }

  lemma LoopLeavesDraining(s: Exec, listen: ListenResult, answers: seq<Completion>, turns: Turns)
    requires Inv(s) && Answered(s, answers).cur == []
    ensures Inv(Answered(s, answers))
    ensures Loop(s, listen, [answers] + ([[]] + turns)).Ends(FromCollect(Answered(s, answers), listen, turns))
  {
    AnsweredInv(s, answers);
    DrainEnds(s, listen, answers, [[]] + turns);
    NoAnswer(Answered(s, answers));
    hide Inv, Answered, Posts, DrainAll, CollectAll, Run, Enabled, Apply;
    assert ([[]] + turns)[1..] == turns;
  }

  lemma CollectCollects(s: Exec, answers: seq<Completion>, turns: Turns)
    requires Inv(s) && s.cur == [] && Answered(s, answers).k.cq != [] && CollectCompletion(Answered(s, answers)).Ok?
    ensures var s2 := CollectCompletion(Answered(s, answers)).value;
      Inv(s2) && s2.cur == [] && CollectAll(s, [answers] + turns).Ends(CollectAll(s2, turns))
  {
    AnsweredInv(s, answers);
    StepInv(Answered(s, answers), Collect);
    FirstTurn(answers, turns);
    hide Inv, Answered, Posts, Now, Later;
  }

  lemma LoopCollects(s: Exec, listen: ListenResult, answers: seq<Completion>, turns: Turns)
    requires Inv(s) && s.cur == [] && Answered(s, answers).k.cq != [] && CollectCompletion(Answered(s, answers)).Ok?
    ensures var s2 := CollectCompletion(Answered(s, answers)).value;
      && Inv(s2) && s2.cur == []
      && FromCollect(s, listen, [answers] + turns).Ends(FromCollect(s2, listen, turns))
  {
    hide Inv, Answered, Posts, CollectCompletion, CollectAll, FromCollect;
    CollectCollects(s, answers, turns);
    SameAfterCollect(s, CollectCompletion(Answered(s, answers)).value, listen, [answers] + turns, turns);
  }

  lemma LoopStopsCollecting(s: Exec, listen: ListenResult, answers: seq<Completion>, reason: Panic)
    requires Inv(s) && s.cur == [] && Answered(s, answers).k.cq != []
    requires CollectCompletion(Answered(s, answers)) == Panicked(reason)
    ensures var r := FromCollect(s, listen, [answers]); r.panic == Some(reason) && r.s == Answered(s, answers)
  {
    hide Inv, Answered, Posts;
  }

  lemma CollectEnds(s: Exec, answers: seq<Completion>, turns: Turns)
    requires Inv(s) && s.cur == [] && Answered(s, answers).k.cq == []
    ensures CollectAll(s, [answers] + turns) == Progress(Answered(s, answers), Posts(s, answers), turns, None)
  {
    FirstTurn(answers, turns);
    hide Inv, Answered, Posts, Now, Later;
  }

  lemma SwitchInv(s: Exec)
    requires Inv(s) && s.cur == [] && s.k.cq == []
    ensures Enabled(s, Switch) && Inv(Apply(s, Switch).value)
  {
    StepInv(s, Switch);
    hide Inv;
  }

  lemma LoopSwitches(s: Exec, listen: ListenResult, answers: seq<Completion>, turns: Turns)
    requires Inv(s) && s.cur == [] && Answered(s, answers).k.cq == []
    ensures Enabled(Answered(s, answers), Switch)
    ensures var s2 := Apply(Answered(s, answers), Switch).value;
      Inv(s2) && FromCollect(s, listen, [answers] + turns).Ends(Loop(s2, listen, turns))
  {
    AnsweredInv(s, answers);
    SwitchInv(Answered(s, answers));
    CollectEnds(s, answers, turns);
    hide Inv, Answered, Posts, CollectAll, Loop, Run, Enabled, Apply;
  }

  // ---------- A run gives the answers ----------

  /** What the kernel answers before the loop's next step. */
  lemma {:induction false} LeadingPosts(s: Exec, steps: seq<Step>, t: Exec)
    returns (answers: seq<Completion>, rest: seq<Step>)
    requires Inv(s) && Run(s, steps, t)
    ensures Run(Answered(s, answers), rest, t) && |rest| <= |steps|
    ensures rest == [] || !rest[0].Post?
    decreases |steps|
  {
    if steps == [] || !steps[0].Post? {
      answers, rest := [], steps;
    } else {
      var Post(i, res, flags, fill) := steps[0];
      var a := Completion(i, res, flags, fill);
      StepInv(s, steps[0]);
      var more;
      more, rest := LeadingPosts(Apply(s, steps[0]).value, steps[1..], t);
      answers := [a] + more;
      assert answers[1..] == more;
    }
  }

  lemma {:induction false} StaysStartedAnswered(s: Exec, answers: seq<Completion>)
    requires Inv(s) && !Server(s).state.Init?
    ensures Inv(Answered(s, answers)) && !Server(Answered(s, answers)).state.Init?
    decreases |answers|
  {
    if answers != [] {
      var step := answers[0].Posting();
      if Enabled(s, step) {
        StaysStarted(s, step);
        StaysStartedAnswered(Apply(s, step).value, answers[1..]);
      } else {
        StaysStartedAnswered(s, answers[1..]);
      }
    }
  }

  /** From within the drain loop the answers of a run lead to where it stops. */
  lemma {:induction false} DrainReaches(s: Exec, listen: ListenResult, steps: seq<Step>, t: Exec, last: Step,
                                        reason: Panic)
    returns (turns: Turns)
    requires Inv(s) && !Server(s).state.Init? && Run(s, steps, t) && StopsAt(t, last, reason)
    ensures var r := Loop(s, listen, turns); r.panic == Some(reason) && r.s == t
    decreases |steps|, 1
  {
    var answers, rest := LeadingPosts(s, steps, t);
    StaysStartedAnswered(s, answers);
    AnsweredInv(s, answers);
    var s1 := Answered(s, answers);
    if s1.cur == [] {
      var more := CollectReaches(s1, listen, rest, t, last, reason);
      LoopLeavesDraining(s, listen, answers, more);
      turns := [answers] + ([[]] + more);
    } else if rest == [] {
      ListenIsOver(s1, last.listen, listen);
      LoopStopsDraining(s, listen, answers, reason);
      turns := [answers];
    } else {
      ListenIsOver(s1, rest[0].listen, listen);
      StaysStarted(s1, rest[0]);
      var more := DrainReaches(Apply(s1, rest[0]).value, listen, rest[1..], t, last, reason);
      LoopDispatches(s, listen, answers, more);
      turns := [answers] + more;
    }
  }

  /** With nothing left to dispatch the loop collects while there are completions, then switches. */
  lemma CollectsOrSwitches(s: Exec, steps: seq<Step>, t: Exec)
    requires Inv(s) && !Server(s).state.Init? && s.cur == []
    requires Run(s, steps, t) && steps != [] && !steps[0].Post?
    ensures Enabled(s, steps[0]) && Apply(s, steps[0]).Ok?
    ensures var s2 := Apply(s, steps[0]).value;
      && Inv(s2) && !Server(s2).state.Init? && Run(s2, steps[1..], t)
      && (if steps[0].Collect? then s.k.cq != [] && CollectCompletion(s) == Ok(s2) && s2.cur == []
          else steps[0].Switch? && s.k.cq == [])
  {
    StaysStarted(s, steps[0]);
    hide Inv, Server, PostCompletion, DispatchEvent;
  }

  /** And from within the collecting loop. */
  lemma {:induction false} CollectReaches(s: Exec, listen: ListenResult, steps: seq<Step>, t: Exec, last: Step,
                                          reason: Panic)
    returns (turns: Turns)
    requires Inv(s) && !Server(s).state.Init? && s.cur == [] && Run(s, steps, t) && StopsAt(t, last, reason)
    ensures var r := FromCollect(s, listen, turns); r.panic == Some(reason) && r.s == t
    decreases |steps|, 0
  {
    var answers, rest := LeadingPosts(s, steps, t);
    StaysStartedAnswered(s, answers);
    AnsweredInv(s, answers);
    var s1 := Answered(s, answers);
    if rest == [] {
      hide Inv, Tables, Answered, FromCollect, Loop, Server;
      LoopStopsCollecting(s, listen, answers, reason);
      turns := [answers];
    } else {
      CollectsOrSwitches(s1, rest, t);
      var s2 := Apply(s1, rest[0]).value;
      hide *;
      var more;
      if rest[0].Collect? {
        more := CollectReaches(s2, listen, rest[1..], t, last, reason);
        LoopCollects(s, listen, answers, more);
      } else {
        more := DrainReaches(s2, listen, rest[1..], t, last, reason);
        LoopSwitches(s, listen, answers, more);
      }
      turns := [answers] + more;
    }
  }

  /** For every run that the next step of the loop stops there are answers with which the loop, started anew,
      stops in the same state in the same panic. */
  lemma LoopReaches(c: Config, steps: seq<Step>, s: Exec, last: Step, reason: Panic)
    returns (listen: ListenResult, turns: Turns)
    requires Reached(c, steps, s) && StopsAt(s, last, reason)
    ensures Inv(c.Begin())
    ensures var r := Loop(c.Begin(), listen, turns); r.panic == Some(reason) && r.s == s
  {
    var s0 := c.Begin();
    ReachedInv(c, [], s0);
    var first := if steps == [] then last else steps[0];
    assert first.Dispatch?;
    listen := first.listen;
    ListenerSpawnDispatch(s0, listen);
    StepInv(s0, first);
    var more := DrainReaches(Apply(s0, first).value, listen, steps[1..], s, last, reason);
    NoAnswer(s0);
    LoopDispatches(s0, listen, [], more);
    turns := [[]] + more;
  }

  /** The loop can stop in a panic exactly when a run of the transition system can. */
  lemma LoopPanicsIff(c: Config, reason: Panic)
    requires c.Valid()
    ensures Inv(c.Begin())
    ensures (exists listen, turns :: Loop(c.Begin(), listen, turns).panic == Some(reason))
       <==> (exists steps, s, last :: Reached(c, steps, s) && StopsAt(s, last, reason))
  {
    LoopStops(c, Listening(3), []);
    if listen, turns :| Loop(c.Begin(), listen, turns).panic == Some(reason) {
      var r := Loop(c.Begin(), listen, turns);
      LoopStops(c, listen, turns);
      LoopFollows(c.Begin(), listen, turns);
      var last :| StopsIn(r, last);
      assert Reached(c, r.steps, r.s) && StopsAt(r.s, last, reason);
    }
    if steps, s, last :| Reached(c, steps, s) && StopsAt(s, last, reason) {
      var listen, turns := LoopReaches(c, steps, s, last, reason);
    }
  }
}
