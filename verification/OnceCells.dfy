/** One cell of a pinned block, asked for by any number of requests at once:
    one of them calls the factory while the others wait. */
module OnceCells {
  import opened Chain

  type RequestId = nat

  datatype Phase<V> = Waiting | Initializing | Answered(answer: Option<V>)

  /** `calls` and `failures` count the factory calls begun, and those that
      failed or were given up. */
  datatype Cell<V> = Cell(value: Option<V>, requests: map<RequestId, Phase<V>>, initializer: Option<RequestId>,
                          calls: nat, failures: nat)

  datatype Step<V> =
    | Ask(id: RequestId)
    | Begin(id: RequestId)                     // the factory is called
    | Finish(id: RequestId, made: Option<V>)   // and answers
    | Share(id: RequestId)                     // the cell is full already
    | GiveUp(id: RequestId)                    // the request goes away, waiting or not

  predicate Enabled<V>(c: Cell<V>, step: Step<V>) {
    match step
    case Ask(id) => id !in c.requests
    case Begin(id) => id in c.requests && c.requests[id].Waiting? && c.value.None? && c.initializer.None?
    case Finish(id, _) => id in c.requests && c.requests[id].Initializing?
    case Share(id) => id in c.requests && c.requests[id].Waiting? && c.value.Some?
    case GiveUp(id) => id in c.requests
  }

  function Next<V>(c: Cell<V>, step: Step<V>): Cell<V>
    requires Enabled(c, step)
  {
    match step
    case Ask(id) => c.(requests := c.requests[id := Waiting])
    case Begin(id) => c.(requests := c.requests[id := Initializing], initializer := Some(id), calls := c.calls + 1)
    case Finish(id, made) =>
      c.(requests := c.requests[id := Answered(made)], initializer := None,
         value := if made.Some? then made else c.value, failures := c.failures + if made.Some? then 0 else 1)
    case Share(id) => c.(requests := c.requests[id := Answered(c.value)])
    case GiveUp(id) =>
      var gone := c.(requests := c.requests - {id});
      if c.requests[id].Initializing? then gone.(initializer := None, failures := c.failures + 1) else gone
  }

  function NewCell<V>(): Cell<V> {
    Cell(None, map[], None, 0, 0)
  }

  ghost predicate IsRun<V(!new)>(steps: seq<Step<V>>, trace: seq<Cell<V>>) {
    && |trace| == |steps| + 1
    && trace[0] == NewCell()
    && forall i :: 0 <= i < |steps| ==> Follows(steps, trace, i)
  }

  ghost predicate Follows<V(!new)>(steps: seq<Step<V>>, trace: seq<Cell<V>>, i: nat)
    requires i < |steps| < |trace|
  {
    Enabled(trace[i], steps[i]) && trace[i + 1] == Next(trace[i], steps[i])
  }

  /** The factory is called by the one initializer and nobody else, only while
      the cell is empty, and every call failed, succeeded or still runs. */
  ghost predicate Inv<V(!new)>(c: Cell<V>) {
    && (forall id :: id in c.requests && c.requests[id].Initializing? <==> c.initializer == Some(id))
    && (c.initializer.Some? ==> c.value.None?)
    && (forall id :: id in c.requests && c.requests[id].Answered? && c.requests[id].answer.Some? ==>
        c.requests[id].answer == c.value)
    && c.calls == c.failures + (if c.initializer.Some? then 1 else 0) + (if c.value.Some? then 1 else 0)
  }

  lemma StepKeeps<V(!new)>(c: Cell<V>, step: Step<V>)
    requires Inv(c) && Enabled(c, step)
    ensures Inv(Next(c, step))
    ensures c.value.Some? ==> Next(c, step).value == c.value
  {
  }

  lemma {:induction false} RunKeeps<V(!new)>(steps: seq<Step<V>>, trace: seq<Cell<V>>, n: nat)
    requires IsRun(steps, trace) && n <= |steps|
    ensures Inv(trace[n])
  {
    if n > 0 {
      RunKeeps(steps, trace, n - 1);
      assert Follows(steps, trace, n - 1);
      StepKeeps(trace[n - 1], steps[n - 1]);
    }
  }

  /** Over any run, however requests overlap: the factory has been called once
      more than it failed at most, so without failures once; nobody is answered
      with anything but the cell's value; and two requests never call it at
      once. */
  lemma RequestsCollapse<V(!new)>(steps: seq<Step<V>>, trace: seq<Cell<V>>, n: nat, i: RequestId, j: RequestId)
    requires IsRun(steps, trace) && n <= |steps| && i in trace[n].requests && j in trace[n].requests
    ensures trace[n].calls <= trace[n].failures + 1
    ensures var (a, b) := (trace[n].requests[i], trace[n].requests[j]);
      && (a.Initializing? && b.Initializing? ==> i == j)
      && (a.Answered? && a.answer.Some? && b.Answered? && b.answer.Some? ==> a.answer == b.answer == trace[n].value)
  {
    RunKeeps(steps, trace, n);
  }

  /** Once full, a cell is full of the same for good, and calls the factory no
      more. */
  lemma {:induction false} FullForGood<V(!new)>(steps: seq<Step<V>>, trace: seq<Cell<V>>, m: nat, n: nat)
    requires IsRun(steps, trace) && m <= n <= |steps| && trace[m].value.Some?
    ensures trace[n].value == trace[m].value && trace[n].calls == trace[m].calls
  {
    if m < n {
      FullForGood(steps, trace, m, n - 1);
      RunKeeps(steps, trace, n - 1);
      assert Follows(steps, trace, n - 1);
    }
  }

  /** Whoever is answered once the cell is full is answered with its value: a
      request that found it full, or was waiting when it filled, never fails. */
  lemma {:induction false} FullAnswersAll<V(!new)>(steps: seq<Step<V>>, trace: seq<Cell<V>>, m: nat, n: nat,
                                                   id: RequestId)
    requires IsRun(steps, trace) && m <= n <= |steps| && trace[m].value.Some?
    requires id !in trace[m].requests || !trace[m].requests[id].Answered?
    ensures id in trace[n].requests && trace[n].requests[id].Answered? ==>
            trace[n].requests[id].answer == trace[m].value
  {
    if m < n {
      FullAnswersAll(steps, trace, m, n - 1, id);
      FullForGood(steps, trace, m, n - 1);
      RunKeeps(steps, trace, n - 1);
      assert Follows(steps, trace, n - 1);
    }
  }

  ghost predicate Moves<V(!new)>(c: Cell<V>, step: Step<V>) {
    !step.Ask? && !step.GiveUp? && Enabled(c, step)
  }

  /** Nobody waits for nothing: while a request is unanswered it can go on, or
      the one that is calling the factory will end. A failure leaves the cell
      to the next. */
  lemma NobodyIsStuck<V(!new)>(steps: seq<Step<V>>, trace: seq<Cell<V>>, n: nat, id: RequestId)
    requires IsRun(steps, trace) && n <= |steps| && id in trace[n].requests && !trace[n].requests[id].Answered?
    ensures exists step :: Moves(trace[n], step) && (step.id == id || trace[n].initializer == Some(step.id))
  {
    RunKeeps(steps, trace, n);
    var c := trace[n];
    if c.value.Some? {
      assert Moves(c, Share(id));
    } else if c.initializer.Some? {
      assert Moves(c, Finish(c.initializer.value, None));
    } else {
      assert Moves(c, Begin(id));
    }
  }
}
