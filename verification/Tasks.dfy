/** The timing half of a task (src/core/task.cpp) and the two event kinds the
    engines use.  Times are exact reals in milliseconds. */
module Tasks {
  type TaskId = nat

  datatype Task = Task(
    arrival: real, execution: real, remaining: real,
    start: real, completion: real, wait: real, preemptions: nat,
    inReady: bool, readySince: real)
  {
    function Begin(time: real): Task {
      if start < 0.0 then this.(start := time) else this
    }

    function Complete(time: real): Task {
      this.(completion := time)
    }

    function Execute(duration: real): Task {
      var left := remaining - duration;
      this.(remaining := if left < 0.0 then 0.0 else left)
    }

    predicate IsCompleted() {
      remaining <= 0.001
    }

    function MarkReady(time: real): Task {
      this.(inReady := true, readySince := time)
    }

    function MarkDispatched(time: real): Task {
      if !inReady then this
      else this.(wait := wait + Max(0.0, time - readySince), inReady := false)
    }

    function ResponseTime(): real {
      if start < 0.0 then 0.0 else start - arrival
    }

    function TurnaroundTime(): real {
      if completion < 0.0 then 0.0 else completion - arrival
    }
  }

  function NewTask(arrival: real, execution: real): Task {
    Task(arrival, execution, execution, -1.0, -1.0, 0.0, 0, false, 0.0)
  }

  datatype Event =
    | Arrival(time: real, id: TaskId)
    | TimeSlice(time: real, id: TaskId, core: nat)

  function Min(a: real, b: real): real {
    if b < a then b else a
  }

  function Max(a: real, b: real): real {
    if a < b then b else a
  }
}
