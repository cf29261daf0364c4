/**
  The worker's admission loop, its running handlers and the AIMD loop, sharing
  one event loop (worker/bootstrap/supervisor.py and AdmissionState of
  worker/domain/admission.py).  At every await any running handler may finish
  and the target may be set to anything.
*/
module Supervisor {
  import opened Prelude
  import opened Aimd

  type TaskId = nat
  type MessageId = int

  class AdmissionState {
    var target: int
    const maxPerInstance: int
    var actualInflight: nat

    constructor (initialTarget: int, maxPerInstance: int)
      ensures target == initialTarget && this.maxPerInstance == maxPerInstance && actualInflight == 0
    {
      target := initialTarget;
      this.maxPerInstance := maxPerInstance;
      actualInflight := 0;
    }

    predicate CanAdmit()
      reads this
      ensures CanAdmit() ==> actualInflight < maxPerInstance && actualInflight < target
    {
      actualInflight < Min(target, maxPerInstance)
    }

    method SetTarget(target: int)
      modifies this`target
      ensures this.target == target
    {
      this.target := target;
    }

    method Admitted()
      modifies this`actualInflight
      ensures actualInflight == old(actualInflight) + 1
    {
      actualInflight := actualInflight + 1;
    }

    /** False stands for the RuntimeError of completing when nothing is in flight. */
    method Completed() returns (ok: bool)
      modifies this`actualInflight
      ensures ok <==> old(actualInflight) > 0
      ensures actualInflight == if ok then old(actualInflight) - 1 else old(actualInflight)
    {
      ok := actualInflight > 0;
      if ok {
        actualInflight := actualInflight - 1;
      }
    }
  }

  class AdmissionSupervisor {
    const state: AdmissionState
    const calm: bool                      // no cooldown, a message at every fetch, and no handler finishes nor target moves meanwhile
    var running: set<TaskId>              // handlers started and not finished
    var tasks: map<TaskId, MessageId>     // the dictionary; the done callback pops a task a little later
    var nextTask: TaskId
    var released: seq<MessageId>          // interrupted investigations released and naked
    // History, which no statement of the source reads:
    var fetched: seq<MessageId>           // every message the broker handed over
    var started: seq<MessageId>           // every message a handler was started for

    /** The in-flight count is the number of live handlers, and within the instance's bound. */
    ghost predicate Valid()
      reads this, state
    {
      && state.actualInflight == |running|
      && (running != {} ==> |running| <= state.maxPerInstance)
      && running <= tasks.Keys
      && (forall t :: t in tasks ==> t < nextTask)
    }

    constructor (state: AdmissionState, calm: bool)
      requires state.actualInflight == 0
      ensures this.state == state && this.calm == calm && Valid() && running == {} && released == [] && started == fetched == []
    {
      this.state, this.calm := state, calm;
      running, tasks, nextTask, released := {}, map[], 0, [];
      fetched, started := [], [];
    }

    /** The `finally` of `_run_one`. */
    method Finish(task: TaskId)
      requires Valid() && task in running
      modifies this`running, state`actualInflight
      ensures Valid() && running == old(running) - {task}
    {
      running := running - {task};
      var ok := state.Completed();
      assert ok;  // `completed` never finds nothing in flight
    }

    /** An await: handlers finish, callbacks run, the AIMD loop sets whatever target it decides. */
    method Await()
      requires Valid()
      modifies this`running, this`tasks, state
      ensures Valid() && running <= old(running)
      ensures forall t :: t in running ==> t in tasks && t in old(tasks) && tasks[t] == old(tasks)[t]
      ensures tasks.Keys <= old(tasks).Keys
      ensures calm ==> running == old(running) && state.target == old(state.target)
    {
      var events: nat := *;
      while !calm && events > 0
        invariant calm ==> running == old(running) && state.target == old(state.target)
        invariant Valid() && running <= old(running)
        invariant forall t :: t in tasks ==> t in old(tasks) && tasks[t] == old(tasks)[t]
        modifies this`running, this`tasks, state
      {
        var task: TaskId, target: int := *, *;
        if task in running {
          Finish(task);
        } else if task in tasks {
          tasks := map t | t in tasks && t != task :: tasks[t];
        }
        state.SetTarget(target);
        events := events - 1;
      }
    }

    /** `fetch_one`, an await as well. */
    method FetchOne() returns (message: Option<MessageId>)
      requires Valid()
      modifies this`running, this`tasks, this`fetched, state
      ensures Valid() && running <= old(running)
      ensures fetched == if message.Some? then old(fetched) + [message.value] else old(fetched)
      ensures calm ==> message.Some? && running == old(running) && state.target == old(state.target)
    {
      Await();
      message := *;
      if calm && !message.Some? {
        var waiting: MessageId := *;
        message := Some(waiting);
      }
      if message.Some? {
        fetched := fetched + [message.value];
      }
    }

    /** One turn of the loop: a handler for the next message, if there is room. */
    method Turn()
      requires Valid() && started == fetched
      modifies this`running, this`tasks, this`nextTask, this`fetched, this`started, state
      ensures Valid() && started == fetched
      ensures calm ==>
                var one := if |old(running)| < old(state.target) && |old(running)| < state.maxPerInstance then 1 else 0;
                && state.target == old(state.target)
                && |running| == |old(running)| + one && |started| == |old(started)| + one
    {
      Await();                       // cooldown.is_active()
      var coolingDown: bool := *;
      if (!calm && coolingDown) || !state.CanAdmit() {
        Await();                     // _wait_for_capacity
      } else {
        ghost var before := running;
        var message := FetchOne();
        if message.Some? {
          InsideBound(running, before);
          Start(message.value);
        }
      }
    }

    /**
      `run`, for as many turns as pass before the stop event: whatever completes
      or retargets while a fetch is under way, the loop never starts a handler
      beyond the instance's bound, and starts one for each message it fetched.
      Undisturbed it starts one at every turn, until the target or the instance's
      bound is reached.
    */
    method Run(turns: nat) returns (drained: bool)
      requires Valid() && started == fetched
      modifies this, state
      ensures Valid() && started == fetched
      ensures drained ==> running == {}
      ensures calm ==> |started| == |old(started)| + Starts(turns, old(state.target), |old(running)|)
      ensures calm ==> drained && |released| == |old(released)| + |old(running)| + Starts(turns, old(state.target), |old(running)|)
    {
      for turn := 0 to turns
        invariant Valid() && started == fetched && released == old(released)
        invariant calm ==>
                    && state.target == old(state.target)
                    && |running| == |old(running)| + Starts(turn, state.target, |old(running)|)
                    && |started| == |old(started)| + Starts(turn, state.target, |old(running)|)
      {
        Turn();
      }
      drained := Drain();
    }

    /** How many of so many turns find room, from so many handlers on. */
    function Starts(turns: nat, target: int, live: nat): (n: nat)
      ensures live as int >= target || live as int >= state.maxPerInstance ==> n == 0
      ensures n == turns || n == 0 || live + n == target || live + n == state.maxPerInstance
      ensures n > 0 ==> live + n <= target && live + n <= state.maxPerInstance
      ensures n <= turns
    {
      var room := (if target < state.maxPerInstance then target else state.maxPerInstance) - live;
      if room <= 0 then 0 else if turns <= room then turns else room
    }

    lemma InsideBound(now: set<TaskId>, before: set<TaskId>)
      requires now <= before
      ensures |now| <= |before|
    {
      assert before == now + (before - now);
    }

    method Start(message: MessageId)
      requires Valid() && |running| < state.maxPerInstance
      modifies this`running, this`tasks, this`nextTask, this`started, state`actualInflight
      ensures Valid() && started == old(started) + [message]
      ensures running == old(running) + {old(nextTask)} && old(nextTask) !in old(running)
      ensures tasks == old(tasks)[old(nextTask) := message]
    {
      state.Admitted();
      assert nextTask !in running;
      running := running + {nextTask};
      tasks := tasks[nextTask := message];
      nextTask := nextTask + 1;
      started := started + [message];
    }

    /**
      `_drain`: after the grace period every handler still running is cancelled
      and waited for, and then its investigation is released and its message
      naked, once each; only an error in a release cuts that short.
    */
    method Drain() returns (drained: bool)
      requires Valid()
      modifies this`running, this`tasks, this`released, state
      ensures Valid() && running == {}
      ensures exists interrupted: seq<TaskId> ::
                && (forall i, j :: 0 <= i < j < |interrupted| ==> interrupted[i] != interrupted[j])
                && (forall t :: t in interrupted ==> t in old(tasks))
                && |released| <= |old(released)| + |interrupted|
                && (drained ==> |released| == |old(released)| + |interrupted|)
                && old(released) <= released
                && (forall k :: |old(released)| <= k < |released| ==> released[k] == old(tasks)[interrupted[k - |old(released)|]])
                && (calm ==> drained && |interrupted| == |old(running)| && forall t :: t in interrupted <==> t in old(running))
    {
      Await();                         // asyncio.wait(timeout=grace)
      var interrupted, messages := CancelAll();
      drained := ReleaseAll(messages);
    }

    /** Every handler still running is cancelled and waited for; each with the message it was started for. */
    method CancelAll() returns (interrupted: seq<TaskId>, messages: seq<MessageId>)
      requires Valid()
      modifies this`running, state`actualInflight
      ensures Valid() && running == {}
      ensures forall i, j :: 0 <= i < j < |interrupted| ==> interrupted[i] != interrupted[j]
      ensures forall t :: t in interrupted <==> t in old(running)
      ensures |messages| == |interrupted| == |old(running)|
      ensures forall i :: 0 <= i < |interrupted| ==> interrupted[i] in tasks && messages[i] == tasks[interrupted[i]]
    {
      interrupted, messages := [], [];
      while running != {}
        invariant Valid() && running <= old(running)
        invariant |messages| == |interrupted| && |interrupted| + |running| == |old(running)|
        invariant forall t :: t in interrupted <==> t in old(running) && t !in running
        invariant forall i, j :: 0 <= i < j < |interrupted| ==> interrupted[i] != interrupted[j]
        invariant forall i :: 0 <= i < |interrupted| ==> interrupted[i] in tasks && messages[i] == tasks[interrupted[i]]
        modifies this`running, state`actualInflight
        decreases running
      {
        SomethingIn(running);
        var task :| task in running;
        messages := messages + [tasks[task]];
        interrupted := interrupted + [task];
        Finish(task);                  // cancelled and gathered
      }
    }

    /** `_release_interrupted` for one after the other, until one raises; the nak is in its `finally`. */
    method ReleaseAll(messages: seq<MessageId>) returns (drained: bool)
      requires Valid()
      modifies this`released
      ensures Valid()
      ensures exists n: nat :: n <= |messages| && released == old(released) + messages[..n] && (drained ==> n == |messages|)
      ensures calm ==> drained
    {
      drained := true;
      var i := 0;
      while i < |messages| && drained
        invariant i <= |messages| && Valid()
        invariant released == old(released) + messages[..i]
        invariant calm ==> drained
        decreases |messages| - i, drained
      {
        var releaseRaises: bool := *;
        released := released + [messages[i]];
        i := i + 1;
        drained := calm || !releaseRaises;
      }
    }

    /** `AimdSupervisor.run`: each window's decision becomes the target. */
    method RunAimd(windows: seq<Window>, policy: Policy)
      requires ValidPolicy(policy) && InEnvelope(state.target, policy)
      modifies state`target
      ensures state.target == TargetAfter(old(state.target), windows, policy)
      ensures InEnvelope(state.target, policy)
    {
      for i := 0 to |windows|
        invariant state.target == TargetAfter(old(state.target), windows[..i], policy)
      {
        assert windows[..i + 1][..i] == windows[..i];
        var decision := DecideAimd(state.target, windows[i].observation, policy, windows[i].step);
        state.SetTarget(decision.target);
      }
      assert windows[..|windows|] == windows;
      TargetStaysInEnvelope(old(state.target), windows, policy);
    }
  }
}
