/**
 Any number of controller replicas over one API server, an adversarial network and a clock. A run is
 an arbitrary sequence of actions; an action that is not enabled does nothing. A crash can fall
 between any two steps of a reconcile. Every reachable history is justified.
 */
module System {
  import opened Configuration
  import opened Store
  import opened Signer
  import opened History
  import opened Invariant

  datatype Worker = Worker(job: Job, pc: Pc)

  datatype State = State(objects: Objects, log: Log, clock: int, next: nat, workers: map<nat, Worker>)

  /**
   Begin starts a reconcile for any request under any name, also one that was recreated or no longer
   exists. Collect is the garbage collector or an administrator removing a record.
   */
  datatype Action = Tick(elapsed: nat) | Begin(id: nat, job: Job) | Run(id: nat,
      input: Input) | Crash(id: nat) | Collect(key: SecretKey)

  const Initial := State(map[], [], 0, 0, map[])

  ghost function Apply(w: World, s: State, action: Action): State
  {
    match action
    case Tick(elapsed) => s.(clock := s.clock + elapsed)
    case Begin(id, job) => if id in s.workers then s else s.(workers := s.workers[id := Worker(job, Load)])
    case Crash(id) => s.(workers := s.workers - {id})
    case Collect(key) =>
      if key !in s.objects then s
      else s.(objects := s.objects - {key}, log := s.log + [Removed(s.objects[key], Collected)])
    case Run(id, input) =>
      if id !in s.workers then s
      else
        var worker := s.workers[id];
        var effect := Step(w, worker.job, worker.pc, input, s.objects, s.clock, s.next);
        State(effect.objects, s.log + effect.events, s.clock, effect.next,
              if effect.pc.Done? then s.workers - {id} else s.workers[id := Worker(worker.job, effect.pc)])
  }

  ghost function Exec(w: World, actions: seq<Action>): State
  {
    if actions == [] then Initial else Apply(w, Exec(w, actions[..|actions| - 1]), actions[|actions| - 1])
  }

  // ----- Every reachable state

  ghost predicate Holds(w: World, s: State)
  {
    && Shape(s.objects, s.log, s.next)
    && Justified(w, s.log)
    && forall id :: id in s.workers ==> WorkerOk(w, s.log, s.workers[id].job, s.workers[id].pc)
  }

  lemma EventsJustified(w: World, log: Log, events: Log)
    requires Justified(w, log) && EventsOk(w, log, events)
    ensures Justified(w, log + events)
  {
    hide EventOk;
    forall i | 0 <= i < |log + events| ensures EventOk(w, (log + events)[..i], (log + events)[i]) {
      if i < |log| {
        assert (log + events)[..i] == log[..i];
      } else {
        assert (log + events)[..i] == log + events[..i - |log|];
      }
    }
  }

  lemma RunPreserves(w: World, s: State, id: nat, input: Input)
    requires Holds(w, s) && id in s.workers
    ensures Holds(w, Apply(w, s, Run(id, input)))
  {
    hide Step, Shape, EventsOk, Justified, WorkerOk;
    var worker := s.workers[id];
    var effect := Step(w, worker.job, worker.pc, input, s.objects, s.clock, s.next);
    var s' := Apply(w, s, Run(id, input));
    StepPreserves(w, s.log, worker.job, worker.pc, input, s.objects, s.clock, s.next);
    EventsJustified(w, s.log, effect.events);
    forall other | other in s'.workers ensures WorkerOk(w, s'.log, s'.workers[other].job, s'.workers[other].pc) {
      if other != id {
        WorkerStays(w, s.log, s'.log, s.workers[other].job, s.workers[other].pc);
      }
    }
  }

  lemma CollectionOk(w: World, s: State, key: SecretKey)
    requires Shape(s.objects, s.log, s.next) && key in s.objects
    ensures EventOk(w, s.log, Removed(s.objects[key], Collected))
  {
    hide StoredOk, SentOk, AnsweredOk, Latest, Gone;
    assert RemovedOk(s.log, s.objects[key], Collected);
  }

  lemma CollectPreserves(w: World, s: State, key: SecretKey)
    requires Holds(w, s) && key in s.objects
    ensures Holds(w, Apply(w, s, Collect(key)))
  {
    hide Shape, Justified, WorkerOk, EventOk;
    var e := Removed(s.objects[key], Collected);
    CollectionOk(w, s, key);
    RemoveShape(s.objects, s.log, s.next, key, Collected);
    JustifiedAppend(w, s.log, e);
    forall other | other in s.workers ensures WorkerOk(w, s.log + [e], s.workers[other].job, s.workers[other].pc) {
      WorkerStays(w, s.log, s.log + [e], s.workers[other].job, s.workers[other].pc);
    }
  }

  lemma ApplyPreserves(w: World, s: State, action: Action)
    requires Holds(w, s)
    ensures Holds(w, Apply(w, s, action))
  {
    hide Step, Shape, Justified;
    match action
    case Tick(elapsed) =>
    case Begin(id, job) =>
    case Crash(id) =>
    case Run(id, input) => if id in s.workers { RunPreserves(w, s, id, input); }
    case Collect(key) => if key in s.objects { CollectPreserves(w, s, key); }
  }

  /** Whatever the replicas, the network, the API server and the clock do, the history is justified. */
  lemma {:induction false} Reachable(w: World, actions: seq<Action>)
    ensures Holds(w, Exec(w, actions))
  {
    if actions != [] {
      Reachable(w, actions[..|actions| - 1]);
      hide Holds;
      ApplyPreserves(w, Exec(w, actions[..|actions| - 1]), actions[|actions| - 1]);
    }
  }

  // ----- Runs, one action at a time

  /** A reconcile's step, seen from the state. */
  lemma Ran(w: World, actions: seq<Action>, id: nat, input: Input, effect: Effect)
    requires id in Exec(w, actions).workers
    requires var s := Exec(w, actions);
             effect == Step(w, s.workers[id].job, s.workers[id].pc, input, s.objects, s.clock, s.next)
    ensures var s, s' := Exec(w, actions), Exec(w, actions + [Run(id, input)]);
            && s'.objects == effect.objects && s'.log == s.log + effect.events && s'.clock == s.clock
            && s'.next == effect.next
            && (if effect.pc.Done? then s'.workers == s.workers - {id}
                else s'.workers == s.workers[id := Worker(s.workers[id].job, effect.pc)])
  {
    hide Step;
    assert (actions + [Run(id, input)])[..|actions|] == actions;
  }

  lemma Began(w: World, actions: seq<Action>, id: nat, job: Job)
    requires id !in Exec(w, actions).workers
    ensures var s, s' := Exec(w, actions), Exec(w, actions + [Begin(id, job)]);
            s' == s.(workers := s.workers[id := Worker(job, Load)])
  {
    hide Step;
    assert (actions + [Begin(id, job)])[..|actions|] == actions;
  }

  lemma Idle(w: World, actions: seq<Action>, id: nat, input: Input)
    requires id !in Exec(w, actions).workers
    ensures Exec(w, actions + [Run(id, input)]) == Exec(w, actions)
  {
    assert (actions + [Run(id, input)])[..|actions|] == actions;
  }

  /** Two undisturbed steps of a reconcile. */
  lemma RanTwice(w: World, actions: seq<Action>, id: nat, first: Effect, second: Effect)
    requires id in Exec(w, actions).workers && !first.pc.Done?
    requires var s := Exec(w, actions);
             var job := s.workers[id].job;
             && first == Step(w, job, s.workers[id].pc, Proceed, s.objects, s.clock, s.next)
             && second == Step(w, job, first.pc, Proceed, first.objects, s.clock, first.next)
    ensures var s, s' := Exec(w, actions), Exec(w, actions + [Run(id, Proceed)] + [Run(id, Proceed)]);
            && s'.log == s.log + first.events + second.events && s'.objects == second.objects
            && s'.clock == s.clock && s'.next == second.next
            && s'.workers == (if second.pc.Done? then s.workers - {id}
                              else s.workers[id := Worker(s.workers[id].job, second.pc)])
  {
    hide Step, Exec;
    Ran(w, actions, id, Proceed, first);
    Ran(w, actions + [Run(id, Proceed)], id, Proceed, second);
    var workers := Exec(w, actions).workers;
    var job := workers[id].job;
    assert workers[id := Worker(job, first.pc)] - {id} == workers - {id};
    assert workers[id := Worker(job, first.pc)][id := Worker(job, second.pc)] == workers[id := Worker(job, second.pc)];
  }

  /** Runs that reach the same state go on alike. */
  lemma {:induction false} SameContinuation(w: World, a: seq<Action>, b: seq<Action>, more: seq<Action>)
    requires Exec(w, a) == Exec(w, b)
    ensures Exec(w, a + more) == Exec(w, b + more)
  {
    hide Apply;
    if more == [] {
      assert a + more == a && b + more == b;
    } else {
      var rest, last := more[..|more| - 1], more[|more| - 1];
      SameContinuation(w, a, b, rest);
      assert (a + more)[..|a + more| - 1] == a + rest && (a + more)[|a + more| - 1] == last;
      assert (b + more)[..|b + more| - 1] == b + rest && (b + more)[|b + more| - 1] == last;
    }
  }

  /** The actions without those of this reconcile, until its identifier is used for another one. */
  function Erase(actions: seq<Action>, id: nat): seq<Action>
  {
    if actions == [] || (actions[0].Begin? && actions[0].id == id) then actions
    else if (actions[0].Run? || actions[0].Crash?) && actions[0].id == id then Erase(actions[1..], id)
    else [actions[0]] + Erase(actions[1..], id)
  }

  lemma EndedStays(w: World, s: State, action: Action, id: nat)
    requires id !in s.workers && !(action.Begin? && action.id == id)
    ensures id !in Apply(w, s, action).workers
    ensures (action.Run? || action.Crash?) && action.id == id ==> Apply(w, s, action) == s
  {
    hide Step;
    assert s.workers - {id} == s.workers;
  }

  lemma OneMore(w: World, actions: seq<Action>, action: Action)
    ensures Exec(w, actions + [action]) == Apply(w, Exec(w, actions), action)
  {
    hide Apply;
    assert (actions + [action])[..|actions|] == actions;
  }

  /** A reconcile that has ended contributes nothing more. */
  lemma {:induction false} EndedIsSilent(w: World, actions: seq<Action>, more: seq<Action>, id: nat)
    requires id !in Exec(w, actions).workers
    ensures Exec(w, actions + more) == Exec(w, actions + Erase(more, id))
    decreases |more|
  {
    hide Apply, Exec;
    if more != [] && !(more[0].Begin? && more[0].id == id) {
      var first, rest := more[0], more[1..];
      assert actions + more == actions + [first] + rest;
      OneMore(w, actions, first);
      EndedStays(w, Exec(w, actions), first, id);
      if (first.Run? || first.Crash?) && first.id == id {
        SameContinuation(w, actions + [first], actions, rest);
        EndedIsSilent(w, actions, rest, id);
      } else {
        EndedIsSilent(w, actions + [first], rest, id);
        assert actions + Erase(more, id) == actions + [first] + Erase(rest, id);
      }
    }
  }
}
