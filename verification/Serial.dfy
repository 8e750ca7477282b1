/**
 Runs in which reconciles of one request name do not overlap, as the controller's work queue arranges
 for a single leader. Then a reconcile always holds the newest version of its record, and no CMP
 message follows issuance.
 */
module Serial {
  import opened Basics
  import opened Certificates
  import opened Protocol
  import opened Configuration
  import opened Workload
  import opened Store
  import opened Signer
  import opened History
  import opened Invariant
  import opened Lifetime
  import opened System
  import opened Theorems

  /** The record version a reconcile works on. */
  function Holding(pc: Pc): Option<Record>
  {
    match pc
    case Load => None
    case Create(_) => None
    case Done => None
    case Configure(resumed) => resumed
    case DropStale(r) => Some(r)
    case MarkEnrolling(r, _) => Some(r)
    case Exchange(r, _) => Some(r)
    case AwaitEnrollment(t) => Some(t.record)
    case Reject(a, _, _) => Some(a.to.record)
    case AwaitRejection(t, _, _) => Some(t.record)
    case StorePending(a, _) => Some(a.to.record)
    case StoreConfirming(a, _, _) => Some(a.to.record)
    case ResumeConfirmation(r, _) => Some(r)
    case SendConfirmation(r, _, _, _) => Some(r)
    case AwaitConfirmation(t, _, _) => Some(t.record)
    case StoreIssued(a, _) => Some(a.to.record)
    case Requeue(r, _) => Some(r)
    case Return(r, _) => Some(r)
    case Recover(r) => Some(r)
    case Drop(r) => Some(r)
  }

  ghost predicate HoldsNewest(log: Log, pc: Pc) { Holding(pc).Some? ==> Latest(log, Holding(pc).value) }

  lemma HoldsOwn(w: World, log: Log, job: Job, pc: Pc)
    requires WorkerOk(w, log, job, pc) && Holding(pc).Some?
    ensures Stored(Holding(pc).value) in log && Holding(pc).value.key == job.key
  {
    hide EnrollmentOutcome, AnsweredOk, FromSettings, Rejecting;
  }

  /**
   What a step does to the versions: nothing, or one new version of this name's record, which it then
   holds or lets go.
   */
  ghost predicate StepNewest(log: Log, job: Job, pc: Pc, effect: Effect)
  {
    && HoldsNewest(log + effect.events, effect.pc)
    && (forall e :: e in effect.events && e.Stored? ==> e.record.key == job.key)
    && (forall e :: e in effect.events && e.Sent? ==>
          effect.events == [e] && Holding(pc) == Some(e.transmission.record))
  }

  lemma QuietNewest(log: Log, job: Job, pc: Pc, effect: Effect)
    requires HoldsNewest(log, pc) && (Holding(effect.pc).None? || Holding(effect.pc) == Holding(pc))
    requires forall e :: e in effect.events ==> !e.Stored?
    requires forall e :: e in effect.events && e.Sent? ==>
               effect.events == [e] && Holding(pc) == Some(e.transmission.record)
    ensures StepNewest(log, job, pc, effect)
  {
    hide Holding;
    assert forall q :: Stored(q) in log + effect.events ==> Stored(q) in log;
  }

  lemma WriteNewest(log: Log, job: Job, pc: Pc, effect: Effect, next: nat, r: Record)
    requires Numbered(log, next) && r.version >= next && r.key == job.key
    requires Holding(effect.pc).None? || Holding(effect.pc) == Some(r)
    requires effect.events != [] && effect.events[0] == Stored(r)
             && (forall e :: e in effect.events[1..] ==> !e.Stored?)
    requires forall e :: e in effect.events ==> !e.Sent?
    ensures StepNewest(log, job, pc, effect)
  {
    hide Holding;
    assert effect.events == [Stored(r)] + effect.events[1..];
    assert forall q :: Stored(q) in log + effect.events ==> Stored(q) in log || q == r;
  }

  lemma LoadNewest(w: World, log: Log, job: Job, input: Input, objects: Objects, next: nat)
    requires Current(objects, log)
    ensures StepNewest(log, job, Load, StepLoad(w, job, input, objects, next))
  {
    hide Gone;
    assert log + [] == log;
  }

  /** Steps that talk to the server. */
  lemma ExchangeStep(w: World, log: Log, job: Job, pc: Pc, input: Input, objects: Objects, clock: int, next: nat)
    requires HoldsNewest(log, pc)
    requires pc.Exchange? || pc.AwaitEnrollment? || pc.Reject? || pc.AwaitRejection? || pc.SendConfirmation?
             || pc.AwaitConfirmation?
    ensures StepNewest(log, job, pc, Step(w, job, pc, input, objects, clock, next))
  {
    hide HoldsNewest, StepNewest, VerifyResponse, EnrollmentOutcome, Confirm, StepLoad, StepDropStale, StepConfigure,
         StepCreate, StepMarkEnrolling, StepStorePending, StepStoreConfirming, StepResumeConfirmation, StepStoreIssued,
         StepRecover, StepDrop;
    QuietNewest(log, job, pc, Step(w, job, pc, input, objects, clock, next));
  }

  /** Steps that only read or delete. */
  lemma QuietStep(w: World, log: Log, job: Job, pc: Pc, input: Input, objects: Objects, clock: int, next: nat)
    requires HoldsNewest(log, pc)
    requires pc.DropStale? || pc.Configure? || pc.ResumeConfirmation? || pc.Recover? || pc.Drop? || pc.Done?
             || pc.Requeue? || pc.Return?
    ensures StepNewest(log, job, pc, Step(w, job, pc, input, objects, clock, next))
  {
    hide HoldsNewest, StepNewest, PrepareWorkload, SelectRenewalFallback, Digest, Use, TrustedRecordedChain, StepLoad,
         StepCreate, StepMarkEnrolling, StepExchange, StepAwaitEnrollment, StepReject, StepStorePending,
         StepStoreConfirming, StepSendConfirmation, StepAwaitConfirmation, StepStoreIssued;
    QuietNewest(log, job, pc, Step(w, job, pc, input, objects, clock, next));
  }

  /** Steps that store a version. */
  lemma WriteStep(w: World, log: Log, job: Job, pc: Pc, input: Input, objects: Objects, clock: int, next: nat)
    requires HoldsNewest(log, pc) && Numbered(log, next) && (Holding(pc).Some? ==> Holding(pc).value.key == job.key)
    requires pc.Create? || pc.MarkEnrolling? || pc.StorePending? || pc.StoreConfirming? || pc.StoreIssued?
    ensures StepNewest(log, job, pc, Step(w, job, pc, input, objects, clock, next))
  {
    hide HoldsNewest, StepNewest, Digest, Numbered, PlannedSpec, PendingStatus, ConfirmingStatus, RequeueDelay,
         StepLoad, StepDropStale, StepConfigure, StepExchange, StepAwaitEnrollment, StepReject, StepResumeConfirmation,
         StepSendConfirmation, StepAwaitConfirmation, StepRecover, StepDrop;
    var effect := Step(w, job, pc, input, objects, clock, next);
    if effect.events == [] {
      QuietNewest(log, job, pc, effect);
    } else {
      WriteNewest(log, job, pc, effect, next, effect.events[0].record);
    }
  }

  lemma StepKeepsNewest(w: World, log: Log, job: Job, pc: Pc, input: Input, objects: Objects, clock: int, next: nat)
    requires Shape(objects, log, next) && WorkerOk(w, log, job, pc) && HoldsNewest(log, pc)
    ensures StepNewest(log, job, pc, Step(w, job, pc, input, objects, clock, next))
  {
    hide StepNewest, HoldsNewest, WorkerOk, Current, Numbered, Consistent;
    if pc.Load? {
      LoadNewest(w, log, job, input, objects, next);
    } else if pc.Create? || pc.MarkEnrolling? || pc.StorePending? || pc.StoreConfirming? || pc.StoreIssued? {
      if Holding(pc).Some? {
        HoldsOwn(w, log, job, pc);
      }
      WriteStep(w, log, job, pc, input, objects, clock, next);
    } else if pc.Exchange? || pc.AwaitEnrollment? || pc.Reject? || pc.AwaitRejection? || pc.SendConfirmation?
    || pc.AwaitConfirmation? {
      ExchangeStep(w, log, job, pc, input, objects, clock, next);
    } else {
      QuietStep(w, log, job, pc, input, objects, clock, next);
    }
  }

  // ----- Serialized runs

  /** No reconcile begins while another one for the same name is under way. */
  ghost predicate Serialized(w: World, actions: seq<Action>)
  {
    forall i :: 0 <= i < |actions| && actions[i].Begin? ==> NotUnderWay(Exec(w, actions[..i]), actions[i].job.key)
  }

  ghost predicate NotUnderWay(s: State, key: SecretKey)
  {
    forall id :: id in s.workers ==> s.workers[id].job.key != key
  }

  ghost predicate Alone(s: State)
  {
    && (forall id, other :: id in s.workers && other in s.workers && id != other ==>
          s.workers[id].job.key != s.workers[other].job.key)
    && (forall id :: id in s.workers ==> HoldsNewest(s.log, s.workers[id].pc))
  }

  /** Every message is sent from the newest version of its record. */
  ghost predicate SendsNewest(log: Log)
  {
    forall j :: 0 <= j < |log| && log[j].Sent? ==> Latest(log[..j], log[j].transmission.record)
  }

  /** A message follows the issuance of its record. */
  ghost predicate SendsAfterIssued(log: Log)
  {
    exists i, j :: 0 <= i < j < |log| && log[i].Stored? && log[i].record.status.phase.Issued? && log[j].Sent?
                   && log[j].transmission.record.uid == log[i].record.uid
  }

  /** A version of another name's record leaves the newest version of this one as it is. */
  lemma OthersKeepNewest(w: World, s: State, id: nat, other: nat, effect: Effect)
    requires Holds(w, s) && id in s.workers && other in s.workers && s.workers[id].job.key != s.workers[other].job.key
    requires HoldsNewest(s.log, s.workers[other].pc) && Consistent(s.log + effect.events)
    requires forall e :: e in effect.events && e.Stored? ==> e.record.key == s.workers[id].job.key
    ensures HoldsNewest(s.log + effect.events, s.workers[other].pc)
  {
    hide Justified, Shape, WorkerOk, Holding;
    var pc, log' := s.workers[other].pc, s.log + effect.events;
    if Holding(pc).Some? {
      var h := Holding(pc).value;
      HoldsOwn(w, s.log, s.workers[other].job, pc);
      forall q | Stored(q) in log' && q.uid == h.uid ensures q.version <= h.version {
        assert Stored(h) in log';
        assert SameObject(q, h);
      }
    }
  }

  lemma RunAlone(w: World, s: State, id: nat, input: Input)
    requires Holds(w, s) && Alone(s) && id in s.workers
    ensures Alone(Apply(w, s, Run(id, input)))
    ensures StepNewest(s.log, s.workers[id].job, s.workers[id].pc,
                       Step(w, s.workers[id].job, s.workers[id].pc, input, s.objects, s.clock, s.next))
  {
    hide Step, Justified, WorkerOk, HoldsNewest, Numbered, Current, Consistent;
    var worker := s.workers[id];
    var effect := Step(w, worker.job, worker.pc, input, s.objects, s.clock, s.next);
    var s' := Apply(w, s, Run(id, input));
    StepKeepsNewest(w, s.log, worker.job, worker.pc, input, s.objects, s.clock, s.next);
    RunPreserves(w, s, id, input);
    forall other | other in s'.workers ensures HoldsNewest(s'.log, s'.workers[other].pc) {
      if other != id {
        OthersKeepNewest(w, s, id, other, effect);
      }
    }
  }

  lemma CollectAlone(s: State, key: SecretKey)
    requires Alone(s) && key in s.objects
    ensures var log' := s.log + [Removed(s.objects[key], Collected)];
            (forall id :: id in s.workers ==> HoldsNewest(log', s.workers[id].pc))
            && (SendsNewest(s.log) ==> SendsNewest(log'))
  {
    hide Holding;
    var log' := s.log + [Removed(s.objects[key], Collected)];
    assert forall q :: Stored(q) in log' ==> Stored(q) in s.log;
    assert forall j :: 0 <= j < |s.log| ==> log'[..j] == s.log[..j];
  }

  lemma StepSendsNewest(log: Log, job: Job, pc: Pc, effect: Effect)
    requires SendsNewest(log) && HoldsNewest(log, pc) && StepNewest(log, job, pc, effect)
    ensures SendsNewest(log + effect.events)
  {
    hide Holding, Latest;
    var log' := log + effect.events;
    forall j | 0 <= j < |log'| && log'[j].Sent? ensures Latest(log'[..j], log'[j].transmission.record) {
      if j < |log| {
        assert log'[..j] == log[..j];
      } else {
        assert log'[j] in effect.events && effect.events == [log'[j]];
        assert log'[..j] == log;
      }
    }
  }

  lemma SerialAction(w: World, s: State, action: Action)
    requires Holds(w, s) && Alone(s) && SendsNewest(s.log) && (action.Begin? ==> NotUnderWay(s, action.job.key))
    ensures Alone(Apply(w, s, action)) && SendsNewest(Apply(w, s, action).log)
  {
    hide Holds, Step, SendsNewest, StepNewest, Latest;
    match action
    case Tick(elapsed) =>
    case Begin(id, job) =>
    case Crash(id) =>
    case Run(id, input) =>
      if id in s.workers {
        var worker := s.workers[id];
        RunAlone(w, s, id, input);
        StepSendsNewest(s.log, worker.job, worker.pc,
                        Step(w, worker.job, worker.pc, input, s.objects, s.clock, s.next));
      }
    case Collect(key) =>
      if key in s.objects {
        CollectAlone(s, key);
      }
  }

  /** In serialized runs every reconcile holds, and sends from, the newest version of its record. */
  lemma {:induction false} SerializedRuns(w: World, actions: seq<Action>)
    requires Serialized(w, actions)
    ensures Alone(Exec(w, actions)) && SendsNewest(Exec(w, actions).log)
  {
    if actions != [] {
      var n := |actions| - 1;
      var s, action := Exec(w, actions[..n]), actions[n];
      hide Holds, Step, HoldsNewest;
      assert Serialized(w, actions[..n]) by {
        assert forall i :: 0 <= i < n ==> actions[..n][..i] == actions[..i];
      }
      SerializedRuns(w, actions[..n]);
      Reachable(w, actions[..n]);
      SerialAction(w, s, action);
    }
  }

  // ----- What may follow what

  /** A message is sent from a version that is not issued. */
  lemma SentUnissued(w: World, log: Log, t: Transmission)
    requires Lawful(w, log) && SentOk(w, log, t)
    ensures !t.record.status.phase.Issued?
  {
    hide Lawful, Bound, Refused;
    if t.purpose.ForRejection? {
      var a :| Answered(a) in log && a.to.purpose.ForEnrollment? && a.to.record == t.record;
      LawfulAnswer(w, log, a);
    }
  }

  lemma NewestRank(w: World, log: Log, t: Transmission, p: Record)
    requires Lawful(w, log) && SentOk(w, log, t) && Latest(log, t.record) && Stored(p) in log && p.uid == t.record.uid
    ensures Rank(p.status.phase) <= Rank(t.record.status.phase) < 3
  {
    hide Justified;
    SentUnissued(w, log, t);
    if p.version < t.record.version {
      LaterAdvances(w, log, p, t.record);
    }
  }

  /** In serialized runs a message comes from a phase no earlier than any phase its record was stored in before. */
  lemma MessagesFollowPhases(w: World, actions: seq<Action>, i: nat, j: nat)
    requires Serialized(w, actions)
    requires var log := Exec(w, actions).log;
             i < j < |log| && log[i].Stored? && log[j].Sent? && log[j].transmission.record.uid == log[i].record.uid
    ensures var log := Exec(w, actions).log;
            Rank(log[i].record.status.phase) <= Rank(log[j].transmission.record.status.phase) < 3
  {
    hide Exec, Serialized, Lawful, SentOk, Rank;
    SerializedRuns(w, actions);
    var log := Exec(w, actions).log;
    assert OfRun(w, log);
    hide OfRun;
    Sending(w, log, j);
    assert log[..j][i] == log[i];
    NewestRank(w, log[..j], log[j].transmission, log[i].record);
  }

  /** No CMP message for a record follows its issuance. */
  lemma NoMessageAfterIssued(w: World, actions: seq<Action>, i: nat, j: nat)
    requires Serialized(w, actions)
    requires var log := Exec(w, actions).log;
             && i < |log| && j < |log| && log[i].Stored? && log[i].record.status.phase.Issued? && log[j].Sent?
             && log[j].transmission.record.uid == log[i].record.uid
    ensures j < i
  {
    hide Exec, Serialized;
    if i < j {
      MessagesFollowPhases(w, actions, i, j);
    }
  }

  /**
   No enrollment message follows a stored wait, so none starts a second enrollment, and no enrollment
   poll follows the certificate.
   */
  lemma NoSecondEnrollment(w: World, actions: seq<Action>, i: nat, j: nat)
    requires Serialized(w, actions)
    requires var log := Exec(w, actions).log;
             && i < j < |log| && log[i].Stored? && log[j].Sent? && log[j].transmission.record.uid == log[i].record.uid
             && log[j].transmission.purpose.ForEnrollment?
    ensures var s, message := Exec(w, actions).log[i].record.status, Exec(w, actions).log[j].transmission.message;
            && (message.body.Enroll? ==> s.phase.Unset? || s.phase.Enrolling?)
            && (message.body.PollReq? ==> !s.phase.Confirming? && !s.phase.Issued?)
  {
    hide Exec, Serialized, Lawful, SentOk;
    MessagesFollowPhases(w, actions, i, j);
    var log := Exec(w, actions).log;
    assert OfRun(w, log);
    hide OfRun;
    Sending(w, log, j);
    EnrollmentPhase(w, log[..j], log[j].transmission);
  }

  lemma EnrollmentPhase(w: World, log: Log, t: Transmission)
    requires SentOk(w, log, t) && t.purpose.ForEnrollment?
    ensures Rank(t.record.status.phase) == if t.message.body.PollReq? then 1 else 0
  {
  }
}
