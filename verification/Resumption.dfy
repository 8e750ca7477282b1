/**
 What a new reconcile does after any run: with no record it starts an enrollment, with the record an
 interrupted reconcile left behind it goes on from there.
 */
module Resumption {
  import opened Basics
  import opened Certificates
  import opened Protocol
  import opened Configuration
  import opened Workload
  import opened Store
  import opened Signer
  import opened History
  import opened Invariant
  import opened Lifetime
  import opened System
  import opened Theorems

  // ----- A new request

  /** The configuration a reconcile of a new request loads. */
  ghost predicate CanStart(w: World, s: State, id: nat, job: Job, read: Input)
  {
    var spec := w.spec(job.issuer);
    var selected := SelectedOperation(spec.protocol, job.metadata.revision);
    && id !in s.workers && job.key !in s.objects && selected.Some? && read.Read?
    && Credentials(read.credentials) && ValidTransaction(spec.transaction)
    && var choice := SelectRenewalFallback(w.codec, read.classified, spec.protocol, job.metadata, job.issuer,
                                           selected.value, s.clock);
    && choice.Ok?
    && PrepareWorkload(w.codec, read.prepared, spec.protocol, job.metadata, job.issuer, CsrOf(w, job), choice.value.0,
                       choice.value.1, s.clock).Ok?
  }

  ghost function PlanFor(w: World, s: State, id: nat, job: Job, read: Input): Plan
    requires CanStart(w, s, id, job, read)
  {
    var spec := w.spec(job.issuer);
    var selected := SelectedOperation(spec.protocol, job.metadata.revision).value;
    var (operation, fallback) :=
      SelectRenewalFallback(w.codec, read.classified, spec.protocol, job.metadata, job.issuer, selected, s.clock).value;
    var material := PrepareWorkload(w.codec, read.prepared, spec.protocol, job.metadata, job.issuer, CsrOf(w, job),
                                    operation, fallback, s.clock).value;
    Plan(operation, fallback, Use(w, job, operation, read.credentials, material, 0))
  }

  /** The record and the message a plan leads to. */
  ghost function Started(w: World, job: Job, plan: Plan, clock: int, next: nat): Transmission
  {
    var created := NewRecord(job.key, next, next + 2, PlannedSpec(w, job, plan, next + 1, clock));
    var using := plan.using.(request := plan.using.request.(transactionId := next + 1));
    Transmission(job, Updated(created, NewStatus.(phase := Enrolling), next + 3), ForEnrollment,
                 EnrollMessage(using.request, next + 4), using, clock)
  }

  lemma PlanningSteps(w: World, s: State, id: nat, job: Job, read: Input)
    requires CanStart(w, s, id, job, read)
    ensures Step(w, job, Load, Proceed, s.objects, s.clock, s.next) == Stay(Configure(None), s.objects, s.next)
    ensures Step(w, job, Configure(None), read, s.objects, s.clock, s.next) ==
            Stay(Create(PlanFor(w, s, id, job, read)), s.objects, s.next)
  {
    hide PrepareWorkload, SelectRenewalFallback;
  }

  lemma StartingSteps(w: World, job: Job, plan: Plan, objects: Objects, clock: int, next: nat)
    requires job.key !in objects && Limits(w, job.issuer).maximumDuration > 0
    ensures var t := Started(w, job, plan, clock, next);
            var created := t.record.(status := NewStatus, version := next + 2);
            var stored := objects[job.key := created];
            && Step(w, job, Create(plan), Proceed, objects, clock, next) ==
                Effect(MarkEnrolling(created, t.using), stored, next + 3, [Stored(created)])
            && Step(w, job, MarkEnrolling(created, t.using), Proceed, stored, clock, next + 3) ==
               Effect(Exchange(t.record, t.using), objects[job.key := t.record], next + 4, [Stored(t.record)])
            && Step(w, job, Exchange(t.record, t.using), Proceed, objects[job.key := t.record], clock, next + 4) ==
               Effect(AwaitEnrollment(t), objects[job.key := t.record], next + 5, [Sent(t)])
  {
    hide Digest;
    var t := Started(w, job, plan, clock, next);
    var created := t.record.(status := NewStatus, version := next + 2);
    assert objects[job.key := created][job.key := t.record] == objects[job.key := t.record];
  }

  /** The run, continued by a first reconcile of a request until its message is out. */
  function Start(actions: seq<Action>, id: nat, job: Job, read: Input): seq<Action>
  {
    Reopen(actions, id, job, read) + [Run(id, Proceed)] + [Run(id, Proceed)] + [Run(id, Proceed)]
  }

  /** A request without a record is first recorded, in two writes, and then sent under the recorded ID. */
  lemma EnrollmentIsStarted(w: World, actions: seq<Action>, id: nat, job: Job, read: Input) returns (t: Transmission)
    requires CanStart(w, Exec(w, actions), id, job, read)
    ensures var s, s' := Exec(w, actions), Exec(w, Start(actions, id, job, read));
            var plan := PlanFor(w, s, id, job, read);
            && t == Started(w, job, plan, s.clock, s.next) && CreatedWith(w, job, plan, t.record, s.clock)
            && t.record == Record(job.key, s.next, s.next + 3, t.record.spec, NewStatus.(phase := Enrolling))
            && t.record.spec.transactionId == s.next + 1
            && t.message == Message(s.next + 1, Nonce(s.next + 4), NoNonce, 2, Enroll(plan.using.request.operation))
            && s'.log == s.log + [Stored(t.record.(status := NewStatus, version := s.next + 2)), Stored(t.record),
                                  Sent(t)]
            && s'.objects == s.objects[job.key := t.record] && s'.clock == s.clock && s'.next == s.next + 5
            && s'.workers == s.workers[id := Worker(job, AwaitEnrollment(t))]
  {
    hide Step, CanStart, Started, PlanFor, Exec, Reopen, Limits, CreatedWith;
    var s := Exec(w, actions);
    var plan := PlanFor(w, s, id, job, read);
    var more := Reopen(actions, id, job, read);
    Planned(w, actions, id, job, read);
    t := Started(w, job, plan, s.clock, s.next);
    StartFacts(w, s, id, job, read);
    StartedRun(w, more, id, plan);
    StartedWith(w, job, plan, s.clock, s.next);
    var planned: map<nat, Worker> := s.workers[id := Worker(job, Create(plan))];
    assert planned[id := Worker(job, AwaitEnrollment(t))] == s.workers[id := Worker(job, AwaitEnrollment(t))];
  }

  /** The run, from the plan until the message is out. */
  lemma StartedRun(w: World, actions: seq<Action>, id: nat, plan: Plan)
    requires var s := Exec(w, actions);
             && id in s.workers && s.workers[id].pc == Create(plan) && s.workers[id].job.key !in s.objects
             && Limits(w, s.workers[id].job.issuer).maximumDuration > 0
    ensures var s := Exec(w, actions);
            var s' := Exec(w, actions + [Run(id, Proceed)] + [Run(id, Proceed)] + [Run(id, Proceed)]);
            var job := s.workers[id].job;
            var t := Started(w, job, plan, s.clock, s.next);
            && s'.log == s.log + [Stored(t.record.(status := NewStatus, version := s.next + 2)), Stored(t.record),
                                  Sent(t)]
            && s'.objects == s.objects[job.key := t.record] && s'.clock == s.clock && s'.next == s.next + 5
            && s'.workers == s.workers[id := Worker(job, AwaitEnrollment(t))]
  {
    hide Step, Started, Exec, Limits;
    var s := Exec(w, actions);
    var job := s.workers[id].job;
    var t := Started(w, job, plan, s.clock, s.next);
    var created := t.record.(status := NewStatus, version := s.next + 2);
    StartingSteps(w, job, plan, s.objects, s.clock, s.next);
    RanTwice(w, actions, id,
             Effect(MarkEnrolling(created, t.using), s.objects[job.key := created], s.next + 3, [Stored(created)]),
             Effect(Exchange(t.record, t.using), s.objects[job.key := t.record], s.next + 4, [Stored(t.record)]));
    Ran(w, actions + [Run(id, Proceed)] + [Run(id, Proceed)], id, Proceed,
        Effect(AwaitEnrollment(t), s.objects[job.key := t.record], s.next + 5, [Sent(t)]));
  }

  lemma StartedWith(w: World, job: Job, plan: Plan, clock: int, next: nat)
    ensures var t := Started(w, job, plan, clock, next);
            && CreatedWith(w, job, plan, t.record, clock)
            && t.record == Record(job.key, next, next + 3, t.record.spec, NewStatus.(phase := Enrolling))
            && t.record.spec.transactionId == next + 1
            && t.message == Message(next + 1, Nonce(next + 4), NoNonce, 2, Enroll(plan.using.request.operation))
  {
    hide Digest;
  }

  lemma StartFacts(w: World, s: State, id: nat, job: Job, read: Input)
    requires CanStart(w, s, id, job, read)
    ensures job.key !in s.objects && Limits(w, job.issuer).maximumDuration > 0
  {
    LimitsUsableIff(w.spec(job.issuer).transaction);
  }

  lemma Planned(w: World, actions: seq<Action>, id: nat, job: Job, read: Input)
    requires CanStart(w, Exec(w, actions), id, job, read)
    ensures var s, s' := Exec(w, actions), Exec(w, Reopen(actions, id, job, read));
            s' == s.(workers := s.workers[id := Worker(job, Create(PlanFor(w, s, id, job, read)))])
  {
    hide Step, PlanFor, Exec;
    var s := Exec(w, actions);
    PlanningSteps(w, s, id, job, read);
    Began(w, actions, id, job);
    Ran(w, actions + [Begin(id, job)], id, Proceed, Stay(Configure(None), s.objects, s.next));
    Ran(w, actions + [Begin(id, job)] + [Run(id, Proceed)], id, read,
        Stay(Create(PlanFor(w, s, id, job, read)), s.objects, s.next));
  }

  // ----- A recorded request

  /** The material a reconcile loads for the recorded operation. */
  function Prepared(w: World, job: Job, r: Record, read: Input, clock: int): Result<Option<Material>,
      ConfigurationError>
    requires read.Read? && r.spec.operation.Some?
  {
    PrepareWorkload(w.codec, read.prepared, w.spec(job.issuer).protocol, job.metadata, job.issuer, CsrOf(w, job),
                    r.spec.operation.value, r.spec.fallback, clock)
  }

  function Loaded(w: World, job: Job, r: Record, read: Input, clock: int): Using
    requires read.Read? && r.spec.operation.Some? && Prepared(w, job, r, read, clock).Ok?
  {
    Use(w, job, r.spec.operation.value, read.credentials, Prepared(w, job, r, read, clock).value, r.spec.transactionId)
  }

  /** The Secrets and the owner chain still give the recorded configuration. */
  ghost predicate StillConfigured(w: World, job: Job, r: Record, read: Input, clock: int)
  {
    && read.Read? && r.spec.operation.Some? && Credentials(read.credentials)
    && ValidTransaction(w.spec(job.issuer).transaction)
    && Prepared(w, job, r, read, clock).Ok?
    && var using := Loaded(w, job, r, read, clock);
       r.spec.configurationDigest == Digest(job.issuer, Merge(using.credentials, using.workload))
  }

  lemma LoadedFacts(w: World, job: Job, r: Record, read: Input, clock: int)
    requires StillConfigured(w, job, r, read, clock)
    ensures r.spec.operation.Some?
    ensures var request := Loaded(w, job, r, read, clock).request;
            request.operation == r.spec.operation.value && request.transactionId == r.spec.transactionId
  {
    hide Digest, PrepareWorkload;
  }

  /** A reconcile of the record's own request can begin, under the issuer and configuration it was created with. */
  ghost predicate CanResume(w: World, s: State, id: nat, job: Job, r: Record, read: Input)
  {
    && id !in s.workers && job.key in s.objects && s.objects[job.key] == r && !r.status.phase.Issued?
    && r.spec.requestUid == job.uid && r.spec.issuer == Some(job.issuer) && Resumable(w, job, r)
    && StillConfigured(w, job, r, read, s.clock)
  }

  lemma ConfiguredSteps(w: World, s: State, id: nat, job: Job, r: Record, read: Input) returns (using: Using)
    requires CanResume(w, s, id, job, r, read)
    ensures using == Loaded(w, job, r, read, s.clock)
    ensures Step(w, job, Load, Proceed, s.objects, s.clock, s.next) == Stay(Configure(Some(r)), s.objects, s.next)
    ensures Step(w, job, Configure(Some(r)), read, s.objects, s.clock, s.next) ==
            Stay(if r.status.phase.Confirming? then ResumeConfirmation(r, using)
                 else Exchange(r, using), s.objects, s.next)
  {
    hide Digest, PrepareWorkload;
    using := Loaded(w, job, r, read, s.clock);
  }

  /** The run, continued by a new reconcile until it has loaded its configuration. */
  function Reopen(actions: seq<Action>, id: nat, job: Job, read: Input): seq<Action>
  {
    actions + [Begin(id, job)] + [Run(id, Proceed)] + [Run(id, read)]
  }

  lemma Reopened(w: World, actions: seq<Action>, id: nat, job: Job, r: Record, read: Input) returns (using: Using)
    requires CanResume(w, Exec(w, actions), id, job, r, read)
    ensures using == Loaded(w, job, r, read, Exec(w, actions).clock)
            && using.request.transactionId == r.spec.transactionId
    ensures var s, s' := Exec(w, actions), Exec(w, Reopen(actions, id, job, read));
            && s'.objects == s.objects && s'.log == s.log && s'.clock == s.clock && s'.next == s.next
            && s'.workers == s.workers[id := Worker(job, if r.status.phase.Confirming?
                                                    then ResumeConfirmation(r, using) else Exchange(r, using))]
  {
    hide Step, Resumable, StillConfigured;
    var s := Exec(w, actions);
    using := ConfiguredSteps(w, s, id, job, r, read);
    Began(w, actions, id, job);
    Ran(w, actions + [Begin(id, job)], id, Proceed, Stay(Configure(Some(r)), s.objects, s.next));
    Ran(w, actions + [Begin(id, job)] + [Run(id, Proceed)], id, read,
        Stay(if r.status.phase.Confirming? then ResumeConfirmation(r, using)
             else Exchange(r, using), s.objects, s.next));
  }

  // ----- Records that cannot be resumed

  /** What Load does with the record of another CSR, issuer, operation or generation. */
  lemma MismatchStep(w: World, job: Job, r: Record, objects: Objects, clock: int, next: nat)
    requires job.key in objects && objects[job.key] == r && r.spec.requestUid == job.uid
             && SelectedOperation(w.spec(job.issuer).protocol, job.metadata.revision).Some?
    requires !Resumable(w, job, r) || (!r.status.phase.Issued? && r.spec.issuer != Some(job.issuer))
    ensures Step(w, job, Load, Proceed, objects, clock, next) == Stay(Drop(r), objects, next)
  {
  }

  /**
   A record of this request that was created for another CSR, issuer or operation, or unless issued for
   another generation of the issuer, is removed without a message.
   */
  lemma MismatchIsRemoved(w: World, actions: seq<Action>, id: nat, job: Job)
    requires var s := Exec(w, actions);
             && id !in s.workers && job.key in s.objects
             && var r := s.objects[job.key];
             && r.spec.requestUid == job.uid
             && SelectedOperation(w.spec(job.issuer).protocol, job.metadata.revision).Some?
             && (!Resumable(w, job, r) || (!r.status.phase.Issued? && r.spec.issuer != Some(job.issuer)))
    ensures var s := Exec(w, actions);
            var s' := Exec(w, actions + [Begin(id, job)] + [Run(id, Proceed)] + [Run(id, Proceed)]);
            var r := s.objects[job.key];
            s'.log == s.log + [Removed(r, Failed(job, r))] && s'.objects == s.objects - {job.key}
  {
    hide Step, Exec, Resumable, SelectedOperation;
    var s := Exec(w, actions);
    var r, more := s.objects[job.key], actions + [Begin(id, job)];
    StoredRecord(w, actions, job.key);
    Began(w, actions, id, job);
    MismatchStep(w, job, r, s.objects, s.clock, s.next);
    Ran(w, more, id, Proceed, Stay(Drop(r), s.objects, s.next));
    Dropped(w, more + [Run(id, Proceed)], id, job, r);
  }

  /**
   A record whose configuration the Secrets no longer give is removed without a message; nothing happens
   to it when they cannot be read.
   */
  lemma RotationIsNoticed(w: World, actions: seq<Action>, id: nat, job: Job, r: Record, read: Input)
    requires var s := Exec(w, actions);
             && id !in s.workers && job.key in s.objects && s.objects[job.key] == r && !r.status.phase.Issued?
             && r.spec.requestUid == job.uid && r.spec.issuer == Some(job.issuer) && Resumable(w, job, r)
             && read.Read? && r.spec.operation.Some? && !StillConfigured(w, job, r, read, s.clock)
    ensures var s := Exec(w, actions);
            var s' := Exec(w, Reopen(actions, id, job, read) + [Run(id, Proceed)]);
            if Credentials(read.credentials) && ValidTransaction(w.spec(job.issuer).transaction)
               && Prepared(w, job, r, read, s.clock).Ok?
            then s'.log == s.log + [Removed(r, Failed(job, r))] && s'.objects == s.objects - {job.key}
            else s' == s
  {
    hide Step, Exec, Resumable, StillConfigured, Prepared, Credentials, ValidTransaction;
    var s := Exec(w, actions);
    var begun := actions + [Begin(id, job)];
    StoredRecord(w, actions, job.key);
    Began(w, actions, id, job);
    NoticingSteps(w, s, job, r, read);
    Ran(w, begun, id, Proceed, Stay(Configure(Some(r)), s.objects, s.next));
    var more := begun + [Run(id, Proceed)];
    if Credentials(read.credentials) && ValidTransaction(w.spec(job.issuer).transaction)
       && Prepared(w, job, r, read, s.clock).Ok? {
      Ran(w, more, id, read, Stay(Drop(r), s.objects, s.next));
      Dropped(w, more + [Run(id, read)], id, job, r);
    } else {
      Ran(w, more, id, read, Stay(Done, s.objects, s.next));
      Idle(w, more + [Run(id, read)], id, Proceed);
      assert s.workers[id := Worker(job, Load)] - {id} == s.workers;
      assert s.workers[id := Worker(job, Configure(Some(r)))] - {id} == s.workers;
      assert s.log + [] == s.log;
    }
  }

  lemma NoticingSteps(w: World, s: State, job: Job, r: Record, read: Input)
    requires job.key in s.objects && s.objects[job.key] == r && !r.status.phase.Issued?
             && r.spec.requestUid == job.uid && r.spec.issuer == Some(job.issuer) && Resumable(w, job, r)
             && read.Read? && r.spec.operation.Some? && !StillConfigured(w, job, r, read, s.clock)
    ensures Step(w, job, Load, Proceed, s.objects, s.clock, s.next) == Stay(Configure(Some(r)), s.objects, s.next)
    ensures Step(w, job, Configure(Some(r)), read, s.objects, s.clock, s.next) ==
            Stay(if Credentials(read.credentials) && ValidTransaction(w.spec(job.issuer).transaction)
                    && Prepared(w, job, r, read, s.clock).Ok? then Drop(r) else Done, s.objects, s.next)
  {
    hide Digest, PrepareWorkload, Credentials, ValidTransaction;
  }

  /** A record left by another request under the name is removed, and the reconcile goes on without one. */
  lemma StaleIsRemoved(w: World, actions: seq<Action>, id: nat, job: Job)
    requires var s := Exec(w, actions);
             && id !in s.workers && job.key in s.objects && s.objects[job.key].spec.requestUid != job.uid
             && SelectedOperation(w.spec(job.issuer).protocol, job.metadata.revision).Some?
    ensures var s := Exec(w, actions);
            var s' := Exec(w, actions + [Begin(id, job)] + [Run(id, Proceed)] + [Run(id, Proceed)]);
            var r := s.objects[job.key];
            && s'.log == s.log + [Removed(r, Stale(job, r))] && s'.objects == s.objects - {job.key}
            && id in s'.workers && s'.workers[id] == Worker(job, Configure(None))
  {
    hide Step, Exec, SelectedOperation;
    var s := Exec(w, actions);
    var r, more := s.objects[job.key], actions + [Begin(id, job)];
    StoredRecord(w, actions, job.key);
    Began(w, actions, id, job);
    StaleSteps(w, job, r, s.objects, s.clock, s.next);
    RanTwice(w, more, id, Stay(DropStale(r), s.objects, s.next),
             Effect(Configure(None), s.objects - {job.key}, s.next, [Removed(r, Stale(job, r))]));
    assert s.log + [] == s.log;
  }

  lemma StaleSteps(w: World, job: Job, r: Record, objects: Objects, clock: int, next: nat)
    requires job.key in objects && objects[job.key] == r && r.key == job.key && r.spec.requestUid != job.uid
             && SelectedOperation(w.spec(job.issuer).protocol, job.metadata.revision).Some?
    ensures Step(w, job, Load, Proceed, objects, clock, next) == Stay(DropStale(r), objects, next)
    ensures Step(w, job, DropStale(r), Proceed, objects, clock, next) ==
            Effect(Configure(None), objects - {job.key}, next, [Removed(r, Stale(job, r))])
  {
  }

  /**
   From any reachable state, removing a stale record lets the reconcile go on exactly when the name is
   then free; an object that replaced the stale one stays.
   */
  lemma StaleMakesRoom(w: World, actions: seq<Action>, id: nat)
    requires id in Exec(w, actions).workers && Exec(w, actions).workers[id].pc.DropStale?
    ensures var s, s' := Exec(w, actions), Exec(w, actions + [Run(id, Proceed)]);
            var job, r := s.workers[id].job, s.workers[id].pc.record;
            && s'.objects == (if job.key in s.objects && s.objects[job.key].uid == r.uid then s.objects - {job.key}
                              else s.objects)
            && (id in s'.workers <==> job.key !in s'.objects)
            && (id in s'.workers ==> s'.workers[id] == Worker(job, Configure(None)))
  {
    hide Step, Exec, Shape, Justified;
    var s := Exec(w, actions);
    var job, pc := s.workers[id].job, s.workers[id].pc;
    Reachable(w, actions);
    assert WorkerOk(w, s.log, job, pc);
    RoomStep(w, job, pc.record, s.objects, s.clock, s.next);
    Ran(w, actions, id, Proceed, Step(w, job, pc, Proceed, s.objects, s.clock, s.next));
  }

  lemma RoomStep(w: World, job: Job, r: Record, objects: Objects, clock: int, next: nat)
    ensures var e := Step(w, job, DropStale(r), Proceed, objects, clock, next);
            && e.objects == (if r.key in objects && objects[r.key].uid == r.uid then objects - {r.key} else objects)
            && e.pc == if r.key in e.objects then Done else Configure(None)
  {
  }

  // ----- Faults

  /**
   A failed call to the API server, a failed read and a message that cannot be built change nothing in
   the store and send nothing, at every control point; a write also fails when the version is not current.
   */
  lemma FaultsLeaveTheStore(w: World, job: Job, pc: Pc, input: Input, objects: Objects, clock: int, next: nat)
    requires !pc.Requeue? && !pc.Return?
    requires || input.Fault?
             || (pc.MarkEnrolling?
                 && var r := pc.record; r.key in objects ==> objects[r.key].version != r.version)
             || ((pc.StorePending? || pc.StoreConfirming? || pc.StoreIssued?)
                 && var r := pc.answer.to.record; r.key in objects ==> objects[r.key].version != r.version)
    ensures var e := Step(w, job, pc, input, objects, clock, next);
            && e == Stay(e.pc, objects, next)
            && (pc.Load? || pc.DropStale? || pc.Configure? || pc.Create? || pc.Drop? ==> e.pc.Done?)
            && (pc.MarkEnrolling? || pc.StorePending? || pc.StoreConfirming? || pc.StoreIssued? ==> e.pc.Done?)
            && (pc.Exchange? || pc.SendConfirmation? ==> e.pc == Drop(pc.record))
  {
    hide Digest, VerifyResponse, EnrollmentOutcome, Confirm, PrepareWorkload, SelectRenewalFallback, ValidResumed,
         TrustedRecordedChain, PendingStatus, ConfirmingStatus, RejectionDelivery;
  }

  /** The run in which the reconcile removes the record it holds. */
  lemma Dropped(w: World, actions: seq<Action>, id: nat, job: Job, r: Record)
    requires var s := Exec(w, actions);
             && id in s.workers && s.workers[id] == Worker(job, Drop(r)) && r.key == job.key && r.key in s.objects
             && s.objects[r.key].uid == r.uid
    ensures var s, s' := Exec(w, actions), Exec(w, actions + [Run(id, Proceed)]);
            && s'.log == s.log + [Removed(s.objects[r.key], Failed(job, r))]
            && s'.objects == s.objects - {job.key} && id !in s'.workers
  {
    var s := Exec(w, actions);
    DropStep(w, job, r, s.objects, s.clock, s.next);
    hide Step;
    Ran(w, actions, id, Proceed,
        Effect(Done, s.objects - {r.key}, s.next, [Removed(s.objects[r.key], Failed(job, r))]));
  }

  lemma DropStep(w: World, job: Job, r: Record, objects: Objects, clock: int, next: nat)
    requires r.key in objects && objects[r.key].uid == r.uid
    ensures Step(w, job, Drop(r), Proceed, objects, clock, next) ==
            Effect(Done, objects - {r.key}, next, [Removed(objects[r.key], Failed(job, r))])
  {
  }

  /** What the stored record of a run says in its phase. */
  lemma StoredRecord(w: World, actions: seq<Action>, key: SecretKey)
    requires key in Exec(w, actions).objects
    ensures var r := Exec(w, actions).objects[key];
            && r.key == key && WithinBudget(w, Exec(w, actions).log, r)
            && (r.status.phase.Polling? || r.status.phase.Confirming? ==> r.status.certReqId.Some?)
            && (r.status.phase.Confirming? ==> r.status.chain != [])
  {
    hide Step, Apply, Exec, Justified, WorkerOk, AcceptedFor, EnrollmentWaited, ConfirmationWaited;
    Reachable(w, actions);
    var log, r := Exec(w, actions).log, Exec(w, actions).objects[key];
    var i := EarlierStored(log, r);
    LeafOrigin(w, log, i);
    NonceMeaning(w, log, i);
    BudgetKept(w, log, i);
    BudgetStays(w, log[..i], log, r);
  }

  // ----- Enrolling and Polling

  /** The polls an issuer allows: those its spec configures, and otherwise 60. */
  function PollBudget(w: World, issuer: IssuerRef): int
  {
    var configured := w.spec(issuer).transaction.maximumPolls;
    if configured >= 1 then configured else 60
  }

  /** The deadline is not over and, for a poll, there is a nonce to echo and budget left. */
  predicate CanExchange(w: World, r: Record, clock: int)
    requires r.spec.issuer.Some?
  {
    && clock <= r.spec.deadline
    && (r.status.phase.Polling? ==>
          r.status.recipNonce.Nonce? && r.status.polls < PollBudget(w, r.spec.issuer.value))
  }

  lemma ExchangeStep(w: World, job: Job, r: Record, using: Using, objects: Objects, clock: int, next: nat)
    requires r.spec.issuer == Some(job.issuer) && (r.status.phase.Polling? ==> r.status.certReqId.Some?)
    ensures var message :=
              if r.status.phase.Polling? then PollMessage(using.request, next, r.status.certReqId.value,
                                                          r.status.recipNonce)
              else EnrollMessage(using.request, next);
            var t := Transmission(job, r, ForEnrollment, message, using, clock);
            Step(w, job, Exchange(r, using), Proceed, objects, clock, next) ==
            if CanExchange(w, r, clock) then Effect(AwaitEnrollment(t), objects, next + 1, [Sent(t)])
                else Stay(Drop(r), objects, next)
  {
  }

  /**
   An enrollment is taken up where the record says it is: the recorded operation is sent again under the
   recorded ID, or the server is polled for the request it answered waiting.
   */
  lemma EnrollmentIsResumed(w: World, actions: seq<Action>, id: nat, job: Job, r: Record, read: Input)
      returns (t: Transmission)
    requires CanResume(w, Exec(w, actions), id, job, r, read) && !r.status.phase.Confirming?
             && CanExchange(w, r, Exec(w, actions).clock)
    ensures var s, s' := Exec(w, actions), Exec(w, Reopen(actions, id, job, read) + [Run(id, Proceed)]);
            && s'.log == s.log + [Sent(t)] && s'.objects == s.objects
            && s'.workers == s.workers[id := Worker(job, AwaitEnrollment(t))]
            && t == Transmission(job, r, ForEnrollment, t.message, Loaded(w, job, r, read, s.clock), s.clock)
            && t.message.transactionId == r.spec.transactionId && t.message.senderNonce == Nonce(s.next)
            && t.message.version == 2
    ensures r.status.phase.Polling? ==>
              r.status.certReqId.Some? && t.message.body == PollReq(r.status.certReqId.value)
              && t.message.recipNonce == r.status.recipNonce
    ensures !r.status.phase.Polling? ==>
              r.spec.operation.Some? && t.message.body == Enroll(r.spec.operation.value)
              && t.message.recipNonce.NoNonce?
  {
    hide Step, Resumable, Reopen, Exec, StillConfigured, Loaded, WithinBudget;
    StoredRecord(w, actions, job.key);
    LoadedFacts(w, job, r, read, Exec(w, actions).clock);
    var more := Reopen(actions, id, job, read);
    var using := Reopened(w, actions, id, job, r, read);
    var s := Exec(w, actions);
    var message := if r.status.phase.Polling?
        then PollMessage(using.request, s.next, r.status.certReqId.value, r.status.recipNonce)
                   else EnrollMessage(using.request, s.next);
    t := Transmission(job, r, ForEnrollment, message, using, s.clock);
    ExchangeStep(w, job, r, using, s.objects, s.clock, s.next);
    Ran(w, more, id, Proceed, Effect(AwaitEnrollment(t), s.objects, s.next + 1, [Sent(t)]));
  }

  /** Past the deadline, without a nonce to echo or with the budget spent, the record is removed without a message. */
  lemma EnrollmentIsGivenUp(w: World, actions: seq<Action>, id: nat, job: Job, r: Record, read: Input)
    requires CanResume(w, Exec(w, actions), id, job, r, read) && !r.status.phase.Confirming?
             && !CanExchange(w, r, Exec(w, actions).clock)
    ensures var s := Exec(w, actions);
            var s' := Exec(w, Reopen(actions, id, job, read) + [Run(id, Proceed)] + [Run(id, Proceed)]);
            s'.log == s.log + [Removed(r, Failed(job, r))] && s'.objects == s.objects - {job.key}
  {
    hide Step, Resumable, StillConfigured, Reopen;
    StoredRecord(w, actions, job.key);
    var more := Reopen(actions, id, job, read);
    var using := Reopened(w, actions, id, job, r, read);
    var s := Exec(w, actions);
    ExchangeStep(w, job, r, using, s.objects, s.clock, s.next);
    Ran(w, more, id, Proceed, Stay(Drop(r), s.objects, s.next));
    Dropped(w, more + [Run(id, Proceed)], id, job, r);
  }

  // ----- Confirming

  function Retrusted(w: World, job: Job, r: Record, using: Using, clock: int): Result<Path, ChainError>
  {
    var request := using.request;
    TrustedRecordedChain(w.verify, r.status.chain, CsrOf(w, job).key, request.anchors + request.responseCertificates,
                         request.anchors, clock)
  }

  function Resumed(r: Record): PendingTransaction
    requires r.status.certReqId.Some?
  {
    PendingTransaction(r.status.certReqId.value, r.status.recipNonce, r.status.responseSigner, 0, r.status.requestNonce)
  }

  /** The deadline is not over and the budget not spent. */
  predicate CanConfirm(w: World, r: Record, clock: int)
    requires r.spec.issuer.Some?
  {
    clock <= r.spec.deadline && r.status.polls < PollBudget(w, r.spec.issuer.value)
  }

  lemma RetrustStep(w: World, job: Job, r: Record, using: Using, objects: Objects, clock: int, next: nat)
    requires r.status.certReqId.Some?
    ensures var trusted := Retrusted(w, job, r, using, clock);
            && Step(w, job, ResumeConfirmation(r, using), Proceed, objects, clock, next) ==
               Stay(if trusted.Ok? then SendConfirmation(r, using, trusted.value, Resumed(r))
                    else Drop(r), objects, next)
            && (trusted.Ok? ==> trusted.value != [] && r.status.chain != [] && trusted.value[0] == r.status.chain[0])
  {
    var request := using.request;
    if r.status.chain != [] {
      ValidatedLeaf(w.verify, r.status.chain[0],
                    r.status.chain[1..] + (request.anchors + request.responseCertificates), request.anchors, clock);
    }
    hide ValidateAndOrderChain;
  }

  lemma ConfirmStep(w: World, job: Job, r: Record, using: Using, chain: Path, objects: Objects, clock: int, next: nat)
    requires r.spec.issuer == Some(job.issuer) && r.status.certReqId.Some? && chain != []
    ensures var t := Transmission(job, r, ForConfirmation,
                                  ConfirmationMessage(using.request, next, chain[0], Resumed(r), false), using, clock);
            Step(w, job, SendConfirmation(r, using, chain, Resumed(r)), Proceed, objects, clock, next) ==
            if CanConfirm(w, r, clock) then Effect(AwaitConfirmation(t, chain, Resumed(r)), objects, next + 1,
                                                   [Sent(t)]) else Stay(Drop(r), objects, next)
  {
  }

  /** The run, continued until the recorded chain has been checked again. */
  lemma Retrusting(w: World, actions: seq<Action>, id: nat, job: Job, r: Record, read: Input) returns (using: Using)
    requires CanResume(w, Exec(w, actions), id, job, r, read) && r.status.phase.Confirming?
    ensures using == Loaded(w, job, r, read, Exec(w, actions).clock)
            && using.request.transactionId == r.spec.transactionId
    ensures r.key == job.key && r.status.certReqId.Some? && r.status.chain != []
    ensures var s, s' := Exec(w, actions), Exec(w, Reopen(actions, id, job, read) + [Run(id, Proceed)]);
            var trusted := Retrusted(w, job, r, using, s.clock);
            && s'.objects == s.objects && s'.log == s.log && s'.clock == s.clock && s'.next == s.next
            && s'.workers == s.workers[id := Worker(job, if trusted.Ok?
                                                    then SendConfirmation(r, using, trusted.value, Resumed(r))
                                                        else Drop(r))]
            && (trusted.Ok? ==> trusted.value != [] && trusted.value[0] == r.status.chain[0])
  {
    hide Step, Resumable, Retrusted, Reopen, Loaded, StillConfigured, Exec;
    StoredRecord(w, actions, job.key);
    using := Reopened(w, actions, id, job, r, read);
    var s := Exec(w, actions);
    RetrustStep(w, job, r, using, s.objects, s.clock, s.next);
    var trusted := Retrusted(w, job, r, using, s.clock);
    Ran(w, Reopen(actions, id, job, read), id, Proceed,
        Stay(if trusted.Ok? then SendConfirmation(r, using, trusted.value, Resumed(r))
             else Drop(r), s.objects, s.next));
  }

  /**
   A confirmation is taken up where the record says it is: certConf for the recorded leaf and id, or a
   poll for the answer to the certConf that was sent.
   */
  lemma ConfirmationIsResumed(w: World, actions: seq<Action>, id: nat, job: Job, r: Record, read: Input)
      returns (t: Transmission)
    requires CanResume(w, Exec(w, actions), id, job, r, read) && r.status.phase.Confirming?
             && CanConfirm(w, r, Exec(w, actions).clock)
    requires Retrusted(w, job, r, Loaded(w, job, r, read, Exec(w, actions).clock), Exec(w, actions).clock).Ok?
    ensures var s := Exec(w, actions);
            var s' := Exec(w, Reopen(actions, id, job, read) + [Run(id, Proceed)] + [Run(id, Proceed)]);
            && r.status.chain != [] && r.status.certReqId.Some?
            && s'.log == s.log + [Sent(t)] && s'.objects == s.objects && id in s'.workers
            && s'.workers[id].job == job && s'.workers[id].pc.AwaitConfirmation? && s'.workers[id].pc.transmission == t
            && s'.workers[id].pc.pending ==
               PendingTransaction(r.status.certReqId.value, r.status.recipNonce, r.status.responseSigner, 0,
                                  r.status.requestNonce)
            && t == Transmission(job, r, ForConfirmation, t.message, Loaded(w, job, r, read, s.clock), s.clock)
            && t.message == Message(r.spec.transactionId, Nonce(s.next), r.status.recipNonce,
                                    if r.status.chain[0].signer.algorithm.MlDsa? then 3 else 2, t.message.body)
    ensures t.message.body == if r.status.requestNonce.NoNonce?
            then CertConf(r.status.chain[0], r.status.certReqId.value, false) else PollReq(-1)
  {
    hide Step, Resumable, Retrusted, Reopen, Loaded, StillConfigured;
    var s := Exec(w, actions);
    var using := Retrusting(w, actions, id, job, r, read);
    var chain := Retrusted(w, job, r, using, s.clock).value;
    ConfirmStep(w, job, r, using, chain, s.objects, s.clock, s.next);
    t := Transmission(job, r, ForConfirmation, ConfirmationMessage(using.request, s.next, chain[0], Resumed(r), false),
                      using, s.clock);
    Ran(w, Reopen(actions, id, job, read) + [Run(id, Proceed)], id, Proceed,
        Effect(AwaitConfirmation(t, chain, Resumed(r)), s.objects, s.next + 1, [Sent(t)]));
  }

  /**
   With the recorded chain no longer trusted, past the deadline or with the budget spent, the record is
   removed without a message.
   */
  lemma ConfirmationIsGivenUp(w: World, actions: seq<Action>, id: nat, job: Job, r: Record, read: Input)
    requires CanResume(w, Exec(w, actions), id, job, r, read) && r.status.phase.Confirming?
    requires || !CanConfirm(w, r, Exec(w, actions).clock)
             || Retrusted(w, job, r, Loaded(w, job, r, read, Exec(w, actions).clock), Exec(w, actions).clock).Err?
    ensures var s := Exec(w, actions);
            var reopened := Reopen(actions, id, job, read);
            var s' := Exec(w, reopened + [Run(id, Proceed)] + [Run(id, Proceed)] + [Run(id, Proceed)]);
            s'.log == s.log + [Removed(r, Failed(job, r))] && s'.objects == s.objects - {job.key}
  {
    hide Step, Resumable, Retrusted, Reopen, Loaded, StillConfigured;
    var s := Exec(w, actions);
    var using := Retrusting(w, actions, id, job, r, read);
    var trusted := Retrusted(w, job, r, using, s.clock);
    var more := Reopen(actions, id, job, read) + [Run(id, Proceed)];
    if trusted.Err? {
      Dropped(w, more, id, job, r);
      Idle(w, more + [Run(id, Proceed)], id, Proceed);
    } else {
      ConfirmStep(w, job, r, using, trusted.value, s.objects, s.clock, s.next);
      Ran(w, more, id, Proceed, Stay(Drop(r), s.objects, s.next));
      Dropped(w, more + [Run(id, Proceed)], id, job, r);
    }
  }

  /**
   A confirmation that no poll was answered for is within its budget, so only the deadline or lost trust
   can stop it.
   */
  lemma UnpolledCanConfirm(w: World, actions: seq<Action>, key: SecretKey)
    requires key in Exec(w, actions).objects && Exec(w, actions).objects[key].status.phase.Confirming?
    requires !ConfirmationPolled(Exec(w, actions).log, Exec(w, actions).objects[key].uid)
    ensures var s := Exec(w, actions);
            var r := s.objects[key];
            r.spec.issuer.Some? && (CanConfirm(w, r, s.clock) <==> s.clock <= r.spec.deadline)
  {
    hide Exec;
    StoredRecord(w, actions, key);
  }

  // ----- Issued

  lemma RecoverSteps(w: World, job: Job, r: Record, trust: Input, objects: Objects, clock: int, next: nat)
      returns (chain: Path)
    requires job.key in objects && objects[job.key] == r && r.status.phase.Issued? && r.spec.requestUid == job.uid
             && Resumable(w, job, r)
    requires trust.Trust? && TrustedRecordedChain(w.verify, r.status.chain, CsrOf(w, job).key, trust.candidates,
                                                  trust.anchors, clock).Ok?
    ensures Step(w, job, Load, Proceed, objects, clock, next) == Stay(Recover(r), objects, next)
    ensures Step(w, job, Recover(r), trust, objects, clock, next) ==
            Effect(Done, objects, next, [Returned(job, r, chain)])
    ensures chain != [] && r.status.chain != [] && chain[0] == r.status.chain[0]
  {
    chain := TrustedRecordedChain(w.verify, r.status.chain, CsrOf(w, job).key, trust.candidates, trust.anchors,
                                  clock).value;
    ValidatedLeaf(w.verify, r.status.chain[0], r.status.chain[1..] + trust.candidates, trust.anchors, clock);
  }

  /**
   A certificate that was recorded but never handed to cert-manager is returned by the next reconcile,
   without another message, whatever happened to the issuer's spec or credentials since.
   */
  lemma IssuedIsRecovered(w: World, actions: seq<Action>, id: nat, job: Job, trust: Input) returns (chain: Path)
    requires id !in Exec(w, actions).workers && trust.Trust?
    requires var s := Exec(w, actions);
             && job.key in s.objects
             && var r := s.objects[job.key];
             && r.status.phase.Issued? && r.spec.requestUid == job.uid && Resumable(w, job, r)
             && TrustedRecordedChain(w.verify, r.status.chain, CsrOf(w, job).key, trust.candidates, trust.anchors,
                                     s.clock).Ok?
    ensures var s := Exec(w, actions);
            var r := s.objects[job.key];
            && Exec(w, actions + [Begin(id, job)] + [Run(id, Proceed)] + [Run(id, trust)]).log ==
                s.log + [Returned(job, r, chain)]
            && chain != [] && r.status.chain != [] && chain[0] == r.status.chain[0]
  {
    hide Step, Resumable, TrustedRecordedChain;
    var s := Exec(w, actions);
    var r := s.objects[job.key];
    chain := RecoverSteps(w, job, r, trust, s.objects, s.clock, s.next);
    Began(w, actions, id, job);
    var more := actions + [Begin(id, job)];
    Ran(w, more, id, Proceed, Stay(Recover(r), s.objects, s.next));
    more := more + [Run(id, Proceed)];
    Ran(w, more, id, trust, Effect(Done, s.objects, s.next, [Returned(job, r, chain)]));
  }

  /**
   Recovery returns a stored chain exactly when it still certifies the CSR key and is anchored by the
   trust read now. When the trust cannot be read the certificate is kept for a later reconcile.
   */
  lemma RecoveryIff(w: World, job: Job, r: Record, input: Input, objects: Objects, clock: int, next: nat)
    requires Sound(w.verify)
    ensures var e := Step(w, job, Recover(r), input, objects, clock, next);
            var stored := r.status.chain;
            if stored == [] || !AllUsageOk(stored) || stored[0].key != CsrOf(w, job).key then
              e == Stay(Drop(r), objects, next)
            else if !input.Trust? then e == Stay(Done, objects, next)
            else if Anchored(stored[0], input.anchors, Without(stored[1..] + input.candidates, stored[0]), clock) then
              && e.pc.Done? && e.objects == objects && |e.events| == 1 && e.events[0].Returned?
              && e.events[0].job == job && e.events[0].record == r && OrderedChain(stored[0], e.events[0].chain)
            else e == Stay(Drop(r), objects, next)
  {
    hide Sound, VerifyChain, StepLoad, StepConfigure, StepExchange, StepAwaitEnrollment, StepSendConfirmation,
         StepAwaitConfirmation;
    if input.Trust? {
      TrustedRecordedChainIff(w.verify, r.status.chain, CsrOf(w, job).key, input.candidates, input.anchors, clock);
    }
  }
}
