/**
 The invariant of store, history and reconciles, and its preservation by every step of Sign.
 */
module Invariant {
  import opened Basics
  import opened Certificates
  import opened Protocol
  import opened Configuration
  import opened Workload
  import opened Store
  import opened Signer
  import opened History

  // ----- The invariant of store and history

  ghost predicate Numbered(log: Log, next: nat)
  {
    && (forall p :: Stored(p) in log ==> p.uid < next && p.version < next && p.spec.transactionId < next)
    && (forall e :: e in log && e.Removed? ==> e.record.uid < next)
  }

  ghost predicate Consistent(log: Log)
  {
    forall p, q :: Stored(p) in log && Stored(q) in log ==>
      && (p.version == q.version ==> p == q)
      && (p.uid == q.uid ==> SameObject(p, q))
  }

  /** The store holds the newest version of every object that is not gone. */
  ghost predicate Current(objects: Objects, log: Log)
  {
    && (forall k :: k in objects ==>
          objects[k].key == k && Stored(objects[k]) in log && Latest(log, objects[k]) && !Gone(log, objects[k].uid))
    && (forall p :: Stored(p) in log ==> Gone(log, p.uid) || (p.key in objects && objects[p.key].uid == p.uid))
  }

  ghost predicate Shape(objects: Objects, log: Log, next: nat)
  {
    Numbered(log, next) && Consistent(log) && Current(objects, log)
  }

  // ----- One event at a time

  lemma QuietShape(objects: Objects, log: Log, next: nat, next': nat, e: Event)
    requires Shape(objects, log, next) && !e.Stored? && !e.Removed? && next <= next'
    ensures Shape(objects, log + [e], next')
  {
    assert forall p :: Stored(p) in log + [e] <==> Stored(p) in log;
    assert forall d :: d in log + [e] && d.Removed? <==> d in log && d.Removed?;
    assert forall uid :: Gone(log + [e], uid) <==> Gone(log, uid);
  }

  lemma StoredMore(log: Log, r: Record)
    ensures forall p :: Stored(p) in log + [Stored(r)] <==> Stored(p) in log || p == r
    ensures forall uid :: Gone(log + [Stored(r)], uid) <==> Gone(log, uid)
  {
    assert forall d :: d in log + [Stored(r)] && d.Removed? <==> d in log && d.Removed?;
  }

  lemma CreateShape(objects: Objects, log: Log, next: nat, r: Record)
    requires Shape(objects, log, next) && r.key !in objects
    requires r.uid == next && r.spec.transactionId == next + 1 && r.version == next + 2
    ensures Shape(objects[r.key := r], log + [Stored(r)], next + 3)
    ensures forall q :: Stored(q) in log && q.key == r.key ==> Gone(log, q.uid)
  {
    StoredMore(log, r);
  }

  /** A status update that the server accepts is an update of exactly the version the reconcile holds. */
  lemma UpdateShape(objects: Objects, log: Log, next: nat, p: Record, r: Record)
    requires Shape(objects, log, next) && Stored(p) in log && CanUpdate(objects, p)
    requires r == Updated(p, r.status, next)
    ensures objects[p.key] == p && Latest(log, p) && !Gone(log, p.uid)
    ensures Shape(objects[p.key := r], log + [Stored(r)], next + 1)
  {
    assert objects[p.key] == p;
    UpdateConsistent(log, next, p, r);
    UpdateCurrent(objects, log, next, p, r);
  }

  lemma UpdateConsistent(log: Log, next: nat, p: Record, r: Record)
    requires Numbered(log, next) && Consistent(log) && Stored(p) in log && r == Updated(p, r.status, next)
    ensures Numbered(log + [Stored(r)], next + 1) && Consistent(log + [Stored(r)])
  {
    StoredMore(log, r);
    var log' := log + [Stored(r)];
    assert forall d :: d in log' && d.Removed? <==> d in log && d.Removed?;
    forall q, q' | Stored(q) in log' && Stored(q') in log'
      ensures (q.version == q'.version ==> q == q') && (q.uid == q'.uid ==> SameObject(q, q'))
    {
      assert q != r ==> Stored(q) in log;
      assert q' != r ==> Stored(q') in log;
      assert SameObject(p, r);
    }
  }

  lemma UpdateCurrent(objects: Objects, log: Log, next: nat, p: Record, r: Record)
    requires Shape(objects, log, next) && Stored(p) in log && p.key in objects && objects[p.key] == p
    requires r == Updated(p, r.status, next)
    ensures Current(objects[p.key := r], log + [Stored(r)])
  {
    StoredMore(log, r);
    var objects' := objects[p.key := r];
    forall k | k in objects'
      ensures objects'[k].key == k && Stored(objects'[k]) in log + [Stored(r)]
              && Latest(log + [Stored(r)], objects'[k]) && !Gone(log + [Stored(r)], objects'[k].uid)
    {
      if k != p.key {
        assert Stored(objects[k]) in log;
        assert objects[k].uid != p.uid;
      }
    }
    forall q | Stored(q) in log + [Stored(r)] ensures Gone(log + [Stored(r)], q.uid)
    || (q.key in objects' && objects'[q.key].uid == q.uid) {
      if q != r {
        assert Stored(q) in log;
      }
    }
  }

  lemma RemoveShape(objects: Objects, log: Log, next: nat, key: SecretKey, cause: Cause)
    requires Shape(objects, log, next) && key in objects
    ensures Shape(objects - {key}, log + [Removed(objects[key], cause)], next)
  {
    var e := Removed(objects[key], cause);
    assert forall p :: Stored(p) in log + [e] <==> Stored(p) in log;
    forall uid ensures Gone(log + [e], uid) <==> Gone(log, uid) || uid == objects[key].uid {
      assert e in log + [e];
      assert forall d :: d in log ==> d in log + [e];
    }
    forall k | k in objects && k != key ensures objects[k].uid != objects[key].uid {
      assert Stored(objects[k]) in log && Stored(objects[key]) in log;
    }
  }

  // ----- What a reconcile knows at each control point

  /** A version of the record of this request. */
  ghost predicate Held(log: Log, job: Job, r: Record)
  {
    Stored(r) in log && r.key == job.key && r.spec.requestUid == job.uid
  }

  /** The confirmation state in memory is the recorded one. */
  ghost predicate Resumes(s: Store.Status, chain: Path, pending: PendingTransaction)
  {
    && chain != [] && s.chain != [] && chain[0] == s.chain[0] && s.certReqId == Some(pending.certReqId)
    && pending.recipNonce == s.recipNonce && pending.requestNonce == s.requestNonce
    && (pending.signer.None? || pending.signer == s.responseSigner)
  }

  /** An answer that delays the confirmation it resumed. */
  ghost predicate Continues(a: Answer, chain: Path, pending: PendingTransaction)
  {
    exists sent ::
      Resumes(a.to.record.status, chain, sent) && Confirm(a.response, a.to.message, sent) == Ok(Some(pending))
  }

  ghost predicate PlanOk(w: World, job: Job, plan: Plan)
  {
    var protocol := w.spec(job.issuer).protocol;
    var selected := SelectedOperation(protocol, job.metadata.revision);
    && selected.Some?
    && (if plan.fallback.Some? then selected == Some(KUR) && FallbackOperation(protocol) == Some(plan.operation)
        else selected == Some(plan.operation))
    && FromSettings(w, job.issuer, plan.operation, plan.using) && plan.using.request.csrKey == CsrOf(w, job).key
    && UsableLimits(Limits(w, job.issuer))
  }

  ghost predicate Transmitted(w: World, log: Log, job: Job, t: Transmission)
  {
    Sent(t) in log && SentOk(w, log, t) && t.job == job
  }

  ghost predicate Received(w: World, log: Log, job: Job, a: Answer)
  {
    Answered(a) in log && AnsweredOk(w, log, a) && SentOk(w, log, a.to) && a.to.job == job
  }

  /** The message on its way rejects what an answer to this record delivered, for the reason it was refused. */
  ghost predicate Rejecting(w: World, log: Log, t: Transmission, reason: Error, signer: Option<Certificate>)
  {
    && Sent(t) in log && t.purpose.ForRejection?
    && exists a :: Answered(a) in log && RejectedBy(w, a, t, reason, signer)
  }

  ghost predicate RejectedBy(w: World, a: Answer, t: Transmission, reason: Error, signer: Option<Certificate>)
  {
    var outcome := EnrollmentOutcome(w, a);
    && a.to.purpose.ForEnrollment? && a.to.record == t.record && a.to.using == t.using && Refused(w, a, t.message)
    && outcome.error == reason && outcome.refusal.value.signer == signer
  }

  ghost predicate WorkerOk(w: World, log: Log, job: Job, pc: Pc)
  {
    match pc
    case Load => true
    case Done => true
    case Configure(None) => true
    case Configure(Some(r)) =>
      && Held(log, job, r) && r.spec.csrDigest == Sha256(job.csr) && r.spec.issuer == Some(job.issuer)
      && r.spec.operation.Some?
      && !r.status.phase.Issued?
    case DropStale(r) => Stored(r) in log && r.key == job.key && r.spec.requestUid != job.uid
    case Drop(r) => Held(log, job, r)
    case Recover(r) => Held(log, job, r) && r.status.phase.Issued? && r.spec.csrDigest == Sha256(job.csr)
    case Create(plan) => PlanOk(w, job, plan)
    case MarkEnrolling(r, using) => Bound(w, log, job, r, using) && r.status == NewStatus
    case Exchange(r, using) => Bound(w, log, job, r, using) && !r.status.phase.Confirming? && !r.status.phase.Issued?
    case AwaitEnrollment(t) => Transmitted(w, log, job, t) && t.purpose.ForEnrollment?
    case Reject(a, reason, refusal) =>
      && Received(w, log, job, a) && a.to.purpose.ForEnrollment?
      && EnrollmentOutcome(w, a) == Refuses(reason, Some(refusal))
    case AwaitRejection(t, reason, signer) => Held(log, job, t.record) && Rejecting(w, log, t, reason, signer)
    case StorePending(a, pending) => Received(w, log, job, a) && a.to.purpose.ForEnrollment?
    && EnrollmentOutcome(w, a) == Waits(pending)
    case StoreConfirming(a, chain, pending) =>
      && Received(w, log, job, a)
      && (if a.to.purpose.ForEnrollment? then EnrollmentOutcome(w, a) == AwaitsConfirmation(chain, pending)
          else Continues(a, chain, pending))
    case ResumeConfirmation(r, using) => Bound(w, log, job, r, using) && r.status.phase.Confirming?
    case SendConfirmation(r, using, chain, pending) => Bound(w, log, job, r, using) && r.status.phase.Confirming?
    && Resumes(r.status, chain, pending)
    case AwaitConfirmation(t, chain, pending) => Transmitted(w, log, job, t) && t.purpose.ForConfirmation?
    && Resumes(t.record.status, chain, pending)
    case Requeue(r, _) => Held(log, job, r) && r.spec.issuer.Some? && UsableLimits(Limits(w, r.spec.issuer.value))
    case Return(r, chain) => ReturnedOk(log, job, r, chain)
    case StoreIssued(a, chain) =>
      && Received(w, log, job, a)
      && (if a.to.purpose.ForEnrollment? then
            && EnrollmentOutcome(w, a).Completed?
            && EnrollmentOutcome(w, a).chain == chain
          else
            && a.response.body.PkiConf?
            && chain != []
            && a.to.record.status.chain != []
            && chain[0] == a.to.record.status.chain[0])
  }

  /** A reconcile only relies on events that have happened. */
  lemma WorkerStays(w: World, past: Log, log: Log, job: Job, pc: Pc)
    requires past <= log && WorkerOk(w, past, job, pc)
    ensures WorkerOk(w, log, job, pc)
  {
    assert forall e :: e in past ==> e in log;
  }

  ghost predicate EventsOk(w: World, log: Log, events: Log)
  {
    forall i :: 0 <= i < |events| ==> EventOk(w, log + events[..i], events[i])
  }

  /**
   What a step must achieve: the store still matches the history, its events are justified, and it knows
   what it needs next.
   */
  ghost predicate StepOk(w: World, log: Log, job: Job, effect: Effect)
  {
    && Shape(effect.objects, log + effect.events, effect.next)
    && EventsOk(w, log, effect.events)
    && WorkerOk(w, log + effect.events, job, effect.pc)
  }

  lemma NoEvents(w: World, log: Log)
    ensures log + [] == log && EventsOk(w, log, [])
  {
  }

  lemma OneEvent(w: World, log: Log, e: Event)
    requires EventOk(w, log, e)
    ensures EventsOk(w, log, [e])
  {
    assert log + [e][..0] == log;
  }

  lemma StayOk(w: World, log: Log, job: Job, pc: Pc, objects: Objects, next: nat)
    requires Shape(objects, log, next) && WorkerOk(w, log, job, pc)
    ensures StepOk(w, log, job, Stay(pc, objects, next))
  {
    NoEvents(w, log);
  }

  lemma DoneOk(w: World, log: Log, job: Job, objects: Objects, next: nat)
    requires Shape(objects, log, next)
    ensures StepOk(w, log, job, Stay(Done, objects, next))
  {
    StayOk(w, log, job, Done, objects, next);
  }

  // ----- Loading and creating

  lemma LoadOk(w: World, log: Log, job: Job, input: Input, objects: Objects, next: nat)
    requires Shape(objects, log, next)
    ensures StepOk(w, log, job, StepLoad(w, job, input, objects, next))
  {
    hide StepOk, Latest, Gone;
    var pc := StepLoad(w, job, input, objects, next).pc;
    assert WorkerOk(w, log, job, pc) by {
      if pc.DropStale? || pc.Drop? || pc.Recover? || (pc.Configure? && pc.resumed.Some?) {
        assert Stored(objects[job.key]) in log && objects[job.key].key == job.key;
      }
    }
    StayOk(w, log, job, pc, objects, next);
  }

  lemma RemovalOk(w: World, log: Log, job: Job, r: Record, cause: Cause, pc: Pc, objects: Objects, next: nat)
    requires Shape(objects, log, next) && Stored(r) in log && r.key == job.key && CanDelete(objects, r)
    requires cause == (if r.spec.requestUid == job.uid then Failed(job, r) else Stale(job, r))
    requires pc.Done? || pc == Configure(None)
    ensures StepOk(w, log, job, Effect(pc, objects - {r.key}, next, [Removed(objects[r.key], cause)]))
  {
    assert RemovedOk(log, objects[r.key], cause);
    RemoveShape(objects, log, next, r.key, cause);
    OneEvent(w, log, Removed(objects[r.key], cause));
  }

  lemma DropStaleOk(w: World, log: Log, job: Job, r: Record, input: Input, objects: Objects, next: nat)
    requires Shape(objects, log, next) && WorkerOk(w, log, job, DropStale(r))
    ensures StepOk(w, log, job, StepDropStale(job, r, input, objects, next))
  {
    if input.Fault? || (r.key in objects && !CanDelete(objects, r)) {
      StayOk(w, log, job, Done, objects, next);
    } else if r.key !in objects {
      StayOk(w, log, job, Configure(None), objects, next);
    } else {
      RemovalOk(w, log, job, r, Stale(job, r), Configure(None), objects, next);
    }
  }

  lemma DropOk(w: World, log: Log, job: Job, r: Record, input: Input, objects: Objects, next: nat)
    requires Shape(objects, log, next) && WorkerOk(w, log, job, Drop(r))
    ensures StepOk(w, log, job, StepDrop(job, r, input, objects, next))
  {
    if input.Fault? || !CanDelete(objects, r) {
      StayOk(w, log, job, Done, objects, next);
    } else {
      RemovalOk(w, log, job, r, Failed(job, r), Done, objects, next);
    }
  }

  /**
   The workload material of a prepared enrollment is identified by its data, and for a KUR it names the
   protecting certificate.
   */
  lemma PreparedMaterial(w: World, job: Job, cluster: Cluster, operation: Operation, fallback: Option<Reason>,
                         clock: int, material: Option<Material>)
    requires PrepareWorkload(w.codec, cluster, w.spec(job.issuer).protocol, job.metadata, job.issuer, CsrOf(w, job),
                             operation, fallback, clock) == Ok(material)
    ensures material.Some? <==> !operation.P10CR?
    ensures material.Some? ==> Configuration.Workload(material.value.secrets)
    ensures operation.IR? ==> material.value.protection.None?
    ensures operation.KUR? ==>
              material.value.protection.Some? && PinnedProtection(w.codec, material.value.secrets,
                                                                  material.value.protection.value)
  {
    if operation.KUR? {
      MaterialFingerprints(w.codec, cluster, job.metadata, job.issuer, CsrOf(w, job));
      var k := KurCurrentKey(w.codec, cluster, job.metadata, job.issuer, CsrOf(w, job));
      assert TwoEntries(material.value.secrets, k);
    }
  }

  lemma UseFromSettings(w: World, job: Job, operation: Operation, credentials: Fingerprints,
                        material: Option<Material>, transactionId: nat)
    requires Credentials(credentials)
    requires material.Some? <==> !operation.P10CR?
    requires material.Some? ==> Configuration.Workload(material.value.secrets)
    requires operation.IR? ==> material.value.protection.None?
    requires operation.KUR? ==>
               material.value.protection.Some? && PinnedProtection(w.codec, material.value.secrets,
                                                                   material.value.protection.value)
    ensures var using := Use(w, job, operation, credentials, material, transactionId);
            && FromSettings(w, job.issuer, operation, using) && using.request.csrKey == CsrOf(w, job).key
            && using.request.transactionId == transactionId
  {
  }

  /** Everything the configuration step hands on, whether for a new or a resumed transaction. */
  lemma ConfiguredUse(w: World, job: Job, input: Input, operation: Operation, fallback: Option<Reason>, clock: int,
                      transactionId: nat)
    requires input.Read? && Credentials(input.credentials) && ValidTransaction(w.spec(job.issuer).transaction)
    requires PrepareWorkload(w.codec, input.prepared, w.spec(job.issuer).protocol, job.metadata, job.issuer,
                             CsrOf(w, job), operation, fallback, clock).Ok?
    ensures var material := PrepareWorkload(w.codec, input.prepared, w.spec(job.issuer).protocol, job.metadata,
                                            job.issuer, CsrOf(w, job), operation, fallback, clock).value;
            var using := Use(w, job, operation, input.credentials, material, transactionId);
            && FromSettings(w, job.issuer, operation, using) && using.request.csrKey == CsrOf(w, job).key
            && using.request.transactionId == transactionId && UsableLimits(Limits(w, job.issuer))
  {
    var material := PrepareWorkload(w.codec, input.prepared, w.spec(job.issuer).protocol, job.metadata, job.issuer,
                                    CsrOf(w, job), operation, fallback, clock).value;
    PreparedMaterial(w, job, input.prepared, operation, fallback, clock, material);
    UseFromSettings(w, job, operation, input.credentials, material, transactionId);
    LimitsUsableIff(w.spec(job.issuer).transaction);
  }

  lemma ConfigureOk(w: World, log: Log, job: Job, resumed: Option<Record>, input: Input, objects: Objects, clock: int,
                    next: nat)
    requires Shape(objects, log, next) && WorkerOk(w, log, job, Configure(resumed))
    ensures StepOk(w, log, job, StepConfigure(w, job, resumed, input, objects, clock, next))
  {
    hide Shape, Digest, PrepareWorkload, ClassifyRenewalFallback, Use, FromSettings;
    var pc := StepConfigure(w, job, resumed, input, objects, clock, next).pc;
    if pc.Done? {
      StayOk(w, log, job, Done, objects, next);
    } else if pc.Drop? {
      StayOk(w, log, job, Drop(resumed.value), objects, next);
    } else if resumed.Some? {
      ConfiguredUse(w, job, input, resumed.value.spec.operation.value, resumed.value.spec.fallback, clock,
                    resumed.value.spec.transactionId);
      assert WorkerOk(w, log, job, pc);
      StayOk(w, log, job, pc, objects, next);
    } else {
      ConfiguredUse(w, job, input, pc.plan.operation, pc.plan.fallback, clock, 0);
      assert PlanOk(w, job, pc.plan);
      StayOk(w, log, job, pc, objects, next);
    }
  }

  lemma CreateOk(w: World, log: Log, job: Job, plan: Plan, input: Input, objects: Objects, clock: int, next: nat)
    requires Shape(objects, log, next) && WorkerOk(w, log, job, Create(plan))
    ensures StepOk(w, log, job, StepCreate(w, job, plan, input, objects, clock, next))
  {
    hide Shape, PlanOk, CreatedBy, Bound, PlannedSpec, EventOk, Gone;
    if input.Fault? || job.key in objects {
      StayOk(w, log, job, Done, objects, next);
    } else {
      CreatedBound(w, log, job, plan, clock, next);
      var r := NewRecord(job.key, next, next + 2, PlannedSpec(w, job, plan, next + 1, clock));
      CreateShape(objects, log, next, r);
      NewObjectOk(w, objects, log, next, r);
      OneEvent(w, log, Stored(r));
    }
  }

  lemma CreatedBound(w: World, log: Log, job: Job, plan: Plan, clock: int, next: nat)
    requires PlanOk(w, job, plan)
    ensures var r := NewRecord(job.key, next, next + 2, PlannedSpec(w, job, plan, next + 1, clock));
            && CreatedBy(w, job, r) && r.spec.transactionId == next + 1
            && Bound(w, log + [Stored(r)], job, r,
                     plan.using.(request := plan.using.request.(transactionId := next + 1)))
  {
  }

  lemma NewObjectOk(w: World, objects: Objects, log: Log, next: nat, r: Record)
    requires Shape(objects, log, next) && (exists job :: CreatedBy(w, job, r)) && r.status == NewStatus
    requires r.uid == next && r.spec.transactionId == next + 1 && r.version == next + 2
    requires forall q :: Stored(q) in log && q.key == r.key ==> Gone(log, q.uid)
    ensures EventOk(w, log, Stored(r))
  {
    hide CreatedBy, Gone, Consistent, Current;
    assert CreationOk(w, log, r);
  }

  lemma MarkEnrollingOk(w: World, log: Log, job: Job, r: Record, using: Using, input: Input, objects: Objects,
                        next: nat)
    requires Shape(objects, log, next) && WorkerOk(w, log, job, MarkEnrolling(r, using))
    ensures StepOk(w, log, job, StepMarkEnrolling(r, using, input, objects, next))
  {
    hide Shape, FromSettings, EventOk;
    if input.Fault? || !CanUpdate(objects, r) {
      DoneOk(w, log, job, objects, next);
    } else {
      var r' := Updated(r, r.status.(phase := Enrolling), next);
      MarkFacts(w, log, r, r', objects, next);
      OneEvent(w, log, Stored(r'));
    }
  }

  lemma MarkFacts(w: World, log: Log, r: Record, r': Record, objects: Objects, next: nat)
    requires Shape(objects, log, next) && Stored(r) in log && CanUpdate(objects, r)
    requires r.status == NewStatus && r' == Updated(r, NewStatus.(phase := Enrolling), next)
    ensures EventOk(w, log, Stored(r')) && Shape(objects[r.key := r'], log + [Stored(r')], next + 1)
  {
    UpdateShape(objects, log, next, r, r');
    hide Explains;
    assert UpdateOk(w, log, r, r');
  }

  // ----- Sending

  lemma SendOk(w: World, log: Log, job: Job, t: Transmission, pc: Pc, objects: Objects, next: nat)
    requires Shape(objects, log, next) && SentOk(w, log, t)
    requires WorkerOk(w, log + [Sent(t)], job, pc)
    ensures StepOk(w, log, job, Effect(pc, objects, next + 1, [Sent(t)]))
  {
    QuietShape(objects, log, next, next + 1, Sent(t));
    OneEvent(w, log, Sent(t));
  }

  lemma ExchangeOk(w: World, log: Log, job: Job, r: Record, using: Using, input: Input, objects: Objects, clock: int,
                   next: nat)
    requires Shape(objects, log, next) && WorkerOk(w, log, job, Exchange(r, using))
    ensures StepOk(w, log, job, StepExchange(w, job, r, using, input, objects, clock, next))
  {
    if clock > r.spec.deadline || input.Fault? {
      StayOk(w, log, job, Drop(r), objects, next);
    } else if !r.status.phase.Polling? {
      EnrollmentMessageOk(w, log, job, r, using, EnrollMessage(using.request, next), objects, clock, next);
    } else if r.status.certReqId.None? || r.status.recipNonce.NoNonce?
    || r.status.polls >= Limits(w, job.issuer).maximumPolls {
      StayOk(w, log, job, Drop(r), objects, next);
    } else {
      EnrollmentMessageOk(w, log, job, r, using,
                          PollMessage(using.request, next, r.status.certReqId.value, r.status.recipNonce), objects,
                          clock, next);
    }
  }

  lemma EnrollmentMessageOk(w: World, log: Log, job: Job, r: Record, using: Using, message: Message, objects: Objects,
                            clock: int, next: nat)
    requires Shape(objects, log, next) && Bound(w, log, job, r, using) && clock <= r.spec.deadline
    requires message.transactionId == using.request.transactionId && message.senderNonce.Nonce?
    requires EnrollmentSent(w, Transmission(job, r, ForEnrollment, message, using, clock))
    ensures var t := Transmission(job, r, ForEnrollment, message, using, clock);
            StepOk(w, log, job, Effect(AwaitEnrollment(t), objects, next + 1, [Sent(t)]))
  {
    var t := Transmission(job, r, ForEnrollment, message, using, clock);
    SentStays(w, log, log + [Sent(t)], t);
    SendOk(w, log, job, t, AwaitEnrollment(t), objects, next);
  }

  // ----- Answers to enrollment messages

  lemma TransmittedHeld(w: World, log: Log, job: Job, t: Transmission)
    requires SentOk(w, log, t) && t.job == job
    ensures Held(log, job, t.record) && t.record.spec.csrDigest == Sha256(job.csr)
    ensures t.record.spec.issuer == Some(job.issuer) && UsableLimits(Limits(w, job.issuer))
  {
  }

  lemma AnswerOk(w: World, log: Log, job: Job, a: Answer, pc: Pc, objects: Objects, next: nat)
    requires Shape(objects, log, next) && AnsweredOk(w, log, a)
    requires WorkerOk(w, log + [Answered(a)], job, pc)
    ensures StepOk(w, log, job, Effect(pc, objects, next, [Answered(a)]))
  {
    QuietShape(objects, log, next, next, Answered(a));
    OneEvent(w, log, Answered(a));
  }

  /** Nothing usable arrived: the reconcile ends, or it ends the record. */
  lemma NothingOk(w: World, log: Log, job: Job, t: Transmission, pc: Pc, objects: Objects, next: nat)
    requires Shape(objects, log, next) && SentOk(w, log, t) && t.job == job && (pc.Done? || pc == Drop(t.record))
    ensures StepOk(w, log, job, Stay(pc, objects, next))
  {
    if pc.Done? {
      StayOk(w, log, job, Done, objects, next);
    } else {
      StayOk(w, log, job, Drop(t.record), objects, next);
    }
  }

  lemma NowReceived(w: World, log: Log, job: Job, a: Answer)
    requires AnsweredOk(w, log, a) && SentOk(w, log, a.to) && a.to.job == job
    ensures Received(w, log + [Answered(a)], job, a)
  {
    assert forall e :: e in log ==> e in log + [Answered(a)];
    SentStays(w, log, log + [Answered(a)], a.to);
  }

  lemma AfterEnrollmentOk(w: World, log: Log, job: Job, a: Answer, outcome: Outcome)
    requires Received(w, log, job, a) && a.to.purpose.ForEnrollment? && Held(log, job, a.to.record)
             && outcome == EnrollmentOutcome(w, a)
    ensures WorkerOk(w, log, job, AfterEnrollment(a, outcome))
  {
    hide EnrollmentOutcome, VerifyResponse, SentOk, AnsweredOk;
  }

  lemma AwaitEnrollmentOk(w: World, log: Log, job: Job, t: Transmission, input: Input, objects: Objects, clock: int,
                          next: nat)
    requires Shape(objects, log, next) && WorkerOk(w, log, job, AwaitEnrollment(t))
    ensures StepOk(w, log, job, StepAwaitEnrollment(w, t, input, objects, clock, next))
  {
    hide Shape, StepOk, VerifyResponse, SentOk, EnrollmentOutcome, AfterEnrollment;
    var got := Receive(w, t, if t.message.body.PollReq? then t.record.status.responseSigner else None, input, clock);
    TransmittedHeld(w, log, job, t);
    if got.Nothing? {
      NothingOk(w, log, job, t, got.pc, objects, next);
    } else {
      var a := got.answer;
      NowReceived(w, log, job, a);
      AfterEnrollmentOk(w, log + [Answered(a)], job, a, EnrollmentOutcome(w, a));
      AnswerOk(w, log, job, a, AfterEnrollment(a, EnrollmentOutcome(w, a)), objects, next);
    }
  }

  lemma RejectionOk(w: World, log: Log, job: Job, a: Answer, t: Transmission)
    requires Received(w, log, job, a) && a.to.purpose.ForEnrollment? && Refused(w, a, t.message)
    requires t == Transmission(job, a.to.record, ForRejection, t.message, a.to.using, t.at)
    requires t.message.transactionId == a.to.using.request.transactionId && t.message.senderNonce.Nonce?
    ensures SentOk(w, log, t)
  {
    hide Refused, AnsweredOk;
    assert RejectionSent(w, log, t);
  }

  lemma ErrorOk(w: World, log: Log, job: Job, r: Record, e: Error, objects: Objects, next: nat)
    requires Shape(objects, log, next) && Held(log, job, r)
    ensures StepOk(w, log, job, Stay(AfterError(r, e), objects, next))
  {
    hide Shape;
    StayOk(w, log, job, AfterError(r, e), objects, next);
  }

  lemma NowRejecting(w: World, log: Log, a: Answer, t: Transmission, reason: Error, signer: Option<Certificate>)
    requires Answered(a) in log && RejectedBy(w, a, t, reason, signer) && t.purpose.ForRejection?
    ensures Rejecting(w, log + [Sent(t)], t, reason, signer)
  {
    hide RejectedBy;
    assert Answered(a) in log + [Sent(t)];
  }

  lemma RejectOk(w: World, log: Log, job: Job, a: Answer, reason: Error, refusal: Refusal, input: Input,
                 objects: Objects, clock: int, next: nat)
    requires Shape(objects, log, next) && WorkerOk(w, log, job, Reject(a, reason, refusal))
    ensures StepOk(w, log, job, StepReject(a, reason, refusal, input, objects, clock, next))
  {
    hide Shape, SentOk, AnsweredOk, EnrollmentOutcome, StepOk, Rejecting;
    TransmittedHeld(w, log, job, a.to);
    if input.Fault? {
      ErrorOk(w, log, job, a.to.record, reason, objects, next);
    } else {
      var t := StepReject(a, reason, refusal, input, objects, clock, next).pc.transmission;
      RejectionOk(w, log, job, a, t);
      NowRejecting(w, log, a, t, reason, refusal.signer);
      SendOk(w, log, job, t, AwaitRejection(t, reason, refusal.signer), objects, next);
    }
  }

  lemma AwaitRejectionOk(w: World, log: Log, job: Job, t: Transmission, reason: Error, signer: Option<Certificate>,
                         input: Input, objects: Objects, clock: int, next: nat)
    requires Shape(objects, log, next) && WorkerOk(w, log, job, AwaitRejection(t, reason, signer))
    ensures StepOk(w, log, job, StepAwaitRejection(w, t, reason, signer, input, objects, clock, next))
  {
    hide Shape, StepOk, Rejecting, RejectionDelivery;
    ErrorOk(w, log, job, t.record, reason, objects, next);
  }

  // ----- Status writes

  /** A status write that an answer explains. */
  lemma WriteFacts(w: World, log: Log, a: Answer, r: Record, objects: Objects, next: nat)
    requires Shape(objects, log, next) && Answered(a) in log && Stored(a.to.record) in log
             && CanUpdate(objects, a.to.record)
    requires r == Updated(a.to.record, r.status, next) && Explains(w, a, a.to.record.status, r.status)
    ensures EventOk(w, log, Stored(r)) && Shape(objects[a.to.record.key := r], log + [Stored(r)], next + 1)
  {
    UpdateShape(objects, log, next, a.to.record, r);
    hide Explains;
    assert UpdateOk(w, log, a.to.record, r);
  }

  lemma WriteOk(w: World, log: Log, job: Job, a: Answer, r: Record, pc: Pc, objects: Objects, next: nat)
    requires Shape(objects, log, next) && Answered(a) in log && Stored(a.to.record) in log
             && CanUpdate(objects, a.to.record)
    requires r == Updated(a.to.record, r.status, next) && Explains(w, a, a.to.record.status, r.status)
    requires WorkerOk(w, log + [Stored(r)], job, pc)
    ensures StepOk(w, log, job, Effect(pc, objects[a.to.record.key := r], next + 1, [Stored(r)]))
  {
    hide Explains, EventOk, Shape;
    WriteFacts(w, log, a, r, objects, next);
    OneEvent(w, log, Stored(r));
  }

  ghost predicate Reports(w: World, log: Log, report: Event)
  {
    || (report.Returned? && ReturnedOk(log, report.job, report.record, report.chain))
    || (report.Requeued? && RequeuedOk(w, log, report.record, report.delay, report.at))
  }

  lemma ReportOk(w: World, log: Log, report: Event)
    requires Reports(w, log, report)
    ensures EventOk(w, log, report)
  {
    hide StoredOk, RemovedOk, SentOk, AnsweredOk;
  }

  lemma ReportedOk(w: World, log: Log, job: Job, report: Event, objects: Objects, next: nat)
    requires Shape(objects, log, next) && Reports(w, log, report)
    ensures StepOk(w, log, job, Effect(Done, objects, next, [report]))
  {
    hide EventOk, Shape;
    ReportOk(w, log, report);
    OneEvent(w, log, report);
    QuietShape(objects, log, next, next, report);
  }

  lemma RequeueOk(w: World, log: Log, job: Job, r: Record, checkAfter: int, objects: Objects, clock: int, next: nat)
    requires Shape(objects, log, next) && WorkerOk(w, log, job, Requeue(r, checkAfter))
    ensures StepOk(w, log, job, StepRequeue(w, r, checkAfter, objects, clock, next))
  {
    hide Shape, StepOk;
    var limits := Limits(w, r.spec.issuer.value);
    RequeueDelayBounds(checkAfter, limits, clock, r.spec.deadline);
    ReportedOk(w, log, job, Requeued(r, RequeueDelay(checkAfter, limits, clock, r.spec.deadline), clock), objects,
               next);
  }

  lemma ReturnOk(w: World, log: Log, job: Job, r: Record, chain: Path, objects: Objects, next: nat)
    requires Shape(objects, log, next) && WorkerOk(w, log, job, Return(r, chain))
    ensures StepOk(w, log, job, Effect(Done, objects, next, [Returned(job, r, chain)]))
  {
    hide Shape, StepOk;
    ReportedOk(w, log, job, Returned(job, r, chain), objects, next);
  }

  lemma WaitOk(w: World, log: Log, job: Job, a: Answer, status: Store.Status, checkAfter: int, objects: Objects,
               next: nat)
    requires Shape(objects, log, next) && Received(w, log, job, a) && CanUpdate(objects, a.to.record)
    requires Explains(w, a, a.to.record.status, status)
    ensures StepOk(w, log, job, StoreAndRequeue(a.to.record, status, checkAfter, objects, next))
  {
    hide Explains, Shape, SentOk, AnsweredOk, StepOk;
    TransmittedHeld(w, log, job, a.to);
    var r := Updated(a.to.record, status, next);
    WriteOk(w, log, job, a, r, Requeue(r, checkAfter), objects, next);
  }

  lemma PendingExplained(w: World, a: Answer, pending: PendingTransaction)
    requires a.to.purpose.ForEnrollment? && EnrollmentSent(w, a.to) && a.to.message.senderNonce.Nonce?
             && EnrollmentOutcome(w, a) == Waits(pending)
    ensures var s := a.to.record.status;
            EnrollmentDeferred(a, s, PendingStatus(CountPoll(s, s.phase.Polling?), pending))
  {
    var s := a.to.record.status;
    if a.to.message.body.PollReq? && a.response.body.PollRepBody? {
      assert SingleEntry(a.response, pending.certReqId) && a.to.message.body == PollReq(pending.certReqId);
    } else {
      FinishMeans(w.verify, a.at, a.to.using.request, a.response, a.signer, EnrollmentNonce(a.to));
      assert Defers(a.response, a.to.using.request, pending.certReqId);
    }
    assert Undecides(a, pending.certReqId);
    assert s.phase.Polling? <==> a.to.message.body.PollReq?;
  }

  lemma StorePendingOk(w: World, log: Log, job: Job, a: Answer, pending: PendingTransaction, input: Input,
                       objects: Objects, next: nat)
    requires Shape(objects, log, next) && WorkerOk(w, log, job, StorePending(a, pending))
    ensures StepOk(w, log, job, StepStorePending(a, pending, input, objects, next))
  {
    if input.Fault? || !CanUpdate(objects, a.to.record) {
      StayOk(w, log, job, Done, objects, next);
    } else {
      PendingExplained(w, a, pending);
      hide EnrollmentOutcome, EnrollmentDeferred, VerifyResponse;
      var s := a.to.record.status;
      WaitOk(w, log, job, a, PendingStatus(CountPoll(s, s.phase.Polling?), pending), pending.checkAfter, objects, next);
    }
  }

  lemma DeliveryExplained(w: World, a: Answer, chain: Path, pending: PendingTransaction)
    requires a.to.purpose.ForEnrollment? && EnrollmentOutcome(w, a) == AwaitsConfirmation(chain, pending)
    ensures CertificateDelivered(w, a, a.to.record.status, ConfirmingStatus(a.to.record.status, chain, pending))
    ensures Resumes(ConfirmingStatus(a.to.record.status, chain, pending), chain, pending)
  {
    FinishMeans(w.verify, a.at, a.to.using.request, a.response, a.signer, EnrollmentNonce(a.to));
  }

  lemma DelayExplained(a: Answer, chain: Path, sent: PendingTransaction, pending: PendingTransaction)
    requires a.to.purpose.ForConfirmation? && a.to.record.status.phase.Confirming?
             && Resumes(a.to.record.status, chain, sent)
    requires a.to.message.body.PollReq? <==> a.to.record.status.requestNonce.Nonce?
    requires Confirm(a.response, a.to.message, sent) == Ok(Some(pending))
    ensures var s := a.to.record.status;
            ConfirmationDeferred(a, s, ConfirmingStatus(CountPoll(s, a.to.message.body.PollReq?), chain, pending))
  {
  }

  /** Between the delivery and certConf: the certificate is written down first. */
  lemma DeliveredOk(w: World, log: Log, job: Job, a: Answer, chain: Path, pending: PendingTransaction,
                    objects: Objects, next: nat)
    requires Shape(objects, log, next) && Received(w, log, job, a) && CanUpdate(objects, a.to.record)
    requires a.to.purpose.ForEnrollment? && EnrollmentOutcome(w, a) == AwaitsConfirmation(chain, pending)
    ensures var r := Updated(a.to.record, ConfirmingStatus(a.to.record.status, chain, pending), next);
            StepOk(w, log, job, Effect(SendConfirmation(r, a.to.using, chain, pending), objects[r.key := r], next + 1,
                                       [Stored(r)]))
  {
    hide Shape, EnrollmentOutcome, VerifyResponse, AnsweredOk, CertificateDelivered;
    DeliveryExplained(w, a, chain, pending);
    var r := Updated(a.to.record, ConfirmingStatus(a.to.record.status, chain, pending), next);
    assert Bound(w, log + [Stored(r)], job, r, a.to.using);
    hide Resumes, Bound, SentOk, StepOk;
    WriteOk(w, log, job, a, r, SendConfirmation(r, a.to.using, chain, pending), objects, next);
  }

  lemma DelayedOk(w: World, log: Log, job: Job, a: Answer, chain: Path, pending: PendingTransaction, objects: Objects,
                  next: nat)
    requires Shape(objects, log, next) && Received(w, log, job, a) && CanUpdate(objects, a.to.record)
    requires a.to.purpose.ForConfirmation? && Continues(a, chain, pending)
    ensures var status := ConfirmingStatus(CountPoll(a.to.record.status, a.to.message.body.PollReq?), chain, pending);
            StepOk(w, log, job, StoreAndRequeue(a.to.record, status, pending.checkAfter, objects, next))
  {
    hide Shape;
    var s := a.to.record.status;
    var sent :| Resumes(s, chain, sent) && Confirm(a.response, a.to.message, sent) == Ok(Some(pending));
    DelayExplained(a, chain, sent, pending);
    hide ConfirmationDeferred, Confirm, StepOk, StoreAndRequeue;
    WaitOk(w, log, job, a, ConfirmingStatus(CountPoll(s, a.to.message.body.PollReq?), chain, pending),
           pending.checkAfter, objects, next);
  }

  lemma StoreConfirmingOk(w: World, log: Log, job: Job, a: Answer, chain: Path, pending: PendingTransaction,
                          input: Input, objects: Objects, next: nat)
    requires Shape(objects, log, next) && WorkerOk(w, log, job, StoreConfirming(a, chain, pending))
    ensures StepOk(w, log, job, StepStoreConfirming(a, chain, pending, input, objects, next))
  {
    hide Shape, StepOk, SentOk, EnrollmentOutcome, VerifyResponse, Continues, StoreAndRequeue;
    if input.Fault? || !CanUpdate(objects, a.to.record) {
      DoneOk(w, log, job, objects, next);
    } else if a.to.purpose.ForConfirmation? {
      DelayedOk(w, log, job, a, chain, pending, objects, next);
    } else {
      DeliveredOk(w, log, job, a, chain, pending, objects, next);
    }
  }

  // ----- Confirmation

  lemma ResumeConfirmationOk(w: World, log: Log, job: Job, r: Record, using: Using, objects: Objects, clock: int,
                             next: nat)
    requires Shape(objects, log, next) && WorkerOk(w, log, job, ResumeConfirmation(r, using))
    ensures StepOk(w, log, job, StepResumeConfirmation(w, job, r, using, objects, clock, next))
  {
    var request := using.request;
    var trusted := TrustedRecordedChain(w.verify, r.status.chain, CsrOf(w, job).key,
                                        request.anchors + request.responseCertificates, request.anchors, clock);
    if trusted.Err? || r.status.certReqId.None? {
      StayOk(w, log, job, Drop(r), objects, next);
    } else {
      ValidatedLeaf(w.verify, r.status.chain[0],
                    r.status.chain[1..] + (request.anchors + request.responseCertificates), request.anchors, clock);
      var pending := PendingTransaction(r.status.certReqId.value, r.status.recipNonce, r.status.responseSigner, 0,
                                        r.status.requestNonce);
      StayOk(w, log, job, SendConfirmation(r, using, trusted.value, pending), objects, next);
    }
  }

  lemma SendConfirmationOk(w: World, log: Log, job: Job, r: Record, using: Using, chain: Path,
                           pending: PendingTransaction, input: Input,
                           objects: Objects, clock: int, next: nat)
    requires Shape(objects, log, next) && WorkerOk(w, log, job, SendConfirmation(r, using, chain, pending))
    ensures StepOk(w, log, job, StepSendConfirmation(w, job, r, using, chain, pending, input, objects, clock, next))
  {
    if clock > r.spec.deadline || r.status.polls >= Limits(w, job.issuer).maximumPolls || input.Fault? || chain == [] {
      StayOk(w, log, job, Drop(r), objects, next);
    } else {
      var message := ConfirmationMessage(using.request, next, chain[0], pending, false);
      var t := Transmission(job, r, ForConfirmation, message, using, clock);
      assert ConfirmationSent(w, t);
      assert SentOk(w, log, t);
      SentStays(w, log, log + [Sent(t)], t);
      SendOk(w, log, job, t, AwaitConfirmation(t, chain, pending), objects, next);
    }
  }

  lemma AfterConfirmationOk(w: World, log: Log, job: Job, a: Answer, chain: Path, pending: PendingTransaction)
    requires Received(w, log, job, a) && a.to.purpose.ForConfirmation? && Held(log, job, a.to.record)
             && Resumes(a.to.record.status, chain, pending)
    ensures WorkerOk(w, log, job, AfterConfirmation(a, chain, pending))
  {
    hide EnrollmentOutcome, VerifyResponse, SentOk, AnsweredOk, Delivers;
    match Confirm(a.response, a.to.message, pending)
    case Err(e) =>
      assert WorkerOk(w, log, job, Done) && WorkerOk(w, log, job, Drop(a.to.record));
    case Ok(None) =>
      assert WorkerOk(w, log, job, StoreIssued(a, chain));
    case Ok(Some(again)) =>
      assert Continues(a, chain, again);
      assert WorkerOk(w, log, job, StoreConfirming(a, chain, again));
  }

  lemma AwaitConfirmationOk(w: World, log: Log, job: Job, t: Transmission, chain: Path, pending: PendingTransaction,
                            input: Input,
                            objects: Objects, clock: int, next: nat)
    requires Shape(objects, log, next) && WorkerOk(w, log, job, AwaitConfirmation(t, chain, pending))
    ensures StepOk(w, log, job, StepAwaitConfirmation(w, t, chain, pending, input, objects, clock, next))
  {
    hide Shape, StepOk, VerifyResponse, SentOk, Confirm, AfterConfirmation;
    var got := Receive(w, t, pending.signer, input, clock);
    TransmittedHeld(w, log, job, t);
    if got.Nothing? {
      NothingOk(w, log, job, t, got.pc, objects, next);
    } else {
      var a := got.answer;
      NowReceived(w, log, job, a);
      AfterConfirmationOk(w, log + [Answered(a)], job, a, chain, pending);
      AnswerOk(w, log, job, a, AfterConfirmation(a, chain, pending), objects, next);
    }
  }

  lemma IssueExplained(w: World, log: Log, job: Job, a: Answer, chain: Path)
    requires WorkerOk(w, log, job, StoreIssued(a, chain))
    ensures chain != [] && Explains(w, a, a.to.record.status, IssuedStatus(a.to.record.status, chain))
  {
    if a.to.purpose.ForEnrollment? {
      FinishMeans(w.verify, a.at, a.to.using.request, a.response, a.signer, EnrollmentNonce(a.to));
      assert CertificateCompleted(w, a, a.to.record.status, IssuedStatus(a.to.record.status, chain));
    } else {
      assert ConfirmationCompleted(a, a.to.record.status, IssuedStatus(a.to.record.status, chain));
    }
  }

  lemma StoreIssuedOk(w: World, log: Log, job: Job, a: Answer, chain: Path, input: Input, objects: Objects, next: nat)
    requires Shape(objects, log, next) && WorkerOk(w, log, job, StoreIssued(a, chain))
    ensures StepOk(w, log, job, StepStoreIssued(a, chain, input, objects, next))
  {
    hide Shape, StepOk, EnrollmentOutcome, Explains, SentOk, AnsweredOk;
    if input.Fault? || !CanUpdate(objects, a.to.record) {
      DoneOk(w, log, job, objects, next);
    } else {
      IssueExplained(w, log, job, a, chain);
      TransmittedHeld(w, log, job, a.to);
      assert Received(w, log, job, a);
      var r := Updated(a.to.record, IssuedStatus(a.to.record.status, chain), next);
      assert ReturnedOk(log + [Stored(r)], job, r, chain);
      WriteOk(w, log, job, a, r, Return(r, chain), objects, next);
    }
  }

  lemma RecoverOk(w: World, log: Log, job: Job, r: Record, input: Input, objects: Objects, clock: int, next: nat)
    requires Shape(objects, log, next) && WorkerOk(w, log, job, Recover(r))
    ensures StepOk(w, log, job, StepRecover(w, job, r, input, objects, clock, next))
  {
    if RecordedChain(r.status.chain, CsrOf(w, job).key).Err? {
      StayOk(w, log, job, Drop(r), objects, next);
    } else if !input.Trust? {
      StayOk(w, log, job, Done, objects, next);
    } else {
      var trusted := TrustedRecordedChain(w.verify, r.status.chain, CsrOf(w, job).key, input.candidates, input.anchors,
                                          clock);
      if trusted.Err? {
        StayOk(w, log, job, Drop(r), objects, next);
      } else {
        ValidatedLeaf(w.verify, r.status.chain[0], r.status.chain[1..] + input.candidates, input.anchors, clock);
        ReportedOk(w, log, job, Returned(job, r, trusted.value), objects, next);
      }
    }
  }

  /** Every step of Sign keeps the store in line with the history and justifies what it adds to it. */
  lemma StepPreserves(w: World, log: Log, job: Job, pc: Pc, input: Input, objects: Objects, clock: int, next: nat)
    requires Shape(objects, log, next) && WorkerOk(w, log, job, pc)
    ensures StepOk(w, log, job, Step(w, job, pc, input, objects, clock, next))
  {
    hide Shape, StepOk, WorkerOk, StepLoad, StepDropStale, StepConfigure, StepCreate, StepMarkEnrolling, StepExchange,
         StepAwaitEnrollment, StepReject, StepAwaitRejection, StepStorePending, StepStoreConfirming,
         StepResumeConfirmation, StepSendConfirmation, StepAwaitConfirmation, StepStoreIssued, StepRequeue,
         StepRecover, StepDrop;
    match pc
    case Load => LoadOk(w, log, job, input, objects, next);
    case DropStale(r) => DropStaleOk(w, log, job, r, input, objects, next);
    case Configure(resumed) => ConfigureOk(w, log, job, resumed, input, objects, clock, next);
    case Create(plan) => CreateOk(w, log, job, plan, input, objects, clock, next);
    case MarkEnrolling(r, using) => MarkEnrollingOk(w, log, job, r, using, input, objects, next);
    case Exchange(r, using) => ExchangeOk(w, log, job, r, using, input, objects, clock, next);
    case AwaitEnrollment(t) => AwaitEnrollmentOk(w, log, job, t, input, objects, clock, next);
    case Reject(a, reason, refusal) => RejectOk(w, log, job, a, reason, refusal, input, objects, clock, next);
    case AwaitRejection(t, reason, signer) => AwaitRejectionOk(w, log, job, t, reason, signer, input, objects, clock,
                                                               next);
    case StorePending(a, pending) => StorePendingOk(w, log, job, a, pending, input, objects, next);
    case StoreConfirming(a, chain, pending) => StoreConfirmingOk(w, log, job, a, chain, pending, input, objects, next);
    case ResumeConfirmation(r, using) => ResumeConfirmationOk(w, log, job, r, using, objects, clock, next);
    case SendConfirmation(r, using, chain, pending) => SendConfirmationOk(w, log, job, r, using, chain, pending, input,
        objects, clock, next);
    case AwaitConfirmation(t, chain, pending) => AwaitConfirmationOk(w, log, job, t, chain, pending, input, objects,
                                                                     clock, next);
    case StoreIssued(a, chain) => StoreIssuedOk(w, log, job, a, chain, input, objects, next);
    case Requeue(r, checkAfter) => RequeueOk(w, log, job, r, checkAfter, objects, clock, next);
    case Return(r, chain) => ReturnOk(w, log, job, r, chain, objects, next);
    case Recover(r) => RecoverOk(w, log, job, r, input, objects, clock, next);
    case Drop(r) => DropOk(w, log, job, r, input, objects, next);
    case Done => DoneOk(w, log, job, objects, next);
  }
}
