/**
 Sign (internal/controller/signer.go) as a program that can stop between any two of its actions.

 A reconcile is a control point with its local variables. One step performs at most one store or
 network action and runs the code up to the next one. Everything the code reads from outside is an
 input of the step, chosen by the environment: API faults, Secrets and Certificates, and what the
 network delivers.
 */
module Signer {
  import opened Basics
  import opened Names
  import opened Certificates
  import opened Protocol
  import opened Configuration
  import opened Workload
  import opened Store

  datatype IssuerSpec = IssuerSpec(protocol: ProtocolSpec, transaction: TransactionSpec)

  /** The part of an enrollment request that comes from the issuer's spec and credential Secrets. */
  datatype Settings = Settings(
    recipient: Name, implicitConfirm: bool, rejectGrantedMods: bool, allowSignedMacResponse: bool,
    pinnedCertReqId: Option<int>, requireKupCaPubsAbsent: bool, protection: Protection,
    anchors: seq<Certificate>, responseCertificates: seq<Certificate>)

  /**
   What never changes during a run: an issuer generation identifies its spec, Secret versions identify
   their contents, and the parsing and path-finding libraries are functions.
   */
  datatype World = World(
    spec: IssuerRef -> IssuerSpec, settings: (IssuerRef, Fingerprints) -> Settings, codec: Codec, verify: Verifier)

  function Limits(w: World, issuer: IssuerRef): TransactionSpec { LimitsWithDefaults(w.spec(issuer).transaction) }

  /** The CertificateRequest and issuer one reconcile is called with. */
  datatype Job = Job(key: SecretKey, uid: nat, csr: Bytes, metadata: RequestMetadata, issuer: IssuerRef)

  function CsrOf(w: World, job: Job): Csr { w.codec.request(job.csr) }

  /** A loaded configuration: the request it builds and the Secret versions it was built from. */
  datatype Using = Using(request: Request, credentials: Fingerprints, workload: Fingerprints)

  // ----- What happens, as recorded for the theorems

  datatype Purpose = ForEnrollment | ForConfirmation | ForRejection

  /** A message together with the reconcile, the record version and the configuration behind it. */
  datatype Transmission = Transmission(job: Job, record: Record, purpose: Purpose, message: Message, using: Using,
                                       at: int)

  /** An authenticated answer. */
  datatype Answer = Answer(to: Transmission, response: Protocol.Response, signer: Option<Certificate>,
                           previous: Option<Certificate>, at: int)

  /** Why a record goes away: the controller failed it, found it under a reused name, or its owner is gone. */
  datatype Cause = Failed(job: Job, intended: Record) | Stale(job: Job, intended: Record) | Collected

  datatype Event =
    | Stored(record: Record)
    | Removed(record: Record, cause: Cause)
    | Sent(transmission: Transmission)
    | Answered(answer: Answer)
    | Returned(job: Job, record: Record, chain: Path)
    | Requeued(record: Record, delay: int, at: int)

  // ----- Control points

  datatype Plan = Plan(operation: Operation, fallback: Option<Reason>, using: Using)

  datatype Pc =
    | Load
    | DropStale(record: Record)
    | Configure(resumed: Option<Record>)
    | Create(plan: Plan)
    | MarkEnrolling(record: Record, using: Using)
    | Exchange(record: Record, using: Using)
    | AwaitEnrollment(transmission: Transmission)
    | Reject(answer: Answer, reason: Error, refusal: Refusal)
    | AwaitRejection(transmission: Transmission, reason: Error, signer: Option<Certificate>)
    | StorePending(answer: Answer, pending: PendingTransaction)
    | StoreConfirming(answer: Answer, chain: Path, pending: PendingTransaction)
    | ResumeConfirmation(record: Record, using: Using)
    | SendConfirmation(record: Record, using: Using, chain: Path, pending: PendingTransaction)
    | AwaitConfirmation(transmission: Transmission, chain: Path, pending: PendingTransaction)
    | StoreIssued(answer: Answer, chain: Path)
    | Requeue(record: Record, checkAfter: int)
    | Return(record: Record, chain: Path)
    | Recover(record: Record)
    | Drop(record: Record)
    | Done

  datatype Input =
    | Fault
    | Proceed
    | Read(credentials: Fingerprints, classified: Cluster, prepared: Cluster)
    | Trust(anchors: seq<Certificate>, candidates: seq<Certificate>)
    | Transport(retryable: bool)
    | Unreadable
    | Response(response: Protocol.Response)

  /** What a step leaves behind. */
  datatype Effect = Effect(pc: Pc, objects: Objects, next: nat, events: seq<Event>)

  // ----- Pure decisions

  /** validateResumedTransaction */
  predicate ValidResumed(spec: Spec, csrDigest: CsrDigest, operation: Operation, fallback: Option<Operation>,
                         issuer: IssuerRef)
  {
    && spec.csrDigest.Sha256? && spec.configurationDigest.ConfigurationDigest? && spec.operation.Some?
    && spec.csrDigest == csrDigest
    && spec.issuer.Some? && spec.issuer.value.name == issuer.name && spec.issuer.value.kind == issuer.kind
    && spec.issuer.value.uid == issuer.uid
    && (if spec.fallback.Some? then operation.KUR? && fallback.Some? && spec.operation == fallback
        else spec.operation == Some(operation))
  }

  /** mapProtocolError and failTransaction: a permanent or security failure ends the record. */
  predicate EndsTransaction(e: Error) { e.kind.Permanent? || e.kind.Security? }

  function AfterError(record: Record, e: Error): Pc { if EndsTransaction(e) then Drop(record) else Done }

  /** prepareWorkloadKeyEnrollment applied to the issuer's settings. */
  function BuildRequest(settings: Settings, operation: Operation, material: Option<Material>, csr: Csr,
                        transactionId: nat): Request
  {
    Request(operation, settings.recipient, settings.implicitConfirm, settings.rejectGrantedMods,
            settings.allowSignedMacResponse,
            if material.Some? then None else settings.pinnedCertReqId, settings.requireKupCaPubsAbsent,
            if material.Some? && material.value.protection.Some? then Signature(material.value.protection.value)
                else settings.protection,
            settings.anchors, settings.responseCertificates, csr.key, transactionId)
  }

  function Use(w: World, job: Job, operation: Operation, credentials: Fingerprints, material: Option<Material>,
               transactionId: nat): Using
  {
    Using(BuildRequest(w.settings(job.issuer, credentials), operation, material, CsrOf(w, job), transactionId),
          credentials, if material.Some? then material.value.secrets else map[])
  }

  /** The nonce of an earlier request whose answer the server delayed, when this message polls for it. */
  function Delayed(t: Transmission): Nonce { if t.message.body.PollReq? then t.record.status.requestNonce else NoNonce }

  /** The nonce a waiting answer to this enrollment message is remembered under. */
  function EnrollmentNonce(t: Transmission): Nonce
  {
    if t.message.body.PollReq? then t.record.status.requestNonce else t.message.senderNonce
  }

  function EnrollmentOutcome(w: World, a: Answer): Outcome
  {
    if a.to.message.body.PollReq? && a.response.body.PollRepBody? then
      match ExtractPollRep(a.response, a.to.message.body.certReqId, a.signer, a.to.record.status.requestNonce)
      case Err(e) => Fails(e)
      case Ok(pending) => Waits(pending)
    else Finish(w.verify, a.at, a.to.using.request, a.response, a.signer, EnrollmentNonce(a.to))
  }

  // ----- Steps

  function Stay(pc: Pc, objects: Objects, next: nat): Effect { Effect(pc, objects, next, []) }

  ghost function StepLoad(w: World, job: Job, input: Input, objects: Objects, next: nat): Effect
  {
    var spec := w.spec(job.issuer).protocol;
    var operation := SelectedOperation(spec, job.metadata.revision);
    if operation.None? || input.Fault? then Stay(Done, objects, next)
    else if job.key !in objects then Stay(Configure(None), objects, next)
    else
      var record := objects[job.key];
      if record.spec.requestUid != job.uid then Stay(DropStale(record), objects, next)
      else if !ValidResumed(record.spec, Sha256(job.csr), operation.value, FallbackOperation(spec), job.issuer)
          then Stay(Drop(record), objects, next)
      else if record.status.phase.Issued? then Stay(Recover(record), objects, next)
      else if record.spec.issuer.value.generation != job.issuer.generation then Stay(Drop(record), objects, next)
      else Stay(Configure(Some(record)), objects, next)
  }

  ghost function StepDropStale(job: Job, record: Record, input: Input, objects: Objects, next: nat): Effect
  {
    if input.Fault? then Stay(Done, objects, next)
    else if record.key !in objects then Stay(Configure(None), objects, next)
    else if !CanDelete(objects, record) then Stay(Done, objects, next)
    else Effect(Configure(None), objects - {record.key}, next, [Removed(objects[record.key], Stale(job, record))])
  }

  ghost function StepConfigure(w: World, job: Job, resumed: Option<Record>, input: Input, objects: Objects, clock: int,
                               next: nat): Effect
  {
    var spec := w.spec(job.issuer);
    var selected := SelectedOperation(spec.protocol, job.metadata.revision);
    if selected.None? || !input.Read? || !Credentials(input.credentials) || !ValidTransaction(spec.transaction)
        then Stay(Done, objects, next)
    else
      var choice :=
        if resumed.Some? then
          (if resumed.value.spec.operation.Some?
           then Ok((resumed.value.spec.operation.value, resumed.value.spec.fallback)) else Err(PermanentError))
        else SelectRenewalFallback(w.codec, input.classified, spec.protocol, job.metadata, job.issuer, selected.value,
                                   clock);
      if choice.Err? then Stay(Done, objects, next)
      else
        var (operation, fallback) := choice.value;
        match PrepareWorkload(w.codec, input.prepared, spec.protocol, job.metadata, job.issuer, CsrOf(w, job),
                              operation, fallback, clock)
        case Err(_) => Stay(Done, objects, next)
        case Ok(material) =>
          if resumed.None? then Stay(Create(Plan(operation, fallback,
                                                 Use(w, job, operation, input.credentials, material, 0))), objects,
                                                 next)
          else
            var record := resumed.value;
            var using := Use(w, job, operation, input.credentials, material, record.spec.transactionId);
            if record.spec.configurationDigest != Digest(job.issuer, Merge(using.credentials, using.workload))
                then Stay(Drop(record), objects, next)
            else if record.status.phase.Confirming? then Stay(ResumeConfirmation(record, using), objects, next)
            else Stay(Exchange(record, using), objects, next)
  }

  ghost function PlannedSpec(w: World, job: Job, plan: Plan, transactionId: nat, clock: int): Spec
  {
    Spec(job.uid, transactionId, clock + Limits(w, job.issuer).maximumDuration, Sha256(job.csr), Some(job.issuer),
         Digest(job.issuer, Merge(plan.using.credentials, plan.using.workload)), Some(plan.operation), plan.fallback)
  }

  ghost function StepCreate(w: World, job: Job, plan: Plan, input: Input, objects: Objects, clock: int,
                            next: nat): Effect
  {
    if input.Fault? || job.key in objects then Stay(Done, objects, next)
    else
      var record := NewRecord(job.key, next, next + 2, PlannedSpec(w, job, plan, next + 1, clock));
      var using := plan.using.(request := plan.using.request.(transactionId := next + 1));
      Effect(MarkEnrolling(record, using), objects[job.key := record], next + 3, [Stored(record)])
  }

  /** The version a successful status update stores. */
  function Updated(record: Record, status: Status, next: nat): Record { record.(status := status, version := next) }

  ghost function StepMarkEnrolling(record: Record, using: Using, input: Input, objects: Objects, next: nat): Effect
  {
    if input.Fault? || !CanUpdate(objects, record) then Stay(Done, objects, next)
    else
      var record' := Updated(record, record.status.(phase := Enrolling), next);
      Effect(Exchange(record', using), objects[record.key := record'], next + 1, [Stored(record')])
  }

  ghost function StepExchange(w: World, job: Job, record: Record, using: Using, input: Input, objects: Objects,
                              clock: int, next: nat): Effect
  {
    if clock > record.spec.deadline || input.Fault? then Stay(Drop(record), objects, next)
    else if !record.status.phase.Polling? then
      var t := Transmission(job, record, ForEnrollment, EnrollMessage(using.request, next), using, clock);
      Effect(AwaitEnrollment(t), objects, next + 1, [Sent(t)])
    else if record.status.certReqId.None? || record.status.recipNonce.NoNonce? then Stay(Drop(record), objects, next)
    else if record.status.polls >= Limits(w, job.issuer).maximumPolls then Stay(Drop(record), objects, next)
    else
      var message := PollMessage(using.request, next, record.status.certReqId.value, record.status.recipNonce);
      var t := Transmission(job, record, ForEnrollment, message, using, clock);
      Effect(AwaitEnrollment(t), objects, next + 1, [Sent(t)])
  }

  /** What the reconcile does with an authenticated enrollment answer. */
  function AfterEnrollment(a: Answer, outcome: Outcome): Pc
  {
    match outcome
    case Waits(pending) => StorePending(a, pending)
    case Completed(chain, _) => StoreIssued(a, chain)
    case AwaitsConfirmation(chain, pending) => StoreConfirming(a, chain, pending)
    case Refuses(e, Some(refusal)) => Reject(a, e, refusal)
    case Refuses(e, None) => AfterError(a.to.record, e)
    case Fails(e) => AfterError(a.to.record, e)
    case Panics => Done
  }

  /** What an answer to a confirmation leads to. */
  function AfterConfirmation(a: Answer, chain: Path, pending: PendingTransaction): Pc
  {
    match Confirm(a.response, a.to.message, pending)
    case Err(e) => AfterError(a.to.record, e)
    case Ok(None) => StoreIssued(a, chain)
    case Ok(Some(again)) => StoreConfirming(a, chain, again)
  }

  /** One delivery from the network: nothing the reconcile can use, or an authenticated answer. */
  datatype Reception = Nothing(pc: Pc) | Authenticated(answer: Answer)

  function Receive(w: World, t: Transmission, previous: Option<Certificate>, input: Input, clock: int): Reception
  {
    match input
    case Transport(retryable) => Nothing(if retryable then Done else Drop(t.record))
    case Unreadable => Nothing(Drop(t.record))
    case Response(response) =>
      (match VerifyResponse(w.verify, clock, t.message, response, t.using.request, previous, Delayed(t))
       case Err(e) => Nothing(AfterError(t.record, e))
       case Ok(signer) => Authenticated(Answer(t, response, signer, previous, clock)))
    case _ => Nothing(Done)
  }

  ghost function StepAwaitEnrollment(w: World, t: Transmission, input: Input, objects: Objects, clock: int,
                                     next: nat): Effect
  {
    match Receive(w, t, if t.message.body.PollReq? then t.record.status.responseSigner else None, input, clock)
    case Nothing(pc) => Stay(pc, objects, next)
    case Authenticated(a) => Effect(AfterEnrollment(a, EnrollmentOutcome(w, a)), objects, next, [Answered(a)])
  }

  /** rejectCertificate up to the send; without a message the delivery has failed. */
  ghost function StepReject(a: Answer, reason: Error, refusal: Refusal, input: Input, objects: Objects, clock: int,
                            next: nat): Effect
  {
    if input.Fault? then Stay(AfterError(a.to.record, RejectCertificate(reason, Undelivered).error), objects, next)
    else
      var pending := PendingTransaction(refusal.certReqId, refusal.recipNonce, refusal.signer, 0, NoNonce);
      var message := ConfirmationMessage(a.to.using.request, next, refusal.certificate, pending, true);
      var t := Transmission(a.to.job, a.to.record, ForRejection, message, a.to.using, clock);
      Effect(AwaitRejection(t, reason, refusal.signer), objects, next + 1, [Sent(t)])
  }

  /** The delivery of a rejecting certConf succeeds only with an authentic pkiConf. */
  function RejectionDelivery(w: World, t: Transmission, previous: Option<Certificate>, input: Input,
                             clock: int): Delivery
  {
    match Receive(w, t, previous, input, clock)
    case Nothing(_) => Undelivered
    case Authenticated(a) => if a.response.body.PkiConf? then Acknowledged else Undelivered
  }

  ghost function StepAwaitRejection(w: World, t: Transmission, reason: Error, previous: Option<Certificate>,
                                    input: Input, objects: Objects, clock: int, next: nat): Effect
  {
    var reported := RejectCertificate(reason, RejectionDelivery(w, t, previous, input, clock));
    Stay(AfterError(t.record, reported.error), objects, next)
  }

  /** A status write after which the reconcile asks for a later retry. */
  ghost function StoreAndRequeue(record: Record, status: Status, checkAfter: int, objects: Objects, next: nat): Effect
  {
    var record' := Updated(record, status, next);
    Effect(Requeue(record', checkAfter), objects[record.key := record'], next + 1, [Stored(record')])
  }

  /** The end of continuePolling and continueConfirming: the retry is asked for after the write. */
  ghost function StepRequeue(w: World, record: Record, checkAfter: int, objects: Objects, clock: int, next: nat): Effect
  {
    var delay :=
      if record.spec.issuer.Some? then RequeueDelay(checkAfter, Limits(w, record.spec.issuer.value), clock,
                                                    record.spec.deadline)
      else 0;
    Effect(Done, objects, next, [Requeued(record, delay, clock)])
  }

  ghost function StepStorePending(a: Answer, pending: PendingTransaction, input: Input, objects: Objects,
                                  next: nat): Effect
  {
    var record := a.to.record;
    if input.Fault? || !CanUpdate(objects, record) then Stay(Done, objects, next)
    else StoreAndRequeue(record, PendingStatus(CountPoll(record.status, record.status.phase.Polling?), pending),
                         pending.checkAfter, objects, next)
  }

  ghost function StepStoreConfirming(a: Answer, chain: Path, pending: PendingTransaction, input: Input,
                                     objects: Objects, next: nat): Effect
  {
    var record := a.to.record;
    var polled := a.to.purpose.ForConfirmation? && a.to.message.body.PollReq?;
    var status := ConfirmingStatus(CountPoll(record.status, polled), chain, pending);
    if input.Fault? || !CanUpdate(objects, record) then Stay(Done, objects, next)
    else if a.to.purpose.ForConfirmation? then StoreAndRequeue(record, status, pending.checkAfter, objects, next)
    else
      var record' := Updated(record, status, next);
      Effect(SendConfirmation(record', a.to.using, chain, pending), objects[record.key := record'], next + 1,
             [Stored(record')])
  }

  ghost function StepResumeConfirmation(w: World, job: Job, record: Record, using: Using, objects: Objects, clock: int,
                                        next: nat): Effect
  {
    var request := using.request;
    match TrustedRecordedChain(w.verify, record.status.chain, CsrOf(w, job).key,
                               request.anchors + request.responseCertificates, request.anchors, clock)
    case Err(_) => Stay(Drop(record), objects, next)
    case Ok(chain) =>
      if record.status.certReqId.None? then Stay(Drop(record), objects, next)
      else
        var pending := PendingTransaction(record.status.certReqId.value, record.status.recipNonce,
                                          record.status.responseSigner, 0, record.status.requestNonce);
        Stay(SendConfirmation(record, using, chain, pending), objects, next)
  }

  ghost function StepSendConfirmation(w: World, job: Job, record: Record, using: Using, chain: Path,
                                      pending: PendingTransaction, input: Input,
                                      objects: Objects, clock: int, next: nat): Effect
  {
    if clock > record.spec.deadline || record.status.polls >= Limits(w, job.issuer).maximumPolls || input.Fault?
    || chain == [] then
      Stay(Drop(record), objects, next)
    else
      var message := ConfirmationMessage(using.request, next, chain[0], pending, false);
      var t := Transmission(job, record, ForConfirmation, message, using, clock);
      Effect(AwaitConfirmation(t, chain, pending), objects, next + 1, [Sent(t)])
  }

  ghost function StepAwaitConfirmation(w: World, t: Transmission, chain: Path, pending: PendingTransaction,
                                       input: Input,
                                       objects: Objects, clock: int, next: nat): Effect
  {
    match Receive(w, t, pending.signer, input, clock)
    case Nothing(pc) => Stay(pc, objects, next)
    case Authenticated(a) => Effect(AfterConfirmation(a, chain, pending), objects, next, [Answered(a)])
  }

  ghost function StepStoreIssued(a: Answer, chain: Path, input: Input, objects: Objects, next: nat): Effect
  {
    var record := a.to.record;
    if input.Fault? || !CanUpdate(objects, record) then Stay(Done, objects, next)
    else
      var record' := Updated(record, IssuedStatus(record.status, chain), next);
      Effect(Return(record', chain), objects[record.key := record'], next + 1, [Stored(record')])
  }

  ghost function StepRecover(w: World, job: Job, record: Record, input: Input, objects: Objects, clock: int,
                             next: nat): Effect
  {
    if RecordedChain(record.status.chain, CsrOf(w, job).key).Err? then Stay(Drop(record), objects, next)
    else if !input.Trust? then Stay(Done, objects, next)
    else match TrustedRecordedChain(w.verify, record.status.chain, CsrOf(w, job).key, input.candidates, input.anchors,
                                    clock)
      case Err(_) => Stay(Drop(record), objects, next)
      case Ok(chain) => Effect(Done, objects, next, [Returned(job, record, chain)])
  }

  ghost function StepDrop(job: Job, record: Record, input: Input, objects: Objects, next: nat): Effect
  {
    if input.Fault? || !CanDelete(objects, record) then Stay(Done, objects, next)
    else Effect(Done, objects - {record.key}, next, [Removed(objects[record.key], Failed(job, record))])
  }

  ghost function Step(w: World, job: Job, pc: Pc, input: Input, objects: Objects, clock: int, next: nat): Effect
  {
    match pc
    case Load => StepLoad(w, job, input, objects, next)
    case DropStale(record) => StepDropStale(job, record, input, objects, next)
    case Configure(resumed) => StepConfigure(w, job, resumed, input, objects, clock, next)
    case Create(plan) => StepCreate(w, job, plan, input, objects, clock, next)
    case MarkEnrolling(record, using) => StepMarkEnrolling(record, using, input, objects, next)
    case Exchange(record, using) => StepExchange(w, job, record, using, input, objects, clock, next)
    case AwaitEnrollment(t) => StepAwaitEnrollment(w, t, input, objects, clock, next)
    case Reject(a, reason, refusal) => StepReject(a, reason, refusal, input, objects, clock, next)
    case AwaitRejection(t, reason, signer) => StepAwaitRejection(w, t, reason, signer, input, objects, clock, next)
    case StorePending(a, pending) => StepStorePending(a, pending, input, objects, next)
    case StoreConfirming(a, chain, pending) => StepStoreConfirming(a, chain, pending, input, objects, next)
    case ResumeConfirmation(record, using) => StepResumeConfirmation(w, job, record, using, objects, clock, next)
    case SendConfirmation(record, using, chain, pending) => StepSendConfirmation(w, job, record, using, chain, pending,
        input, objects, clock, next)
    case AwaitConfirmation(t, chain, pending) => StepAwaitConfirmation(w, t, chain, pending, input, objects, clock,
        next)
    case StoreIssued(a, chain) => StepStoreIssued(a, chain, input, objects, next)
    case Requeue(record, checkAfter) => StepRequeue(w, record, checkAfter, objects, clock, next)
    case Return(record, chain) => Effect(Done, objects, next, [Returned(job, record, chain)])
    case Recover(record) => StepRecover(w, job, record, input, objects, clock, next)
    case Drop(record) => StepDrop(job, record, input, objects, next)
    case Done => Stay(Done, objects, next)
  }
}
