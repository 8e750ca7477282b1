/**
 What a reconcile does with what the network delivers, from any reachable state: which deliveries it
 takes as answers, what each answer leads to, and which versions, messages and bundles follow.
 */
module Progress {
  import opened Basics
  import opened Certificates
  import opened Protocol
  import opened Configuration
  import opened Store
  import opened Signer
  import opened History
  import opened Invariant
  import opened Lifetime
  import opened System
  import opened Theorems
  import opened Resumption
  import opened Failures

  // ----- Which deliveries are answers

  /** The message a reconcile awaits an answer to, and the signer it may rely on without a chain. */
  datatype Expected = Nobody | Expected(transmission: Transmission, previous: Option<Certificate>)

  /** A poll relies on the recorded signer, a confirmation on the one it resumed with. */
  function Expecting(pc: Pc): Expected
  {
    match pc
    case AwaitEnrollment(t) =>
      if t.message.body.PollReq? then Expected(t, t.record.status.responseSigner) else Expected(t, None)
    case AwaitConfirmation(t, _, pending) => Expected(t, pending.signer)
    case _ => Nobody
  }

  /** What an answer leads to at this control point. */
  function After(w: World, pc: Pc, a: Answer): Pc
  {
    match pc
    case AwaitEnrollment(_) => AfterEnrollment(a, EnrollmentOutcome(w, a))
    case AwaitConfirmation(_, chain, pending) => AfterConfirmation(a, chain, pending)
    case _ => Done
  }

  lemma AwaitStep(w: World, job: Job, pc: Pc, input: Input, objects: Objects, clock: int, next: nat)
    requires Expecting(pc).Expected?
    ensures Step(w, job, pc, input, objects, clock, next) ==
            match Receive(w, Expecting(pc).transmission, Expecting(pc).previous, input, clock)
            case Nothing(pc') => Stay(pc', objects, next)
            case Authenticated(a) => Effect(After(w, pc, a), objects, next, [Answered(a)])
  {
    hide Receive, EnrollmentOutcome, AfterEnrollment, AfterConfirmation;
  }

  lemma ExpectedFacts(w: World, actions: seq<Action>, id: nat)
    requires Sound(w.verify) && id in Exec(w, actions).workers && Expecting(Exec(w, actions).workers[id].pc).Expected?
    ensures var s := Exec(w, actions);
            var worker, expected := s.workers[id], Expecting(s.workers[id].pc);
            && Transmitted(w, s.log, worker.job, expected.transmission)
            && (expected.previous.Some? ==> UsageOk(expected.previous.value))
  {
    hide Step, Exec, Shape, SentOk, AnsweredOk, Sound, WorkerOk, Justified, ChainedFor;
    var s := Exec(w, actions);
    var worker, expected := s.workers[id], Expecting(s.workers[id].pc);
    Reachable(w, actions);
    ExpectedHeld(w, s.log, worker.job, worker.pc);
    assert OfRun(w, s.log);
    RunsAreLawful(w, s.log);
    hide OfRun, Expecting, Lawful;
    var i := EarlierStored(s.log, expected.transmission.record);
    SignerTrust(w, s.log, i);
  }

  lemma ExpectedHeld(w: World, log: Log, job: Job, pc: Pc)
    requires WorkerOk(w, log, job, pc) && Expecting(pc).Expected?
    ensures var t, previous := Expecting(pc).transmission, Expecting(pc).previous;
            && Transmitted(w, log, job, t) && Stored(t.record) in log
            && (previous.None? || previous == t.record.status.responseSigner)
  {
    hide AnsweredOk, FromSettings, RejectionSent;
  }

  /**
   A delivery is taken as an answer exactly when it is authentic, by the nonce of the message or, for a
   poll, of the request it polls for, and by a chained signer or the one relied on. Otherwise nothing is
   recorded: a response that is not authentic, that cannot be read or that the transport refused for
   good ends the record, and anything else only the reconcile.
   */
  lemma AnswerIff(w: World, actions: seq<Action>, id: nat, input: Input)
    requires Sound(w.verify) && id in Exec(w, actions).workers && Expecting(Exec(w, actions).workers[id].pc).Expected?
    ensures var s, s' := Exec(w, actions), Exec(w, actions + [Run(id, input)]);
            var t, previous := Expecting(s.workers[id].pc).transmission, Expecting(s.workers[id].pc).previous;
            if input.Response? && exists signer :: AuthenticTo(w, t, input.response, previous, s.clock, signer) then
              exists signer ::
                && AuthenticTo(w, t, input.response, previous, s.clock, signer)
                && s'.log == s.log + [Answered(Answer(t, input.response, signer, previous, s.clock))]
            else
              && s'.log == s.log && s'.objects == s.objects
              && (if input.Response? || input.Unreadable? || input == Transport(false) then
                    id in s'.workers && s'.workers[id] == Worker(s.workers[id].job, Drop(t.record))
                  else s'.workers == s.workers - {id})
  {
    hide Step, Exec, Sound, AuthenticTo, Receive, After, Expecting, Transmitted;
    var s := Exec(w, actions);
    var worker, expected := s.workers[id], Expecting(s.workers[id].pc);
    var t, previous := expected.transmission, expected.previous;
    ExpectedFacts(w, actions, id);
    AwaitStep(w, worker.job, worker.pc, input, s.objects, s.clock, s.next);
    Ran(w, actions, id, input, Step(w, worker.job, worker.pc, input, s.objects, s.clock, s.next));
    assert s.log + [] == s.log;
    if input.Response? || input.Unreadable? || input.Transport? {
      DeliveryIff(w, t, previous, input, s.clock);
    } else {
      assert Receive(w, t, previous, input, s.clock) == Nothing(Done) by {
        OtherInputs(w, t, previous, input, s.clock);
      }
    }
  }

  lemma OtherInputs(w: World, t: Transmission, previous: Option<Certificate>, input: Input, clock: int)
    requires !input.Response? && !input.Unreadable? && !input.Transport?
    ensures Receive(w, t, previous, input, clock) == Nothing(Done)
  {
  }

  // ----- What an answer to an enrollment leads to

  /** The wait a response asks for: that of its single poll entry, and otherwise none in particular. */
  function Asked(response: Protocol.Response): int
  {
    if response.body.PollRepBody? && response.body.entries.Some? && |response.body.entries.value| == 1
        then SecondsToDuration(response.body.entries.value[0].checkAfter)
    else 0
  }

  /** The response hands over the certificate, every certificate in it parses, and a KUP omits caPubs where required. */
  ghost predicate Hands(response: Protocol.Response, request: Request, certificate: Certificate, certReqId: int)
  {
    && Delivers(response, request, certificate, certReqId)
    && (request.operation.KUR? && request.requireKupCaPubsAbsent ==> response.body.reply.value.caPubs == [])
    && (forall e :: e in response.body.reply.value.caPubs + response.extraCerts ==> e.Der?)
  }

  /** The server reports a failure that may pass. */
  ghost predicate MayPass(response: Protocol.Response, request: Request)
  {
    exists info ::
      && ReportsStatus(response, request, info) && Transient(info)
      && (info.status.Rejection? || info.status.OtherStatus?)
  }

  /** An error message that says waiting, or success. */
  ghost predicate NoFailure(response: Protocol.Response)
  {
    && response.body.ErrorBody? && response.body.status.Some?
    && var status := response.body.status.value.status;
       status.Waiting? || status.Accepted? || status.GrantedWithMods?
  }

  /**
   Every answer to an enrollment or its poll: it is recorded as a wait exactly when the server has not
   decided; issued, confirmed or rejected as its certificate is acceptable and implicitly confirmed; it
   ends only the reconcile exactly for a failure that may pass or an error message without a failure;
   and everything else ends the record.
   */
  lemma EnrollmentAnswers(w: World, a: Answer)
    requires Sound(w.verify) && (a.to.using.request.operation.KUR? ==> a.to.using.request.protection.Signature?)
    ensures var pc, request := AfterEnrollment(a, EnrollmentOutcome(w, a)), a.to.using.request;
            && (pc.StorePending? <==> exists certReqId :: Undecides(a, certReqId))
            && (pc.StoreIssued? <==>
                  exists c, certReqId ::
                    && Hands(a.response, request, c, certReqId) && DeliveredAcceptable(a, c, certReqId)
                    && ImplicitlyConfirmed(a.response, request))
            && (pc.StoreConfirming? <==>
                  exists c, certReqId ::
                    && Hands(a.response, request, c, certReqId) && DeliveredAcceptable(a, c, certReqId)
                    && !ImplicitlyConfirmed(a.response, request))
            && (pc.Reject? <==>
                  exists c, certReqId ::
                    && Hands(a.response, request, c, certReqId) && !DeliveredAcceptable(a, c, certReqId)
                    && !ImplicitlyConfirmed(a.response, request))
            && (pc.Done? <==> MayPass(a.response, request) || NoFailure(a.response))
            && (pc.StorePending? || pc.StoreIssued? || pc.StoreConfirming? || pc.Reject? || pc.Done?
                || pc == Drop(a.to.record))
  {
    hide Sound, DeliveredAcceptable, Undecides, MayPass, NoFailure;
    if c, certReqId :| Hands(a.response, a.to.using.request, c, certReqId) {
      HandedAnswers(w, a, c, certReqId);
    } else {
      OtherAnswers(w, a);
    }
  }

  /** A response hands over at most one certificate. */
  lemma HandsOne(response: Protocol.Response, request: Request, c: Certificate, certReqId: int, d: Certificate,
                 other: int)
    requires Hands(response, request, c, certReqId) && Hands(response, request, d, other)
    ensures c == d && certReqId == other
  {
  }

  lemma HandedAnswers(w: World, a: Answer, c: Certificate, certReqId: int)
    requires Sound(w.verify) && (a.to.using.request.operation.KUR? ==> a.to.using.request.protection.Signature?)
    requires Hands(a.response, a.to.using.request, c, certReqId)
    ensures var pc, request := AfterEnrollment(a, EnrollmentOutcome(w, a)), a.to.using.request;
            && (pc.StoreIssued? <==> DeliveredAcceptable(a, c, certReqId) && ImplicitlyConfirmed(a.response, request))
            && (pc.StoreConfirming? <==>
                  DeliveredAcceptable(a, c, certReqId) && !ImplicitlyConfirmed(a.response, request))
            && (pc.Reject? <==> !DeliveredAcceptable(a, c, certReqId) && !ImplicitlyConfirmed(a.response, request))
            && (pc.StoreIssued? || pc.StoreConfirming? || pc.Reject? || pc == Drop(a.to.record))
    ensures (forall id :: !Undecides(a, id)) && !MayPass(a.response, a.to.using.request) && !NoFailure(a.response)
    ensures forall d, other :: Hands(a.response, a.to.using.request, d, other) ==> d == c && other == certReqId
  {
    var request := a.to.using.request;
    ExtractedIff(a.response, request);
    forall d, other | Hands(a.response, request, d, other) ensures d == c && other == certReqId {
      HandsOne(a.response, request, c, certReqId, d, other);
    }
    hide Sound, Acceptable, Finish, Extract;
    RefusalAlgebra(w.verify, a.at, request, a.response, a.signer, EnrollmentNonce(a.to), c, certReqId);
  }

  lemma OtherAnswers(w: World, a: Answer)
    requires a.to.using.request.operation.KUR? ==> a.to.using.request.protection.Signature?
    requires !exists c, certReqId :: Hands(a.response, a.to.using.request, c, certReqId)
    ensures var pc := AfterEnrollment(a, EnrollmentOutcome(w, a));
            && (pc.StorePending? <==> exists certReqId :: Undecides(a, certReqId))
            && (pc.Done? <==> MayPass(a.response, a.to.using.request) || NoFailure(a.response))
            && (pc.StorePending? || pc.Done? || pc == Drop(a.to.record))
  {
    var request := a.to.using.request;
    var issued := Extract(a.response, request);
    if issued.Ok? && issued.value.Certified? {
      ExtractedIff(a.response, request);
      ExtractMeans(a.response, request);
      assert Hands(a.response, request, issued.value.certificate, issued.value.certReqId);
    }
    if a.to.message.body.PollReq? && a.response.body.PollRepBody? {
      PollAnswers(w, a);
    } else {
      UncertifiedAnswers(w, a);
    }
  }

  /**
   A pollRep to a poll is another wait exactly when its single entry names the polled request, and ends
   the record otherwise.
   */
  lemma PollAnswers(w: World, a: Answer)
    requires a.to.message.body.PollReq? && a.response.body.PollRepBody?
    ensures var pc := AfterEnrollment(a, EnrollmentOutcome(w, a));
            && (pc.StorePending? <==> SingleEntry(a.response, a.to.message.body.certReqId))
            && (pc.StorePending? || pc == Drop(a.to.record))
    ensures (exists id :: Undecides(a, id)) <==> SingleEntry(a.response, a.to.message.body.certReqId)
    ensures !MayPass(a.response, a.to.using.request) && !NoFailure(a.response)
  {
    if SingleEntry(a.response, a.to.message.body.certReqId) {
      assert Undecides(a, a.to.message.body.certReqId);
    }
  }

  lemma UncertifiedAnswers(w: World, a: Answer)
    requires !(a.to.message.body.PollReq? && a.response.body.PollRepBody?)
    requires var issued := Extract(a.response, a.to.using.request); issued.Ok? ==> !issued.value.Certified?
    ensures var pc := AfterEnrollment(a, EnrollmentOutcome(w, a));
            && (pc.StorePending? <==> exists certReqId :: Undecides(a, certReqId))
            && (pc.Done? <==> MayPass(a.response, a.to.using.request) || NoFailure(a.response))
            && (pc.StorePending? || pc.Done? || pc == Drop(a.to.record))
  {
    var body := a.response.body;
    if body.ErrorBody? && body.status.Some? {
      StatusKinds(body.status.value);
      assert ReportsStatus(a.response, a.to.using.request, body.status.value);
    } else if body.CertRepBody? && body.reply.Some? && |body.reply.value.responses| == 1 {
      StatusKinds(body.reply.value.responses[0].status);
      if Defers(a.response, a.to.using.request, body.reply.value.responses[0].certReqId) {
        assert Undecides(a, body.reply.value.responses[0].certReqId);
      }
    }
    hide ClassifyStatus, ValidateAndOrderChain;
  }

  // ----- What follows an answer, in the run

  /** The reconcile has just taken this answer. */
  ghost predicate Took(w: World, actions: seq<Action>, id: nat, input: Input, a: Answer)
  {
    && id in Exec(w, actions).workers && Expecting(Exec(w, actions).workers[id].pc).Expected?
    && Exec(w, actions + [Run(id, input)]).log == Exec(w, actions).log + [Answered(a)]
  }

  lemma TookFacts(w: World, actions: seq<Action>, id: nat, input: Input, a: Answer)
    requires Took(w, actions, id, input, a)
    ensures var s, s' := Exec(w, actions), Exec(w, actions + [Run(id, input)]);
            var worker := s.workers[id];
            var pc := After(w, worker.pc, a);
            && a.to == Expecting(worker.pc).transmission && a.to.job == worker.job && a.to.record.key == worker.job.key
            && WorkerOk(w, s.log, worker.job, worker.pc) && SentOk(w, s.log, a.to)
            && s' == s.(log := s.log + [Answered(a)],
                        workers := if pc.Done? then s.workers - {id} else s.workers[id := Worker(worker.job, pc)])
  {
    hide Step, Exec, Shape, Justified, Receive, After, WorkerOk, Expecting, SentOk;
    var s := Exec(w, actions);
    var worker := s.workers[id];
    Reachable(w, actions);
    AwaitStep(w, worker.job, worker.pc, input, s.objects, s.clock, s.next);
    var effect := Step(w, worker.job, worker.pc, input, s.objects, s.clock, s.next);
    Ran(w, actions, id, input, effect);
    assert (s.log + effect.events)[|s.log|..] == effect.events;
    assert (s.log + [Answered(a)])[|s.log|..] == [Answered(a)];
    AnswersTo(w, Expecting(worker.pc).transmission, Expecting(worker.pc).previous, input, s.clock);
    ExpectedHeld(w, s.log, worker.job, worker.pc);
    TransmittedHeld(w, s.log, worker.job, a.to);
  }

  lemma AnswersTo(w: World, t: Transmission, previous: Option<Certificate>, input: Input, clock: int)
    ensures var got := Receive(w, t, previous, input, clock); got.Authenticated? ==> got.answer.to == t
  {
    hide VerifyResponse;
  }

  /** The run, continued by the delivery and two undisturbed steps of the reconcile. */
  function Finished(actions: seq<Action>, id: nat, input: Input): seq<Action>
  {
    actions + [Run(id, input)] + [Run(id, Proceed)] + [Run(id, Proceed)]
  }

  /** The delay a version that waits is retried after. */
  function Delay(w: World, r: Record, wait: int, clock: int): int
    requires r.spec.issuer.Some?
  {
    RequeueDelay(wait, LimitsWithDefaults(w.spec(r.spec.issuer.value).transaction), clock, r.spec.deadline)
  }

  lemma RequeueStep(w: World, job: Job, r: Record, wait: int, input: Input, objects: Objects, clock: int, next: nat)
    requires r.spec.issuer.Some?
    ensures Step(w, job, Requeue(r, wait), input, objects, clock, next) ==
            Effect(Done, objects, next, [Requeued(r, Delay(w, r, wait, clock), clock)])
  {
  }

  /** The version an undecided answer leads to: only a poll is counted, and the nonce of the first request stays. */
  function Waited(a: Answer, certReqId: int, version: nat): Record
  {
    var s, polled := a.to.record.status, a.to.message.body.PollReq?;
    a.to.record.(version := version, status := Status(
      Polling, s.chain, a.response.senderNonce, if polled then s.requestNonce else a.to.message.senderNonce,
      Some(certReqId), if a.signer.Some? then a.signer else s.responseSigner, if polled then s.polls + 1 else s.polls))
  }

  lemma UndecidedOutcome(w: World, a: Answer, certReqId: int)
    requires Undecides(a, certReqId)
    ensures EnrollmentOutcome(w, a) ==
            Waits(PendingTransaction(certReqId, a.response.senderNonce, a.signer, Asked(a.response),
                                     if a.to.message.body.PollReq? then a.to.record.status.requestNonce
                                     else a.to.message.senderNonce))
  {
  }

  lemma WaitSteps(w: World, job: Job, a: Answer, certReqId: int, objects: Objects, clock: int, next: nat)
    requires Undecides(a, certReqId) && EnrollmentSent(w, a.to) && a.to.purpose.ForEnrollment?
             && a.to.message.senderNonce.Nonce? && a.to.record.spec.issuer.Some?
    requires a.to.record.key in objects && objects[a.to.record.key] == a.to.record
    ensures var r := Waited(a, certReqId, next);
            Step(w, job, AfterEnrollment(a, EnrollmentOutcome(w, a)), Proceed, objects, clock, next) ==
            Effect(Requeue(r, Asked(a.response)), objects[r.key := r], next + 1, [Stored(r)])
  {
    UndecidedOutcome(w, a, certReqId);
    hide EnrollmentOutcome, Undecides;
  }

  /**
   An undecided answer is recorded and the request retried: the next version is Polling, under the id and
   the nonces to go on with and with one more poll after a poll, and the retry is due after the delay.
   */
  lemma WaitIsRecorded(w: World, actions: seq<Action>, id: nat, input: Input, a: Answer, certReqId: int)
    requires Took(w, actions, id, input, a) && Exec(w, actions).workers[id].pc.AwaitEnrollment?
    requires Undecides(a, certReqId)
    requires var s := Exec(w, actions); a.to.record.key in s.objects && s.objects[a.to.record.key] == a.to.record
    ensures var s, s' := Exec(w, actions), Exec(w, Finished(actions, id, input));
            var r := Waited(a, certReqId, s.next);
            && r.spec.issuer.Some?
            && s'.log == s.log + [Answered(a), Stored(r), Requeued(r, Delay(w, r, Asked(a.response), s.clock), s.clock)]
            && s'.objects == s.objects[r.key := r] && id !in s'.workers
  {
    hide Exec, Step, Undecides, AfterEnrollment, EnrollmentOutcome, Asked, Delay, WorkerOk, SentOk, EnrollmentSent;
    var s := Exec(w, actions);
    var job, r, more := s.workers[id].job, Waited(a, certReqId, s.next), actions + [Run(id, input)];
    TookFacts(w, actions, id, input, a);
    EnrollmentFacts(w, s.log, job, s.workers[id].pc);
    UndecidedPending(w, a, certReqId);
    WaitSteps(w, job, a, certReqId, s.objects, s.clock, s.next);
    RequeueStep(w, job, r, Asked(a.response), Proceed, s.objects[r.key := r], s.clock, s.next + 1);
    RanTwice(w, more, id,
             Effect(Requeue(r, Asked(a.response)), s.objects[r.key := r], s.next + 1, [Stored(r)]),
             Effect(Done, s.objects[r.key := r], s.next + 1,
                    [Requeued(r, Delay(w, r, Asked(a.response), s.clock), s.clock)]));
  }

  lemma UndecidedPending(w: World, a: Answer, certReqId: int)
    requires Undecides(a, certReqId)
    ensures AfterEnrollment(a, EnrollmentOutcome(w, a)).StorePending?
  {
    UndecidedOutcome(w, a, certReqId);
    hide EnrollmentOutcome, Undecides;
  }

  /** What holds of an answer to an enrollment message or its poll. */
  lemma EnrollmentFacts(w: World, log: Log, job: Job, pc: Pc)
    requires WorkerOk(w, log, job, pc) && pc.AwaitEnrollment?
    ensures var t := pc.transmission;
            && t.purpose.ForEnrollment? && EnrollmentSent(w, t) && t.message.senderNonce.Nonce?
            && t.record.spec.issuer == Some(t.job.issuer)
            && (t.using.request.operation.KUR? ==> t.using.request.protection.Signature?)
  {
    hide PinnedProtection;
  }

  // ----- Certificates

  /** The version that records a delivered certificate for confirmation. */
  function RecordedWith(a: Answer, chain: Path, certReqId: int, version: nat): Record
  {
    var s := a.to.record.status;
    a.to.record.(version := version, status := Status(
      Confirming, chain, a.response.senderNonce, NoNonce, Some(certReqId),
      if a.signer.Some? then a.signer else s.responseSigner, s.polls))
  }

  /** The certConf that follows. */
  function CertConfFor(a: Answer, r: Record, leaf: Certificate, certReqId: int, clock: int, nonce: nat): Transmission
  {
    Transmission(a.to.job, r, ForConfirmation,
                 Message(a.to.using.request.transactionId, Nonce(nonce), a.response.senderNonce,
                         if leaf.signer.algorithm.MlDsa? then 3 else 2, CertConf(leaf, certReqId, false)),
                 a.to.using, clock)
  }

  /** The certificate is handed over, acceptable and, or not, already confirmed by the server. */
  ghost predicate Good(a: Answer, leaf: Certificate, certReqId: int, implicit: bool)
  {
    && Hands(a.response, a.to.using.request, leaf, certReqId) && DeliveredAcceptable(a, leaf, certReqId)
    && ImplicitlyConfirmed(a.response, a.to.using.request) == implicit
  }

  lemma GoodOutcome(w: World, a: Answer, leaf: Certificate, certReqId: int, implicit: bool) returns (chain: Path)
    requires Sound(w.verify) && (a.to.using.request.operation.KUR? ==> a.to.using.request.protection.Signature?)
    requires Good(a, leaf, certReqId, implicit)
    ensures OrderedChain(leaf, chain) && chain != [] && chain[0] == leaf
    ensures EnrollmentOutcome(w, a) ==
            if implicit then Completed(chain, certReqId)
            else AwaitsConfirmation(chain, PendingTransaction(certReqId, a.response.senderNonce, a.signer, 0, NoNonce))
  {
    var request := a.to.using.request;
    ExtractedIff(a.response, request);
    FinishMeans(w.verify, a.at, request, a.response, a.signer, EnrollmentNonce(a.to));
    RefusalAlgebra(w.verify, a.at, request, a.response, a.signer, EnrollmentNonce(a.to), leaf, certReqId);
    hide Finish, Extract, Sound, Acceptable;
    chain := EnrollmentOutcome(w, a).chain;
  }

  lemma ConfirmingSteps(w: World, a: Answer, chain: Path, certReqId: int, objects: Objects, clock: int, next: nat)
    requires chain != [] && a.to.purpose.ForEnrollment? && a.to.record.spec.issuer == Some(a.to.job.issuer)
    requires a.to.record.key in objects && objects[a.to.record.key] == a.to.record
    ensures var pending := PendingTransaction(certReqId, a.response.senderNonce, a.signer, 0, NoNonce);
            var r := RecordedWith(a, chain, certReqId, next);
            var t := CertConfFor(a, r, chain[0], certReqId, clock, next + 1);
            var objects' := objects[r.key := r];
            && Step(w, a.to.job, StoreConfirming(a, chain, pending), Proceed, objects, clock, next) ==
               Effect(SendConfirmation(r, a.to.using, chain, pending), objects', next + 1, [Stored(r)])
            && Step(w, a.to.job, SendConfirmation(r, a.to.using, chain, pending), Proceed, objects', clock, next + 1) ==
               if CanConfirm(w, r, clock)
               then Effect(AwaitConfirmation(t, chain, pending), objects', next + 2, [Sent(t)])
               else Stay(Drop(r), objects', next + 1)
  {
  }

  /**
   A good certificate the server has not confirmed is recorded and then confirmed: the next version is
   Confirming, with the ordered chain and the id it came with, and then certConf goes out for it, unless
   the deadline has passed.
   */
  lemma CertificateIsConfirmed(w: World, actions: seq<Action>, id: nat, input: Input, a: Answer, leaf: Certificate,
                               certReqId: int) returns (chain: Path)
    requires Sound(w.verify) && Took(w, actions, id, input, a) && Exec(w, actions).workers[id].pc.AwaitEnrollment?
    requires Good(a, leaf, certReqId, false)
    requires var s := Exec(w, actions); a.to.record.key in s.objects && s.objects[a.to.record.key] == a.to.record
    ensures var s, s' := Exec(w, actions), Exec(w, Finished(actions, id, input));
            var r := RecordedWith(a, chain, certReqId, s.next);
            var t := CertConfFor(a, r, leaf, certReqId, s.clock, s.next + 1);
            && OrderedChain(leaf, chain) && chain != [] && chain[0] == leaf && r.spec.issuer.Some?
            && s'.log == s.log + [Answered(a), Stored(r)] + (if CanConfirm(w, r, s.clock) then [Sent(t)] else [])
            && s'.objects == s.objects[r.key := r] && id in s'.workers
            && s'.workers[id].pc ==
               if CanConfirm(w, r, s.clock)
               then AwaitConfirmation(t, chain,
                                      PendingTransaction(certReqId, a.response.senderNonce, a.signer, 0, NoNonce))
               else Drop(r)
  {
    hide Exec, Step, EnrollmentOutcome, WorkerOk, Good, Sound, CanConfirm, OrderedChain, SentOk, EnrollmentSent;
    var s := Exec(w, actions);
    TookFacts(w, actions, id, input, a);
    EnrollmentFacts(w, s.log, s.workers[id].job, s.workers[id].pc);
    chain := GoodOutcome(w, a, leaf, certReqId, false);
    var pending := PendingTransaction(certReqId, a.response.senderNonce, a.signer, 0, NoNonce);
    var r := RecordedWith(a, chain, certReqId, s.next);
    var t, objects := CertConfFor(a, r, leaf, certReqId, s.clock, s.next + 1), s.objects[r.key := r];
    ConfirmingSteps(w, a, chain, certReqId, s.objects, s.clock, s.next);
    hide RecordedWith, CertConfFor;
    RanTwice(w, actions + [Run(id, input)], id,
             Effect(SendConfirmation(r, a.to.using, chain, pending), objects, s.next + 1, [Stored(r)]),
             if CanConfirm(w, r, s.clock)
             then Effect(AwaitConfirmation(t, chain, pending), objects, s.next + 2, [Sent(t)])
             else Stay(Drop(r), objects, s.next + 1));
  }

  lemma IssuingSteps(w: World, a: Answer, chain: Path, objects: Objects, clock: int, next: nat)
    requires a.to.record.key in objects && objects[a.to.record.key] == a.to.record
    ensures var r := a.to.record.(version := next, status := a.to.record.status.(phase := Issued, chain := chain));
            var objects' := objects[r.key := r];
            && Step(w, a.to.job, StoreIssued(a, chain), Proceed, objects, clock, next) ==
               Effect(Return(r, chain), objects', next + 1, [Stored(r)])
            && Step(w, a.to.job, Return(r, chain), Proceed, objects', clock, next + 1) ==
               Effect(Done, objects', next + 1, [Returned(a.to.job, r, chain)])
  {
  }

  /** The certificate is recorded as issued, and then returned. */
  ghost predicate Completes(w: World, s: State, actions: seq<Action>, a: Answer, chain: Path)
  {
    var s' := Exec(w, actions);
    var r := a.to.record.(version := s.next, status := a.to.record.status.(phase := Issued, chain := chain));
    && s'.log == s.log + [Answered(a), Stored(r), Returned(a.to.job, r, chain)]
    && s'.objects == s.objects[r.key := r]
  }

  lemma IssuedNext(w: World, actions: seq<Action>, id: nat, input: Input, a: Answer, chain: Path)
    requires Took(w, actions, id, input, a)
    requires After(w, Exec(w, actions).workers[id].pc, a) == StoreIssued(a, chain)
    requires var s := Exec(w, actions); a.to.record.key in s.objects && s.objects[a.to.record.key] == a.to.record
    ensures Completes(w, Exec(w, actions), Finished(actions, id, input), a, chain)
  {
    hide Exec, Step, After, WorkerOk, SentOk;
    var s := Exec(w, actions);
    TookFacts(w, actions, id, input, a);
    IssuingSteps(w, a, chain, s.objects, s.clock, s.next);
    var r := a.to.record.(version := s.next, status := a.to.record.status.(phase := Issued, chain := chain));
    RanTwice(w, actions + [Run(id, input)], id,
             Effect(Return(r, chain), s.objects[r.key := r], s.next + 1, [Stored(r)]),
             Effect(Done, s.objects[r.key := r], s.next + 1, [Returned(a.to.job, r, chain)]));
  }

  /** A good certificate that the server confirmed itself is recorded as issued and returned, in order. */
  lemma CertificateIsReturned(w: World, actions: seq<Action>, id: nat, input: Input, a: Answer, leaf: Certificate,
                              certReqId: int) returns (chain: Path)
    requires Sound(w.verify) && Took(w, actions, id, input, a) && Exec(w, actions).workers[id].pc.AwaitEnrollment?
    requires Good(a, leaf, certReqId, true)
    requires var s := Exec(w, actions); a.to.record.key in s.objects && s.objects[a.to.record.key] == a.to.record
    ensures OrderedChain(leaf, chain) && chain != [] && chain[0] == leaf
    ensures Completes(w, Exec(w, actions), Finished(actions, id, input), a, chain)
  {
    hide Exec, EnrollmentOutcome, WorkerOk, Good, Sound, OrderedChain, SentOk, EnrollmentSent;
    TookFacts(w, actions, id, input, a);
    EnrollmentFacts(w, Exec(w, actions).log, Exec(w, actions).workers[id].job, Exec(w, actions).workers[id].pc);
    chain := GoodOutcome(w, a, leaf, certReqId, true);
    IssuedNext(w, actions, id, input, a, chain);
  }

  /** A confirmed certificate is recorded as issued and returned, in order. */
  lemma ConfirmedIsIssued(w: World, actions: seq<Action>, id: nat, input: Input, a: Answer)
    requires Took(w, actions, id, input, a) && Exec(w, actions).workers[id].pc.AwaitConfirmation?
    requires a.response.body.PkiConf?
    requires var s := Exec(w, actions); a.to.record.key in s.objects && s.objects[a.to.record.key] == a.to.record
    ensures Completes(w, Exec(w, actions), Finished(actions, id, input), a,
                   Exec(w, actions).workers[id].pc.chain)
  {
    hide Exec;
    IssuedNext(w, actions, id, input, a, Exec(w, actions).workers[id].pc.chain);
  }

  /** The version a delayed confirmation leads to: only a poll is counted, and the nonce of certConf stays. */
  function DelayedBy(a: Answer, chain: Path, version: nat): Record
  {
    var s, polled := a.to.record.status, a.to.message.body.PollReq?;
    a.to.record.(version := version, status := Status(
      Confirming, chain, a.response.senderNonce, if polled then s.requestNonce else a.to.message.senderNonce,
      s.certReqId, s.responseSigner, if polled then s.polls + 1 else s.polls))
  }

  lemma DelaySteps(w: World, job: Job, a: Answer, chain: Path, pending: PendingTransaction, objects: Objects,
                   clock: int, next: nat)
    requires DelaysConfirmation(a.response) && Resumes(a.to.record.status, chain, pending)
             && ConfirmationSent(w, a.to) && a.to.purpose.ForConfirmation? && a.to.message.senderNonce.Nonce?
    requires a.to.record.key in objects && objects[a.to.record.key] == a.to.record
    ensures AfterConfirmation(a, chain, pending).StoreConfirming?
    ensures var r := DelayedBy(a, chain, next);
            Step(w, job, AfterConfirmation(a, chain, pending), Proceed, objects, clock, next) ==
            Effect(Requeue(r, Asked(a.response)), objects[r.key := r], next + 1, [Stored(r)])
  {
  }

  /**
   A delayed confirmation is recorded and retried: the next version keeps leaf, id and signer, has the
   nonces to go on with and one more poll after a poll, and the retry is due after the delay.
   */
  lemma DelayIsRecorded(w: World, actions: seq<Action>, id: nat, input: Input, a: Answer)
    requires Took(w, actions, id, input, a) && Exec(w, actions).workers[id].pc.AwaitConfirmation?
    requires DelaysConfirmation(a.response)
    requires var s := Exec(w, actions); a.to.record.key in s.objects && s.objects[a.to.record.key] == a.to.record
    ensures var s, s' := Exec(w, actions), Exec(w, Finished(actions, id, input));
            var r := DelayedBy(a, s.workers[id].pc.chain, s.next);
            && r.spec.issuer.Some?
            && s'.log == s.log + [Answered(a), Stored(r), Requeued(r, Delay(w, r, Asked(a.response), s.clock), s.clock)]
            && s'.objects == s.objects[r.key := r] && id !in s'.workers
  {
    hide Exec, Step, AfterConfirmation, Asked, Delay, WorkerOk, SentOk, DelaysConfirmation, ConfirmationSent, Resumes;
    var s := Exec(w, actions);
    var job, pc := s.workers[id].job, s.workers[id].pc;
    TookFacts(w, actions, id, input, a);
    ConfirmationFacts(w, s.log, job, pc);
    var r := DelayedBy(a, pc.chain, s.next);
    DelaySteps(w, job, a, pc.chain, pc.pending, s.objects, s.clock, s.next);
    RequeueStep(w, job, r, Asked(a.response), Proceed, s.objects[r.key := r], s.clock, s.next + 1);
    RanTwice(w, actions + [Run(id, input)], id,
             Effect(Requeue(r, Asked(a.response)), s.objects[r.key := r], s.next + 1, [Stored(r)]),
             Effect(Done, s.objects[r.key := r], s.next + 1,
                    [Requeued(r, Delay(w, r, Asked(a.response), s.clock), s.clock)]));
  }

  /** What holds of an answer to certConf or its poll. */
  lemma ConfirmationFacts(w: World, log: Log, job: Job, pc: Pc)
    requires WorkerOk(w, log, job, pc) && pc.AwaitConfirmation?
    ensures var t := pc.transmission;
            && t.purpose.ForConfirmation? && ConfirmationSent(w, t) && t.message.senderNonce.Nonce?
            && t.record.spec.issuer == Some(t.job.issuer) && Resumes(t.record.status, pc.chain, pc.pending)
  {
    hide FromSettings;
  }
}
