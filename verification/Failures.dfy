/**
 What failures lead to: transport failures and responses that are not authentic, failures the server
 reports, and certificates the client refuses.
 */
module Failures {
  import opened Basics
  import opened Names
  import opened Certificates
  import opened Protocol
  import opened Store
  import opened Signer
  import opened History
  import opened Invariant
  import opened Lifetime
  import opened System
  import opened Theorems
  import opened Resumption

  // ----- Deliveries

  /**
   What a delivery does: an authentic response is acted on; one that is not authentic, cannot be read
   or was refused for good by the transport ends the record; a transient transport failure ends only
   the reconcile.
   */
  lemma DeliveryIff(w: World, t: Transmission, previous: Option<Certificate>, input: Input, clock: int)
    requires Sound(w.verify) && (previous.Some? ==> UsageOk(previous.value))
             && (input.Response? || input.Unreadable? || input.Transport?)
    ensures var got := Receive(w, t, previous, input, clock);
            match input
            case Response(response) =>
              if exists signer :: AuthenticTo(w, t, response, previous, clock, signer) then
                && got.Authenticated?
                && got.answer == Answer(t, response, got.answer.signer, previous, clock)
                && AuthenticTo(w, t, response, previous, clock, got.answer.signer)
              else got == Nothing(Drop(t.record))
            case Unreadable => got == Nothing(Drop(t.record))
            case Transport(retryable) => got == Nothing(if retryable then Done else Drop(t.record))
            case _ => true
  {
    if input.Response? {
      VerifiedIff(w, t, previous, input.response, clock);
      hide Sound, AuthenticTo, VerifyResponse;
    }
  }

  lemma VerifiedIff(w: World, t: Transmission, previous: Option<Certificate>, response: Protocol.Response, clock: int)
    requires Sound(w.verify) && (previous.Some? ==> UsageOk(previous.value))
    ensures var r := VerifyResponse(w.verify, clock, t.message, response, t.using.request, previous, Delayed(t));
            && (r.Ok? ==> AuthenticTo(w, t, response, previous, clock, r.value))
            && (r.Err? ==> EndsTransaction(r.error))
            && (r.Err? ==> forall signer :: !AuthenticTo(w, t, response, previous, clock, signer))
  {
    UnverifiedEnds(w, t, previous, response, clock);
    hide Sound, Authentic, VerifyResponse;
    VerifyResponseIff(w.verify, clock, t.message, response, t.using.request, previous, Delayed(t));
    forall signer
      ensures AuthenticTo(w, t, response, previous, clock, signer) <==>
              Authentic(w.verify, clock, t.message, response, t.using.request, previous, Delayed(t), signer)
    {
    }
  }

  /** Every reason not to accept a response ends the transaction. */
  lemma UnverifiedEnds(w: World, t: Transmission, previous: Option<Certificate>, response: Protocol.Response,
                       clock: int)
    ensures var r := VerifyResponse(w.verify, clock, t.message, response, t.using.request, previous, Delayed(t));
            r.Err? ==> EndsTransaction(r.error)
  {
    hide TrustedSigner, SenderMatchesRecipient;
  }

  // ----- Reported failures

  /** A failure that may pass: the server reports only that it is unavailable or failed internally. */
  predicate Transient(info: StatusInfo)
  {
    info.failInfo * PermanentBits == {} && info.failInfo * {SystemUnavail, SystemFailure} != {}
  }

  /** The answer reports this status, in an error message or as the single answer to the request. */
  ghost predicate ReportsStatus(response: Protocol.Response, request: Request, info: StatusInfo)
  {
    || response.body == ErrorBody(Some(info))
    || (&& response.body.CertRepBody? && response.body.answers == request.operation && response.body.reply.Some?
        && var responses := response.body.reply.value.responses;
           |responses| == 1 && responses[0].status == info
           && IdAllowed(request.operation, request.pinnedCertReqId, responses[0].certReqId))
  }

  /**
   What a failed enrollment does to the record: a reported failure ends it unless it is transient, which
   ends only the reconcile, as does an error message that says waiting.
   */
  lemma ServerFailureEndsRecordIff(w: World, a: Answer, info: StatusInfo)
    requires !info.status.Accepted? && !info.status.GrantedWithMods?
             && ReportsStatus(a.response, a.to.using.request, info)
    ensures var pc := AfterEnrollment(a, EnrollmentOutcome(w, a));
            if info.status.Waiting? then (if a.response.body.ErrorBody? then pc.Done? else pc.StorePending?)
            else pc == if Transient(info) then Done else Drop(a.to.record)
  {
    StatusKinds(info);
    hide ClassifyStatus, ValidateAndOrderChain;
  }

  /** What an answer to a confirmation leads to, for every body. */
  lemma ConfirmationAnswers(a: Answer, chain: Path, pending: PendingTransaction)
    ensures var pc, body := AfterConfirmation(a, chain, pending), a.response.body;
            && (pc.StoreIssued? <==> body.PkiConf?)
            && (pc.StoreConfirming? <==> DelaysConfirmation(a.response))
            && (pc.Done? <==> && body.ErrorBody? && body.status.Some? && Transient(body.status.value)
                              && (body.status.value.status.Rejection? || body.status.value.status.OtherStatus?))
            && (pc.StoreIssued? || pc.StoreConfirming? || pc.Done? || pc == Drop(a.to.record))
  {
    if a.response.body.ErrorBody? && a.response.body.status.Some? {
      StatusKinds(a.response.body.status.value);
    }
    hide ClassifyStatus;
  }

  /**
   An enrollment answer of a run makes the code dereference a missing certificate exactly when it is an
   error message that reports success.
   */
  lemma AnswersPanicIff(w: World, log: Log, i: nat)
    requires OfRun(w, log) && i < |log| && log[i].Answered? && log[i].answer.to.purpose.ForEnrollment?
    ensures EnrollmentOutcome(w, log[i].answer).Panics? <==>
            exists info: StatusInfo ::
              && log[i].answer.response.body == ErrorBody(Some(info))
              && (info.status.Accepted? || info.status.GrantedWithMods?)
  {
    hide OfRun, Lawful;
    RunsAreLawful(w, log);
    var a := log[i].answer;
    LawfulAnswer(w, log, a);
    PanicsIff(w.verify, a.at, a.to.using.request, a.response, a.signer, EnrollmentNonce(a.to));
    hide Finish;
  }

  // ----- Refused certificates

  lemma RefusalSigner(w: World, a: Answer)
    ensures var outcome := EnrollmentOutcome(w, a);
            outcome.Refuses? ==>
              && (outcome.error.kind.Permanent? || outcome.error.kind.Security?)
              && (outcome.refusal.Some? ==> outcome.refusal.value.signer == a.signer)
  {
    hide ValidateAndOrderChain, Extract;
  }

  lemma RejectedFacts(w: World, actions: seq<Action>, a: Answer, t: Transmission, reason: Error,
                      signer: Option<Certificate>)
    requires Sound(w.verify) && Answered(a) in Exec(w, actions).log && RejectedBy(w, a, t, reason, signer)
    ensures EndsTransaction(reason) && t.message.body.CertConf? && (signer.Some? ==> UsageOk(signer.value))
  {
    hide Sound, Authentic, Exec, EnrollmentOutcome;
    var log := Exec(w, actions).log;
    assert OfRun(w, log);
    hide OfRun;
    var i :| 0 <= i < |log| && log[i] == Answered(a);
    AnswersAreAuthentic(w, log, i);
    RefusalSigner(w, a);
  }

  lemma RejectionStep(w: World, job: Job, t: Transmission, reason: Error, signer: Option<Certificate>, input: Input,
                      objects: Objects, clock: int, next: nat)
    requires EndsTransaction(reason)
    ensures Step(w, job, AwaitRejection(t, reason, signer), input, objects, clock, next) ==
            Stay(Drop(t.record), objects, next)
  {
  }

  /**
   A reconcile that awaits the answer to a rejecting certConf has sent it for what an answer to this
   record delivered. Delivering it never changes the refusal: whatever arrives, the reason it was refused
   for ends the record, and it is annotated exactly when no authentic pkiConf came back.
   */
  lemma RejectionKeepsRefusal(w: World, actions: seq<Action>, id: nat, input: Input)
    requires Sound(w.verify) && id in Exec(w, actions).workers && Exec(w, actions).workers[id].pc.AwaitRejection?
    ensures var s := Exec(w, actions);
            var pc := s.workers[id].pc;
            var t, reason, signer := pc.transmission, pc.reason, pc.signer;
            var reported := RejectCertificate(reason, RejectionDelivery(w, t, signer, input, s.clock));
            && Rejecting(w, s.log, t, reason, signer) && reported.error == reason
            && Step(w, s.workers[id].job, pc, input, s.objects, s.clock, s.next) ==
               Stay(Drop(t.record), s.objects, s.next)
            && (reported.annotated <==>
                  !(&& input.Response? && input.response.body.PkiConf?
                    && exists protector :: AuthenticTo(w, t, input.response, signer, s.clock, protector)))
  {
    hide Sound, AuthenticTo, Step, Exec, Shape, Justified, Held, RejectedBy;
    var s := Exec(w, actions);
    var t, reason, signer := s.workers[id].pc.transmission, s.workers[id].pc.reason, s.workers[id].pc.signer;
    Reachable(w, actions);
    assert Rejecting(w, s.log, t, reason, signer);
    var a :| Answered(a) in s.log && RejectedBy(w, a, t, reason, signer);
    hide WorkerOk, Rejecting;
    RejectedFacts(w, actions, a, t, reason, signer);
    RejectionStep(w, s.workers[id].job, t, reason, signer, input, s.objects, s.clock, s.next);
    if input.Response? || input.Unreadable? || input.Transport? {
      DeliveryIff(w, t, signer, input, s.clock);
    }
    hide VerifyResponse;
  }

  /** The answer a reconcile that awaits one takes from a delivery, if it is authentic. */
  function Accepting(w: World, t: Transmission, input: Input, clock: int): Reception
  {
    Receive(w, t, if t.message.body.PollReq? then t.record.status.responseSigner else None, input, clock)
  }

  /** The run up to the answer, and what the reconcile does next. */
  lemma RefusedAt(w: World, actions: seq<Action>, id: nat, input: Input, t: Transmission, a: Answer)
    requires id in Exec(w, actions).workers && Exec(w, actions).workers[id].pc == AwaitEnrollment(t)
    requires Accepting(w, t, input, Exec(w, actions).clock) == Authenticated(a) && EnrollmentOutcome(w, a).Refuses?
    ensures var s, s' := Exec(w, actions), Exec(w, actions + [Run(id, input)]);
            var outcome := EnrollmentOutcome(w, a);
            && s' == s.(log := s.log + [Answered(a)], workers := s'.workers) && id in s'.workers
            && s'.workers[id] == Worker(s.workers[id].job,
                                        if ImplicitlyConfirmed(a.response, a.to.using.request) then Drop(t.record)
                                        else Reject(a, outcome.error, outcome.refusal.value))
            && (outcome.refusal.Some? <==> !ImplicitlyConfirmed(a.response, a.to.using.request)) && a.to == t
            && EndsTransaction(outcome.error)
  {
    var s := Exec(w, actions);
    RefusalSigner(w, a);
    RefusalUnconfirmed(w, a);
    RefusedStep(w, s.workers[id].job, t, input, s.objects, s.clock, s.next, a);
    hide Step, EnrollmentOutcome, Receive, ImplicitlyConfirmed;
    Ran(w, actions, id, input,
        Effect(AfterEnrollment(a, EnrollmentOutcome(w, a)), s.objects, s.next, [Answered(a)]));
  }

  lemma RefusalUnconfirmed(w: World, a: Answer)
    requires EnrollmentOutcome(w, a).Refuses?
    ensures EnrollmentOutcome(w, a).refusal.Some? <==> !ImplicitlyConfirmed(a.response, a.to.using.request)
  {
    hide ValidateAndOrderChain;
  }

  lemma RefusedStep(w: World, job: Job, t: Transmission, input: Input, objects: Objects, clock: int, next: nat,
                    a: Answer)
    requires Accepting(w, t, input, clock) == Authenticated(a)
    ensures a.to == t
    ensures Step(w, job, AwaitEnrollment(t), input, objects, clock, next) ==
            Effect(AfterEnrollment(a, EnrollmentOutcome(w, a)), objects, next, [Answered(a)])
  {
    hide VerifyResponse, EnrollmentOutcome, AfterEnrollment;
  }

  /** The rejecting certConf of a refused certificate. */
  function Rejection(w: World, a: Answer, clock: int, next: nat): Transmission
    requires EnrollmentOutcome(w, a).Refuses? && EnrollmentOutcome(w, a).refusal.Some?
  {
    var refusal := EnrollmentOutcome(w, a).refusal.value;
    var pending := PendingTransaction(refusal.certReqId, refusal.recipNonce, refusal.signer, 0, NoNonce);
    Transmission(a.to.job, a.to.record, ForRejection,
                 ConfirmationMessage(a.to.using.request, next, refusal.certificate, pending, true), a.to.using, clock)
  }

  lemma RejectSteps(w: World, job: Job, a: Answer, input: Input, objects: Objects, clock: int, next: nat)
    requires EnrollmentOutcome(w, a).Refuses? && EnrollmentOutcome(w, a).refusal.Some?
             && EndsTransaction(EnrollmentOutcome(w, a).error)
    ensures var reason, refusal := EnrollmentOutcome(w, a).error, EnrollmentOutcome(w, a).refusal.value;
            var t := Rejection(w, a, clock, next);
            && t.message.body == CertConf(refusal.certificate, refusal.certReqId, true)
            && Step(w, job, Reject(a, reason, refusal), input, objects, clock, next) ==
               if input.Fault? then Stay(Drop(a.to.record), objects, next)
               else Effect(AwaitRejection(t, reason, refusal.signer), objects, next + 1, [Sent(t)])
  {
    hide EnrollmentOutcome;
  }

  /**
   A refused certificate never stays on record. When the server confirmed it itself the record is
   removed; otherwise a rejecting certConf is tried first, and the record is removed whether or not it
   could be built and whatever its delivery brings.
   */
  lemma RefusalsDropTheRecord(w: World, actions: seq<Action>, id: nat, input: Input, attempt: Input, delivery: Input)
      returns (a: Answer)
    requires id in Exec(w, actions).workers && Exec(w, actions).workers[id].pc.AwaitEnrollment?
    requires var s := Exec(w, actions);
             var t := s.workers[id].pc.transmission;
             && Accepting(w, t, input, s.clock).Authenticated?
             && EnrollmentOutcome(w, Accepting(w, t, input, s.clock).answer).Refuses?
             && t.record.key in s.objects && s.objects[t.record.key].uid == t.record.uid
    ensures var s := Exec(w, actions);
            var t, answered := s.workers[id].pc.transmission, actions + [Run(id, input)];
            var removed := Removed(s.objects[t.record.key], Failed(t.job, t.record));
            && a == Accepting(w, t, input, s.clock).answer
            && if ImplicitlyConfirmed(a.response, a.to.using.request) then
                 Leaves(w, s, answered + [Run(id, Proceed)], t, [Answered(a), removed])
               else if attempt.Fault? then
                 Leaves(w, s, answered + [Run(id, attempt)] + [Run(id, Proceed)], t, [Answered(a), removed])
               else
                 && EnrollmentOutcome(w, a).refusal.Some?
                 && Leaves(w, s, answered + [Run(id, attempt)] + [Run(id, delivery)] + [Run(id, Proceed)], t,
                           [Answered(a), Sent(Rejection(w, a, s.clock, s.next)), removed])
  {
    hide Step, Exec, EnrollmentOutcome, Receive, ImplicitlyConfirmed, Rejection;
    var s := Exec(w, actions);
    var job, t := s.workers[id].job, s.workers[id].pc.transmission;
    a := Accepting(w, t, input, s.clock).answer;
    Awaited(w, actions, id);
    RefusedAt(w, actions, id, input, t, a);
    hide Accepting;
    var more := actions + [Run(id, input)];
    if ImplicitlyConfirmed(a.response, a.to.using.request) {
      Dropped(w, more, id, job, t.record);
    } else {
      var reason, refusal := EnrollmentOutcome(w, a).error, EnrollmentOutcome(w, a).refusal.value;
      RejectSteps(w, job, a, attempt, s.objects, s.clock, s.next);
      if attempt.Fault? {
        Ran(w, more, id, attempt, Stay(Drop(t.record), s.objects, s.next));
        Dropped(w, more + [Run(id, attempt)], id, job, t.record);
      } else {
        var rejection := Rejection(w, a, s.clock, s.next);
        assert rejection.record == t.record by { RejectionRecord(w, a, s.clock, s.next); }
        Ran(w, more, id, attempt,
            Effect(AwaitRejection(rejection, reason, refusal.signer), s.objects, s.next + 1, [Sent(rejection)]));
        more := more + [Run(id, attempt)];
        RejectionStep(w, job, rejection, reason, refusal.signer, delivery, s.objects, s.clock, s.next + 1);
        Ran(w, more, id, delivery, Stay(Drop(t.record), s.objects, s.next + 1));
        Dropped(w, more + [Run(id, delivery)], id, job, t.record);
      }
    }
  }

  /** The run adds these events, and the record is gone. */
  ghost predicate Leaves(w: World, s: State, actions: seq<Action>, t: Transmission, events: Log)
  {
    var s' := Exec(w, actions);
    s'.log == s.log + events && s'.objects == s.objects - {t.record.key}
  }

  lemma RejectionRecord(w: World, a: Answer, clock: int, next: nat)
    requires EnrollmentOutcome(w, a).Refuses? && EnrollmentOutcome(w, a).refusal.Some?
    ensures Rejection(w, a, clock, next).record == a.to.record
  {
    hide EnrollmentOutcome;
  }

  /** A reconcile awaits the answer to a message of its own. */
  lemma Awaited(w: World, actions: seq<Action>, id: nat)
    requires id in Exec(w, actions).workers && Exec(w, actions).workers[id].pc.AwaitEnrollment?
    ensures var worker := Exec(w, actions).workers[id];
            worker.pc.transmission.job == worker.job && worker.pc.transmission.record.key == worker.job.key
  {
    hide Step, Exec, Shape, Justified, FromSettings;
    Reachable(w, actions);
    var worker := Exec(w, actions).workers[id];
    assert WorkerOk(w, Exec(w, actions).log, worker.job, worker.pc);
  }
}
