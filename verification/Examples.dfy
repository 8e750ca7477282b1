/**
 Concrete runs: one issues a certificate and shows why "no message after issuance" needs serialized
 reconciles, one loses the record of a waiting answer and confirms again, and one is answered by an
 error message that reports success.
 */
module Examples {
  import opened Basics
  import opened Certificates
  import opened Protocol
  import opened Configuration
  import opened Workload
  import opened Store
  import opened Signer
  import opened History
  import opened System
  import opened Serial
  import opened Resumption
  import Paths

  // ----- An issuer with a shared secret and one anchor that certifies itself

  const TheKey := PublicKey(Rsa, 0)
  const Leaf := Certificate(1, [], [], TheKey, TheKey, true, None, [], 0, 1000)
  const TheIssuer := IssuerRef("issuer", CMPIssuer, "uid", 1)
  const TheSpec := IssuerSpec(ProtocolSpec(InitialP10CR, RenewalP10CR, FallbackNone), TransactionSpec(0, 0, 0, 0))
  const TheCsr := Csr(TheKey, [], [])
  const TheCodec := Codec((_: Bytes) => None, (_: Bytes) => None, (_: Bytes) => TheCsr)
  const TheJob := Job(SecretKey("namespace", "request"), 7, [], RequestMetadata("namespace", NoRevision, [], ""),
                      TheIssuer)
  const NoCluster := Cluster(map[], map[], {})
  const TheInput := Read(map[], NoCluster, NoCluster)

  function TheSettings(implicit: bool): Settings
  {
    Settings([], implicit, false, false, None, false, Password(0), [Leaf], [])
  }

  function TheWorld(implicit: bool): World
  {
    World((_: IssuerRef) => TheSpec, (_: IssuerRef, _: Fingerprints) => TheSettings(implicit), TheCodec, Paths.Search)
  }

  function Issuing(transactionId: nat, nonce: nat): Protocol.Response
  {
    Protocol.Response(true, true, {}, [], [[]], transactionId, Nonce(0), Nonce(nonce), 2, true,
      CertRepBody(P10CR, Some(CertRep([CertResponse(0, StatusInfo(Accepted, {}), Some(Der(Leaf)))], []))))
  }

  function Delaying(transactionId: nat, nonce: nat): Protocol.Response
  {
    Protocol.Response(true, true, {}, [], [[]], transactionId, Nonce(1), Nonce(nonce), 2, false,
                      ErrorBody(Some(StatusInfo(PkiStatus.Waiting, {}))))
  }

  /** A leaf that is itself an anchor is its own chain. */
  lemma AnchorIsItsChain(verify: Verifier, leaf: Certificate, candidates: seq<Certificate>, roots: seq<Certificate>,
                         now: int)
    requires Sound(verify) && leaf in roots && UsageOk(leaf) && leaf.notBefore <= now <= leaf.notAfter
    ensures ValidateAndOrderChain(verify, leaf, candidates, roots, now) == Some([leaf])
  {
    var pool := Without(candidates, leaf);
    hide Sound;
    VerifyChainIff(verify, leaf, roots, pool, now);
    assert ValidPath(leaf, roots, pool, now, [leaf]) && AllUsageOk([leaf]);
    var path := VerifyChain(verify, leaf, roots, pool, now).value;
    assert path == [leaf];
    assert TrimPath(leaf, path) == [leaf];
  }

  /** The enrollment message is answered with the certificate. */
  lemma Authenticating(implicit: bool, t: Transmission)
    requires t.using.request == BuildRequest(TheSettings(implicit), P10CR, None, TheCsr, t.message.transactionId)
    requires t.message.body == Enroll(P10CR) && t.message.version == 2 && t.message.senderNonce.Nonce?
    ensures var response := Issuing(t.message.transactionId, t.message.senderNonce.value);
            Receive(TheWorld(implicit), t, None, Input.Response(response), 0) ==
                Authenticated(Answer(t, response, None, None, 0))
  {
    hide TrustedSigner;
  }

  lemma Deciding(implicit: bool, a: Answer)
    requires a.to.using.request == BuildRequest(TheSettings(implicit), P10CR, None, TheCsr, a.to.message.transactionId)
    requires a.to.message.body == Enroll(P10CR) && a.at == 0 && a.signer.None? && exists id, nonce ::
               a.response == Issuing(id, nonce)
    ensures EnrollmentOutcome(TheWorld(implicit), a) ==
            if implicit then Completed([Leaf], 0)
                else AwaitsConfirmation([Leaf], PendingTransaction(0, Nonce(0), None, 0, NoNonce))
  {
    Paths.SearchIsSound();
    hide Sound, Paths.Search;
    AnchorIsItsChain(Paths.Search, Leaf, [], [Leaf], 0);
    assert ParseOnce([], []) == Some([]);
    hide ValidateAndOrderChain;
    assert Extract(a.response, a.to.using.request) == Ok(Certified(Leaf, [], 0, true, false));
    assert [] + a.to.using.request.responseCertificates == [];
  }

  /** A certConf of the record is answered waiting. */
  lemma Deferring(t: Transmission, pending: PendingTransaction)
    requires t.using.request == BuildRequest(TheSettings(false), P10CR, None, TheCsr, t.message.transactionId)
    requires t.message.body.CertConf? && t.message.version == 2 && t.message.senderNonce.Nonce?
             && pending.requestNonce.NoNonce?
    ensures var response := Delaying(t.message.transactionId, t.message.senderNonce.value);
            && Receive(TheWorld(false), t, None, Input.Response(response), 0) ==
                Authenticated(Answer(t, response, None, None, 0))
            && Confirm(response, t.message, pending) ==
               Ok(Some(PendingTransaction(pending.certReqId, Nonce(1), pending.signer, 0, t.message.senderNonce)))
  {
    hide TrustedSigner;
  }

  ghost function TheRecordSpec(implicit: bool): Spec
  {
    Spec(7, 1, Limits(TheWorld(implicit), TheIssuer).maximumDuration, Sha256([]), Some(TheIssuer),
         Digest(TheIssuer, Merge(map[], map[])),
         Some(P10CR), None)
  }

  const TheMessage := Message(1, Nonce(4), NoNonce, 2, Enroll(P10CR))

  function TheUsing(implicit: bool): Using
  {
    Using(BuildRequest(TheSettings(implicit), P10CR, None, TheCsr, 1), map[], map[])
  }

  /** The first message of the request, and the record it is sent from. */
  ghost predicate FirstMessage(implicit: bool, t: Transmission)
  {
    && t == Transmission(TheJob, t.record, ForEnrollment, TheMessage, TheUsing(implicit), 0)
    && t.record == Record(TheJob.key, 0, 3, TheRecordSpec(implicit), NewStatus.(phase := Enrolling))
  }

  lemma TheStart(implicit: bool) returns (t: Transmission)
    ensures var w := TheWorld(implicit);
            && CanStart(w, Exec(w, []), 1, TheJob, TheInput) && FirstMessage(implicit, t)
            && t == Started(w, TheJob, PlanFor(w, Exec(w, []), 1, TheJob, TheInput), 0, 0)
  {
    hide Digest;
    var w := TheWorld(implicit);
    t := Started(w, TheJob, PlanFor(w, Exec(w, []), 1, TheJob, TheInput), 0, 0);
  }

  /** The run in which the first reconcile has sent its message. */
  lemma TheFirstRun(implicit: bool) returns (actions: seq<Action>, t: Transmission)
    ensures FirstMessage(implicit, t) && t.record.spec.deadline >= 0
    ensures var s := Exec(TheWorld(implicit), actions);
            && s.objects == map[TheJob.key := t.record] && |s.log| == 3 && s.clock == 0 && s.next == 5
            && s.workers == map[1 := Worker(TheJob, AwaitEnrollment(t))]
  {
    var w := TheWorld(implicit);
    assert Limits(w, TheIssuer).maximumDuration >= 0;
    hide Step, Started, PlanFor, CanStart, BuildRequest, Digest, Limits;
    t := TheStart(implicit);
    var first := EnrollmentIsStarted(w, [], 1, TheJob, TheInput);
    actions := Start([], 1, TheJob, TheInput);
  }

  /** A reconcile of this request can resume what the first one recorded. */
  lemma TheResume(implicit: bool, s: State, id: nat, r: Record)
    requires id !in s.workers && s.objects == map[TheJob.key := r] && !r.status.phase.Issued? && s.clock == 0
    requires r.spec == TheRecordSpec(implicit)
    ensures CanResume(TheWorld(implicit), s, id, TheJob, r, TheInput)
            && Loaded(TheWorld(implicit), TheJob, r, TheInput, 0) == TheUsing(implicit)
  {
    assert Digest(TheIssuer, Merge(map[], map[])).ConfigurationDigest?;
    hide Digest;
  }

  lemma FirstAnswer(implicit: bool, t: Transmission, objects: Objects, next: nat) returns (a: Answer)
    requires t.using.request == BuildRequest(TheSettings(implicit), P10CR, None, TheCsr, t.message.transactionId)
    requires t.message.body == Enroll(P10CR) && t.message.version == 2 && t.message.senderNonce.Nonce?
    ensures a == Answer(t, Issuing(t.message.transactionId, t.message.senderNonce.value), None, None, 0)
    ensures Step(TheWorld(implicit), t.job, AwaitEnrollment(t), Input.Response(a.response), objects, 0, next) ==
            Effect(if implicit then StoreIssued(a, [Leaf])
                   else StoreConfirming(a, [Leaf], PendingTransaction(0, Nonce(0), None, 0, NoNonce)),
                   objects, next, [Answered(a)])
  {
    hide EnrollmentOutcome, VerifyResponse;
    Authenticating(implicit, t);
    a := Answer(t, Issuing(t.message.transactionId, t.message.senderNonce.value), None, None, 0);
    Deciding(implicit, a);
  }

  // ----- A message after issuance

  lemma IssuingSteps(w: World, a: Answer, objects: Objects, next: nat) returns (r: Record)
    requires a.to.purpose.ForEnrollment? && CanUpdate(objects, a.to.record)
    ensures r == Updated(a.to.record, IssuedStatus(a.to.record.status, [Leaf]), next)
    ensures Step(w, a.to.job, StoreIssued(a, [Leaf]), Proceed, objects, 0, next) ==
            Effect(Return(r, [Leaf]), objects[a.to.record.key := r], next + 1, [Stored(r)])
    ensures Step(w, a.to.job, Return(r, [Leaf]), Proceed, objects[a.to.record.key := r], 0, next + 1) ==
            Effect(Done, objects[a.to.record.key := r], next + 1, [Returned(a.to.job, r, [Leaf])])
  {
    r := Updated(a.to.record, IssuedStatus(a.to.record.status, [Leaf]), next);
  }

  /** The first replica records and sends, the second reads the record. */
  lemma TwoReplicas() returns (actions: seq<Action>, t: Transmission, using: Using)
    ensures FirstMessage(true, t) && t.record.spec.deadline >= 0
    ensures var s := Exec(TheWorld(true), actions);
            && s.objects == map[TheJob.key := t.record] && |s.log| == 3 && s.clock == 0 && s.next == 5
            && s.workers == map[1 := Worker(TheJob, AwaitEnrollment(t)), 2 := Worker(TheJob, Exchange(t.record, using))]
  {
    hide Exec, CanResume, BuildRequest, Digest, Limits, Loaded;
    actions, t := TheFirstRun(true);
    TheResume(true, Exec(TheWorld(true), actions), 2, t.record);
    using := Reopened(TheWorld(true), actions, 2, TheJob, t.record, TheInput);
    actions := Reopen(actions, 2, TheJob, TheInput);
  }

  /** The first replica issues and returns, then the second sends. */
  lemma RacingRun() returns (actions: seq<Action>, t: Transmission, r: Record)
    ensures var log := Exec(TheWorld(true), actions).log;
            && |log| == 7 && log[4] == Stored(r) && r.status.phase.Issued? && log[5] == Returned(TheJob, r, [Leaf])
            && log[6] == Sent(t) && t.record.uid == r.uid
  {
    hide Step, Exec, BuildRequest, Limits, Digest;
    var w := TheWorld(true);
    var using: Using;
    actions, t, using := TwoReplicas();
    var objects := Exec(w, actions).objects;
    var a := FirstAnswer(true, t, objects, 5);
    r := IssuingSteps(w, a, objects, 5);
    Ran(w, actions, 1, Input.Response(a.response), Effect(StoreIssued(a, [Leaf]), objects, 5, [Answered(a)]));
    actions := actions + [Run(1, Input.Response(a.response))];
    objects := objects[TheJob.key := r];
    Ran(w, actions, 1, Proceed, Effect(Return(r, [Leaf]), objects, 6, [Stored(r)]));
    actions := actions + [Run(1, Proceed)];
    Ran(w, actions, 1, Proceed, Effect(Done, objects, 6, [Returned(TheJob, r, [Leaf])]));
    actions := actions + [Run(1, Proceed)];
    Resumption.ExchangeStep(w, TheJob, t.record, using, objects, 0, 6);
    t := Transmission(TheJob, t.record, ForEnrollment, EnrollMessage(using.request, 6), using, 0);
    Ran(w, actions, 2, Proceed, Effect(AwaitEnrollment(t), objects, 7, [Sent(t)]));
    actions := actions + [Run(2, Proceed)];
  }

  /** Without serialization a message can follow issuance, in a world whose verifier is sound. */
  lemma RacingReplicaSendsAfterIssued()
    ensures Sound(TheWorld(true).verify)
    ensures exists actions ::
              && SendsAfterIssued(Exec(TheWorld(true), actions).log) && !Serialized(TheWorld(true), actions)
              && exists e :: e in Exec(TheWorld(true), actions).log && e.Returned?
  {
    Paths.SearchIsSound();
    hide Sound, Exec, Serialized;
    var actions, t, r := RacingRun();
    var log := Exec(TheWorld(true), actions).log;
    assert SendsAfterIssued(log) by { assert log[4] == Stored(r) && log[6] == Sent(t); }
    assert log[5] in log && log[5].Returned?;
    if Serialized(TheWorld(true), actions) {
      NoMessageAfterIssued(TheWorld(true), actions, 4, 6);
      assert false;
    }
  }

  // ----- A waiting answer whose write is lost

  const Outstanding := PendingTransaction(0, Nonce(0), None, 0, NoNonce)

  function Confirmed(t: Transmission): Record
  {
    Updated(t.record, ConfirmingStatus(t.record.status, [Leaf], Outstanding), 5)
  }

  function CertConfOf(t: Transmission): Transmission
  {
    Transmission(TheJob, Confirmed(t), ForConfirmation,
                 ConfirmationMessage(t.using.request, 6, Leaf, Outstanding, false), t.using, 0)
  }

  lemma ConfirmingSteps(t: Transmission, a: Answer)
    requires a.to == t && FirstMessage(false, t) && t.record.spec.deadline >= 0
    ensures var w, stored := TheWorld(false), map[TheJob.key := Confirmed(t)];
            && Step(w, TheJob, StoreConfirming(a, [Leaf], Outstanding), Proceed, map[TheJob.key := t.record], 0, 5) ==
               Effect(SendConfirmation(Confirmed(t), t.using, [Leaf], Outstanding), stored, 6, [Stored(Confirmed(t))])
            && Step(w, TheJob, SendConfirmation(Confirmed(t), t.using, [Leaf], Outstanding), Proceed, stored, 0, 6) ==
               Effect(AwaitConfirmation(CertConfOf(t), [Leaf], Outstanding), stored, 7, [Sent(CertConfOf(t))])
  {
    hide Digest;
    assert map[TheJob.key := t.record][TheJob.key := Confirmed(t)] == map[TheJob.key := Confirmed(t)];
  }

  lemma DeferringSteps(t: Transmission, objects: Objects) returns (b: Answer, again: PendingTransaction)
    requires t.using.request == BuildRequest(TheSettings(false), P10CR, None, TheCsr, 1)
    ensures b == Answer(CertConfOf(t), Delaying(1, 6), None, None, 0)
    ensures var w := TheWorld(false);
            && Step(w, TheJob, AwaitConfirmation(CertConfOf(t), [Leaf], Outstanding), Input.Response(b.response),
                    objects, 0, 7) ==
               Effect(StoreConfirming(b, [Leaf], again), objects, 7, [Answered(b)])
            && Step(w, TheJob, StoreConfirming(b, [Leaf], again), Fault, objects, 0, 7) == Stay(Done, objects, 7)
  {
    Deferring(CertConfOf(t), Outstanding);
    hide VerifyResponse, Confirm;
    b := Answer(CertConfOf(t), Delaying(1, 6), None, None, 0);
    again := PendingTransaction(0, Nonce(1), None, 0, Nonce(6));
  }

  /** The certificate is recorded and certConf sent. */
  lemma ConfirmingRun() returns (actions: seq<Action>, t: Transmission)
    ensures FirstMessage(false, t) && t.record.spec.deadline >= 0
    ensures var s := Exec(TheWorld(false), actions);
            && s.objects == map[TheJob.key := Confirmed(t)] && s.clock == 0 && s.next == 7
            && s.workers == map[1 := Worker(TheJob, AwaitConfirmation(CertConfOf(t), [Leaf], Outstanding))]
            && |s.log| == 6 && s.log[5] == Sent(CertConfOf(t))
  {
    hide Step, Exec, BuildRequest, Digest, Limits, Confirmed, CertConfOf;
    var w := TheWorld(false);
    actions, t := TheFirstRun(false);
    var stored := map[TheJob.key := Confirmed(t)];
    var a := FirstAnswer(false, t, map[TheJob.key := t.record], 5);
    ConfirmingSteps(t, a);
    Ran(w, actions, 1, Input.Response(a.response),
        Effect(StoreConfirming(a, [Leaf], Outstanding), map[TheJob.key := t.record], 5, [Answered(a)]));
    actions := actions + [Run(1, Input.Response(a.response))];
    Ran(w, actions, 1, Proceed, Effect(SendConfirmation(Confirmed(t), t.using, [Leaf], Outstanding), stored, 6,
                                       [Stored(Confirmed(t))]));
    actions := actions + [Run(1, Proceed)];
    Ran(w, actions, 1, Proceed, Effect(AwaitConfirmation(CertConfOf(t), [Leaf], Outstanding), stored, 7,
                                       [Sent(CertConfOf(t))]));
    actions := actions + [Run(1, Proceed)];
  }

  /** certConf is answered waiting, and the write that would record it fails. */
  lemma LosingRun() returns (actions: seq<Action>, t: Transmission)
    ensures FirstMessage(false, t) && t.record.spec.deadline >= 0
    ensures var s := Exec(TheWorld(false), actions);
            && s.objects == map[TheJob.key := Confirmed(t)] && s.clock == 0 && s.workers == map[]
            && |s.log| == 7 && s.log[5] == Sent(CertConfOf(t))
            && s.log[6] == Answered(Answer(CertConfOf(t), Delaying(1, 6), None, None, 0))
  {
    hide Step, Exec, BuildRequest, Digest, Limits, Confirmed, CertConfOf;
    var w := TheWorld(false);
    actions, t := ConfirmingRun();
    var stored := map[TheJob.key := Confirmed(t)];
    var b, again := DeferringSteps(t, stored);
    Ran(w, actions, 1, Input.Response(b.response), Effect(StoreConfirming(b, [Leaf], again), stored, 7, [Answered(b)]));
    actions := actions + [Run(1, Input.Response(b.response))];
    Ran(w, actions, 1, Fault, Stay(Done, stored, 7));
    actions := actions + [Run(1, Fault)];
  }

  /** A certConf is answered waiting and certConf is sent again, for the same record version. */
  ghost predicate ConfirmsAgain(log: Log)
  {
    exists i, j, k ::
      && 0 <= i < j < k < |log| && log[i].Sent? && log[j].Answered? && log[k].Sent?
      && log[j].answer.to == log[i].transmission && DelaysConfirmation(log[j].answer.response)
      && log[i].transmission.message.body.CertConf? && !log[i].transmission.message.body.rejected
      && log[k].transmission.message.body == log[i].transmission.message.body
      && log[k].transmission.record == log[i].transmission.record
  }

  /**
   When the write after a waiting answer is lost, the next reconcile does not poll but sends certConf a
   second time.
   */
  lemma LostWaitRepeatsCertConf()
    ensures Sound(TheWorld(false).verify)
    ensures exists actions :: ConfirmsAgain(Exec(TheWorld(false), actions).log)
  {
    Paths.SearchIsSound();
    hide Sound, CanResume, Exec, Reopen, Retrusted, Loaded, BuildRequest, Digest;
    var w := TheWorld(false);
    var actions, t := LosingRun();
    var s, r := Exec(w, actions), Confirmed(t);
    TheResume(false, s, 1, r);
    TheTrust(r);
    assert CanConfirm(w, r, 0);
    var again := ConfirmationIsResumed(w, actions, 1, TheJob, r, TheInput);
    var log := Exec(w, Reopen(actions, 1, TheJob, TheInput) + [Run(1, Proceed)] + [Run(1, Proceed)]).log;
    assert log[5] == Sent(CertConfOf(t)) && log[6] == s.log[6] && log[7] == Sent(again);
    assert ConfirmsAgain(log);
  }

  lemma TheTrust(r: Record)
    requires r.status.chain == [Leaf]
    ensures Retrusted(TheWorld(false), TheJob, r, TheUsing(false), 0).Ok?
  {
    Paths.SearchIsSound();
    hide Sound, Paths.Search;
    AnchorIsItsChain(Paths.Search, Leaf, [Leaf][1..] + ([Leaf] + []), [Leaf], 0);
    hide ValidateAndOrderChain;
  }

  // ----- An error message that reports success

  function Succeeding(transactionId: nat, nonce: nat): Protocol.Response
  {
    Protocol.Response(true, true, {}, [], [[]], transactionId, Nonce(1), Nonce(nonce), 2, false,
                      ErrorBody(Some(StatusInfo(Accepted, {}))))
  }

  lemma PanickingStep(t: Transmission, objects: Objects, next: nat) returns (a: Answer)
    requires t.using.request == BuildRequest(TheSettings(false), P10CR, None, TheCsr, t.message.transactionId)
    requires t.message.body == Enroll(P10CR) && t.message.version == 2 && t.message.senderNonce.Nonce?
    ensures a == Answer(t, Succeeding(t.message.transactionId, t.message.senderNonce.value), None, None, 0)
    ensures EnrollmentOutcome(TheWorld(false), a).Panics?
    ensures Step(TheWorld(false), t.job, AwaitEnrollment(t), Input.Response(a.response), objects, 0, next) ==
            Effect(Done, objects, next, [Answered(a)])
  {
    hide TrustedSigner;
    a := Answer(t, Succeeding(t.message.transactionId, t.message.senderNonce.value), None, None, 0);
    assert Receive(TheWorld(false), t, None, Input.Response(a.response), 0) == Authenticated(a);
    PanicsIff(TheWorld(false).verify, 0, t.using.request, a.response, None, EnrollmentNonce(t));
    hide VerifyResponse, Finish;
  }

  /** An authentic answer to an enrollment message makes the code dereference a missing certificate. */
  ghost predicate Panicked(w: World, log: Log)
  {
    exists i ::
      && 0 <= i < |log| && log[i].Answered? && log[i].answer.to.purpose.ForEnrollment?
      && EnrollmentOutcome(w, log[i].answer).Panics?
  }

  /** The missing certificate is reached in a run, in a world whose verifier is sound. */
  lemma SuccessInErrorMessagePanics()
    ensures Sound(TheWorld(false).verify)
    ensures exists actions :: Panicked(TheWorld(false), Exec(TheWorld(false), actions).log)
  {
    Paths.SearchIsSound();
    hide Sound, Step, Exec, BuildRequest, EnrollmentOutcome, Limits, Digest;
    var w := TheWorld(false);
    var actions, t := TheFirstRun(false);
    var s := Exec(w, actions);
    var a := PanickingStep(t, s.objects, 5);
    Ran(w, actions, 1, Input.Response(a.response), Effect(Done, s.objects, 5, [Answered(a)]));
    var log := Exec(w, actions + [Run(1, Input.Response(a.response))]).log;
    assert log[3] == Answered(a);
    assert Panicked(w, log);
  }
}
