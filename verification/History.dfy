/**
 What a history of events may look like. Each event is justified by the events before it: nothing is
 sent that is not backed by a stored record, nothing is stored that an authenticated answer does not
 explain. Every reachable history is justified (module System); what that means for a whole
 transaction is proved from justification alone (module Theorems).
 */
module History {
  import opened Basics
  import opened Certificates
  import opened Protocol
  import opened Configuration
  import opened Workload
  import opened Store
  import opened Signer

  type Log = seq<Event>

  // ----- Records

  ghost predicate SameObject(p: Record, r: Record) { p.key == r.key && p.uid == r.uid && p.spec == r.spec }

  /** r is the newest version of its object. */
  ghost predicate Latest(past: Log, r: Record)
  {
    forall q :: Stored(q) in past && q.uid == r.uid ==> q.version <= r.version
  }

  ghost predicate Gone(past: Log, uid: nat) { exists e :: e in past && e.Removed? && e.record.uid == uid }

  /**
   The record a reconcile of this job creates: bound to its request, CSR and issuer, and to an operation
   the issuer allows.
   */
  ghost predicate CreatedBy(w: World, job: Job, r: Record)
  {
    var protocol := w.spec(job.issuer).protocol;
    var selected := SelectedOperation(protocol, job.metadata.revision);
    && r.key == job.key && r.spec.requestUid == job.uid && r.spec.csrDigest == Sha256(job.csr)
    && r.spec.issuer == Some(job.issuer)
    && r.spec.configurationDigest.ConfigurationDigest? && selected.Some? && UsableLimits(Limits(w, job.issuer))
    && (if r.spec.fallback.Some? then selected == Some(KUR) && FallbackOperation(protocol).Some?
        && r.spec.operation == FallbackOperation(protocol)
        else r.spec.operation == selected)
  }

  /** A new object: a name that is free, identifiers that are new. */
  ghost predicate CreationOk(w: World, past: Log, r: Record)
  {
    && r.status == NewStatus && (exists job :: CreatedBy(w, job, r))
    && forall q :: Stored(q) in past ==>
         && q.uid != r.uid && q.version < r.version && q.spec.transactionId != r.spec.transactionId
         && (q.key == r.key ==> Gone(past, q.uid))
  }

  /**
   A status write on the newest version of a live object, explained by an answer to a message sent from
   that version.
   */
  ghost predicate UpdateOk(w: World, past: Log, p: Record, r: Record)
  {
    && Stored(p) in past && SameObject(p, r) && Latest(past, p) && !Gone(past, p.uid)
    && (forall q :: Stored(q) in past ==> q.version < r.version)
    && ((p.status == NewStatus && r.status == NewStatus.(phase := Enrolling)) ||
        exists a :: Answered(a) in past && a.to.record == p && Explains(w, a, p.status, r.status))
  }

  ghost predicate StoredOk(w: World, past: Log, r: Record)
  {
    CreationOk(w, past, r) || exists p :: UpdateOk(w, past, p, r)
  }

  // ----- What an answer changes

  function Retain(signer: Option<Certificate>, earlier: Option<Certificate>): Option<Certificate>
  {
    if signer.Some? then signer else earlier
  }

  function PollCost(t: Transmission): nat { if t.message.body.PollReq? then 1 else 0 }

  ghost predicate SingleEntry(response: Protocol.Response, certReqId: int)
  {
    && response.body.PollRepBody? && response.body.entries.Some? && |response.body.entries.value| == 1
    && response.body.entries.value[0].certReqId == certReqId && response.body.entries.value[0].checkAfter >= 0
  }

  /** The server has not decided: a waiting answer, or a pollRep for the polled request. */
  ghost predicate Undecides(a: Answer, certReqId: int)
  {
    || Defers(a.response, a.to.using.request, certReqId)
    || (a.to.message.body == PollReq(certReqId) && SingleEntry(a.response, certReqId))
  }

  /** The server delays pkiConf: an error message with status waiting, or a pollRep for the whole message. */
  ghost predicate DelaysConfirmation(response: Protocol.Response)
  {
    || (response.body.ErrorBody? && response.body.status.Some? && response.body.status.value.status.Waiting?)
    || SingleEntry(response, StandardCertReqId)
  }

  ghost predicate EnrollmentDeferred(a: Answer, before: Store.Status, after: Store.Status)
  {
    && a.to.purpose.ForEnrollment? && after.certReqId.Some? && Undecides(a, after.certReqId.value)
    && after == before.(phase := Polling, recipNonce := a.response.senderNonce, requestNonce := EnrollmentNonce(a.to),
                        certReqId := after.certReqId, responseSigner := Retain(a.signer, before.responseSigner),
                        polls := before.polls + PollCost(a.to))
  }

  ghost predicate CertificateDelivered(w: World, a: Answer, before: Store.Status, after: Store.Status)
  {
    && a.to.purpose.ForEnrollment? && after.certReqId.Some? && after.chain != []
    && Delivers(a.response, a.to.using.request, after.chain[0], after.certReqId.value)
    && EnrollmentOutcome(w, a).AwaitsConfirmation? && EnrollmentOutcome(w, a).chain == after.chain
    && after == before.(phase := Confirming, chain := after.chain, recipNonce := a.response.senderNonce,
                        requestNonce := NoNonce,
                        certReqId := after.certReqId, responseSigner := Retain(a.signer, before.responseSigner))
  }

  ghost predicate CertificateCompleted(w: World, a: Answer, before: Store.Status, after: Store.Status)
  {
    && a.to.purpose.ForEnrollment? && after.chain != []
    && EnrollmentOutcome(w, a).Completed? && EnrollmentOutcome(w, a).chain == after.chain
    && Delivers(a.response, a.to.using.request, after.chain[0], EnrollmentOutcome(w, a).certReqId)
    && after == before.(phase := Issued, chain := after.chain)
  }

  ghost predicate SameLeaf(before: Store.Status, after: Store.Status)
  {
    before.chain != [] && after.chain != [] && before.chain[0] == after.chain[0]
  }

  ghost predicate ConfirmationDeferred(a: Answer, before: Store.Status, after: Store.Status)
  {
    && a.to.purpose.ForConfirmation? && DelaysConfirmation(a.response) && SameLeaf(before, after)
    && after == before.(chain := after.chain, recipNonce := a.response.senderNonce,
                        requestNonce := EnrollmentNonce(a.to), polls := before.polls + PollCost(a.to))
  }

  ghost predicate ConfirmationCompleted(a: Answer, before: Store.Status, after: Store.Status)
  {
    && a.to.purpose.ForConfirmation? && a.response.body.PkiConf? && SameLeaf(before, after)
    && after == before.(phase := Issued, chain := after.chain)
  }

  ghost predicate Explains(w: World, a: Answer, before: Store.Status, after: Store.Status)
  {
    || EnrollmentDeferred(a, before, after)
    || CertificateDelivered(w, a, before, after)
    || CertificateCompleted(w, a, before, after)
    || ConfirmationDeferred(a, before, after)
    || ConfirmationCompleted(a, before, after)
  }

  // ----- Messages

  /** The certificate a KUR updates is pinned by its Secret's fingerprint, the only one over two entries. */
  ghost predicate TwoEntries(workload: Fingerprints, k: SecretKey)
  {
    k in workload && workload[k].data.DataDigest? && |workload[k].data.entries| == 2
  }

  ghost predicate PinnedProtection(codec: Codec, workload: Fingerprints, certificate: Certificate)
  {
    exists k ::
      && TwoEntries(workload, k) && (forall j :: TwoEntries(workload, j) ==> j == k)
      && var parsed := codec.certificates(workload[k].data.entries[0].1);
         parsed.Some? && parsed.value != [] && parsed.value[0] == certificate
  }

  /** The request is what the issuer's spec and the Secret versions say, for this operation. */
  ghost predicate FromSettings(w: World, issuer: IssuerRef, operation: Operation, using: Using)
  {
    var s, r := w.settings(issuer, using.credentials), using.request;
    && Credentials(using.credentials) && Configuration.Workload(using.workload)
    && r.operation == operation && r.recipient == s.recipient && r.implicitConfirm == s.implicitConfirm
    && r.rejectGrantedMods == s.rejectGrantedMods && r.allowSignedMacResponse == s.allowSignedMacResponse
    && r.pinnedCertReqId == (if operation.P10CR? then s.pinnedCertReqId else None)
    && r.requireKupCaPubsAbsent == s.requireKupCaPubsAbsent && r.anchors == s.anchors
    && r.responseCertificates == s.responseCertificates
    && (if operation.KUR? then r.protection.Signature?
        && PinnedProtection(w.codec, using.workload, r.protection.certificate)
        else r.protection == s.protection)
  }

  /** The reconcile, the record version it holds and the configuration it loaded belong together. */
  ghost predicate Bound(w: World, past: Log, job: Job, record: Record, using: Using)
  {
    && Stored(record) in past
    && record.key == job.key && record.spec.requestUid == job.uid
    && record.spec.csrDigest == Sha256(job.csr) && record.spec.issuer == Some(job.issuer) && record.spec.operation.Some?
    && using.request.transactionId == record.spec.transactionId && using.request.csrKey == CsrOf(w, job).key
    && FromSettings(w, job.issuer, record.spec.operation.value, using)
    && record.spec.configurationDigest == Digest(job.issuer, Merge(using.credentials, using.workload))
    && UsableLimits(Limits(w, job.issuer))
  }

  ghost predicate EnrollmentSent(w: World, t: Transmission)
  {
    var s := t.record.status;
    && t.message.version == 2
    && (if t.message.body.PollReq? then
          && s.phase.Polling? && s.certReqId == Some(t.message.body.certReqId)
          && t.message.recipNonce == s.recipNonce
          && s.polls < Limits(w, t.job.issuer).maximumPolls
        else
          && (s.phase.Unset? || s.phase.Enrolling?)
          && t.record.spec.operation.Some? && t.message.recipNonce.NoNonce?
          && t.message.body == Enroll(t.record.spec.operation.value))
  }

  ghost predicate ConfirmationSent(w: World, t: Transmission)
  {
    var s := t.record.status;
    && s.phase.Confirming? && s.chain != [] && s.certReqId.Some? && t.message.recipNonce == s.recipNonce
    && s.polls < Limits(w, t.job.issuer).maximumPolls
    && t.message.version == (if s.chain[0].signer.algorithm.MlDsa? then 3 else 2)
    && t.message.body == (if s.requestNonce.Nonce? then PollReq(StandardCertReqId)
                          else CertConf(s.chain[0], s.certReqId.value, false))
  }

  /**
   A rejecting certConf names a certificate that was refused when an answer to this record's enrollment
   delivered it.
   */
  ghost predicate RejectionSent(w: World, past: Log, t: Transmission)
  {
    exists a ::
      && Answered(a) in past && a.to.purpose.ForEnrollment? && a.to.record == t.record
      && Refused(w, a, t.message)
  }

  ghost predicate Refused(w: World, a: Answer, message: Message)
  {
    var outcome := EnrollmentOutcome(w, a);
    && outcome.Refuses? && outcome.refusal.Some? && message.recipNonce == outcome.refusal.value.recipNonce
    && message.body == CertConf(outcome.refusal.value.certificate, outcome.refusal.value.certReqId, true)
    && message.version == (if outcome.refusal.value.certificate.signer.algorithm.MlDsa? then 3 else 2)
  }

  ghost predicate SentOk(w: World, past: Log, t: Transmission)
  {
    && Bound(w, past, t.job, t.record, t.using)
    && t.message.transactionId == t.record.spec.transactionId && t.message.senderNonce.Nonce?
    && (!t.purpose.ForRejection? ==> t.at <= t.record.spec.deadline)
    && match t.purpose
       case ForEnrollment => EnrollmentSent(w, t)
       case ForConfirmation => ConfirmationSent(w, t)
       case ForRejection => RejectionSent(w, past, t)
  }

  ghost predicate AnsweredOk(w: World, past: Log, a: Answer)
  {
    && Sent(a.to) in past && !a.to.purpose.ForRejection?
    && VerifyResponse(w.verify, a.at, a.to.message, a.response, a.to.using.request, a.previous, Delayed(a.to)) ==
        Ok(a.signer)
    && (a.previous.None? || a.previous == a.to.record.status.responseSigner)
  }

  // ----- Ends of reconciles and records

  ghost predicate ReturnedOk(past: Log, job: Job, r: Record, chain: Path)
  {
    && Stored(r) in past && r.status.phase.Issued? && r.key == job.key && r.spec.requestUid == job.uid
    && r.spec.csrDigest == Sha256(job.csr)
    && chain != [] && r.status.chain != [] && chain[0] == r.status.chain[0]
  }

  ghost predicate RequeuedOk(w: World, past: Log, r: Record, delay: int, at: int)
  {
    && Stored(r) in past && r.spec.issuer.Some?
    && 0 < delay <= Limits(w, r.spec.issuer.value).maximumPollInterval
    && (at < r.spec.deadline ==> delay <= r.spec.deadline - at)
  }

  /** Only the object that was read is removed, in its newest version, and only once. */
  ghost predicate RemovedOk(past: Log, r: Record, cause: Cause)
  {
    && Stored(r) in past && Latest(past, r) && !Gone(past, r.uid)
    && match cause
       case Failed(job, intended) => Stored(intended) in past && intended.uid == r.uid && r.key == job.key
       && r.spec.requestUid == job.uid
       case Stale(job, intended) => Stored(intended) in past && intended.uid == r.uid && r.key == job.key
       && r.spec.requestUid != job.uid
       case Collected => true
  }

  ghost predicate EventOk(w: World, past: Log, e: Event)
  {
    match e
    case Stored(r) => StoredOk(w, past, r)
    case Removed(r, cause) => RemovedOk(past, r, cause)
    case Sent(t) => SentOk(w, past, t)
    case Answered(a) => AnsweredOk(w, past, a)
    case Returned(job, r, chain) => ReturnedOk(past, job, r, chain)
    case Requeued(r, delay, at) => RequeuedOk(w, past, r, delay, at)
  }

  ghost predicate Justified(w: World, log: Log)
  {
    forall i :: 0 <= i < |log| ==> EventOk(w, log[..i], log[i])
  }

  lemma JustifiedAppend(w: World, log: Log, e: Event)
    requires Justified(w, log) && EventOk(w, log, e)
    ensures Justified(w, log + [e])
  {
    forall i | 0 <= i < |log + [e]| ensures EventOk(w, (log + [e])[..i], (log + [e])[i]) {
      if i < |log| {
        assert (log + [e])[..i] == log[..i];
      } else {
        assert (log + [e])[..i] == log;
      }
    }
  }

  lemma JustifiedPrefix(w: World, log: Log, n: nat)
    requires Justified(w, log) && n <= |log|
    ensures Justified(w, log[..n])
  {
    forall i | 0 <= i < n ensures EventOk(w, log[..n][..i], log[..n][i]) {
      assert log[..n][..i] == log[..i];
    }
  }

  // ----- Facts about past events stay true

  lemma SentStays(w: World, past: Log, log: Log, t: Transmission)
    requires past <= log && SentOk(w, past, t)
    ensures SentOk(w, log, t)
  {
    assert forall e :: e in past ==> e in log;
  }

  lemma SentFacts(w: World, log: Log, t: Transmission)
    requires Justified(w, log) && Sent(t) in log
    ensures SentOk(w, log, t)
  {
    var i :| 0 <= i < |log| && log[i] == Sent(t);
    assert EventOk(w, log[..i], log[i]);
    SentStays(w, log[..i], log, t);
  }

  lemma AnsweredFacts(w: World, log: Log, a: Answer)
    requires Justified(w, log) && Answered(a) in log
    ensures AnsweredOk(w, log, a) && SentOk(w, log, a.to)
  {
    var i :| 0 <= i < |log| && log[i] == Answered(a);
    assert EventOk(w, log[..i], log[i]);
    assert forall e :: e in log[..i] ==> e in log;
    SentFacts(w, log, a.to);
  }
}
