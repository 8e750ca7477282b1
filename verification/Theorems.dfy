/**
 What holds in every run: any number of replicas, a crash between any two actions, an adversarial
 network, rotating Secrets, changing issuers, requests recreated under the same name.
 */
module Theorems {
  import opened Basics
  import opened Certificates
  import opened Protocol
  import opened Configuration
  import opened Workload
  import opened Store
  import opened Signer
  import opened History
  import opened Invariant
  import opened Lifetime
  import opened System

  /** The history of some run. */
  ghost predicate OfRun(w: World, log: Log) { exists actions :: Exec(w, actions).log == log }

  lemma RunsAreLawful(w: World, log: Log)
    requires OfRun(w, log)
    ensures Lawful(w, log)
  {
    hide Justified, Step, WorkerOk, Apply, Exec;
    var actions :| Exec(w, actions).log == log;
    Reachable(w, actions);
  }

  lemma Sending(w: World, log: Log, i: nat)
    requires OfRun(w, log) && i < |log| && log[i].Sent?
    ensures SentOk(w, log[..i], log[i].transmission) && Lawful(w, log[..i])
  {
    hide OfRun;
    RunsAreLawful(w, log);
    LawfulPrefix(w, log, i);
    assert EventOk(w, log[..i], log[i]);
  }

  /** An earlier event of the history. */
  lemma EarlierStored(past: Log, r: Record) returns (j: nat)
    requires Stored(r) in past
    ensures j < |past| && past[j] == Stored(r)
  {
    j :| 0 <= j < |past| && past[j] == Stored(r);
  }

  // ----- Write-ahead and single ID

  /** Every message carries the transaction ID of a record stored, for the request it is sent for, before the send. */
  lemma WriteAhead(w: World, log: Log, i: nat)
    requires OfRun(w, log) && i < |log| && log[i].Sent?
    ensures var t := log[i].transmission;
            && (exists j :: 0 <= j < i && log[j] == Stored(t.record))
            && t.record.key == t.job.key && t.record.spec.requestUid == t.job.uid
            && t.message.transactionId == t.record.spec.transactionId
  {
    hide OfRun, Lawful;
    var t := log[i].transmission;
    Sending(w, log, i);
    var j := EarlierStored(log[..i], t.record);
    assert log[j] == Stored(t.record);
  }

  /**
   Records do not share IDs and a record has only one: a message carries a record's ID exactly when it
   was sent for that record.
   */
  lemma SingleId(w: World, log: Log, i: nat, r: Record)
    requires OfRun(w, log) && i < |log| && log[i].Sent? && Stored(r) in log
    ensures log[i].transmission.message.transactionId == r.spec.transactionId <==>
              log[i].transmission.record.uid == r.uid
    ensures log[i].transmission.message.transactionId == r.spec.transactionId ==>
              r.spec.requestUid == log[i].transmission.job.uid
  {
    var t := log[i].transmission;
    WriteAhead(w, log, i);
    hide OfRun, SameObject;
    RunsAreLawful(w, log);
    hide Justified;
    var j :| 0 <= j < i && log[j] == Stored(t.record);
    var k := EarlierStored(log, r);
    if t.record.uid == r.uid {
      assert SameObject(t.record, r);
      SameSpec(t.record, r);
    } else if j < k {
      ObjectsApart(w, log, j, k);
    } else {
      ObjectsApart(w, log, k, j);
    }
  }

  lemma SameSpec(p: Record, r: Record)
    requires SameObject(p, r)
    ensures p.spec == r.spec && p.key == r.key
  {
  }

  /** The create or the first status write of this reconcile fails, or comes too late. */
  ghost predicate Loses(s: State, id: nat, input: Input)
  {
    && id in s.workers
    && match s.workers[id].pc
       case Create(_) => input.Fault? || s.workers[id].job.key in s.objects
       case MarkEnrolling(r, _) => input.Fault? || !CanUpdate(s.objects, r)
       case _ => false
  }

  /** Losing ends the reconcile; winning stores a version and sends nothing yet. */
  lemma RaceStep(w: World, s: State, id: nat, input: Input)
    requires id in s.workers && (s.workers[id].pc.Create? || s.workers[id].pc.MarkEnrolling?)
    ensures var s' := Apply(w, s, Run(id, input));
            if Loses(s, id, input) then s' == s.(workers := s.workers - {id})
            else id in s'.workers && |s'.log| == |s.log| + 1 && s'.log[|s.log|].Stored?
  {
    assert s.log + [] == s.log;
  }

  /**
   A reconcile that loses the create race, or the first status write, adds nothing to any later history:
   the run goes on, in every respect, as if it had crashed before and its steps were left out.
   */
  lemma LosersSendNothing(w: World, actions: seq<Action>, id: nat, input: Input, more: seq<Action>)
    requires Loses(Exec(w, actions), id, input)
    ensures Exec(w, actions + [Run(id, input)]).log == Exec(w, actions).log
    ensures Exec(w, actions + [Run(id, input)] + more) == Exec(w, actions + [Crash(id)] + Erase(more, id))
  {
    RaceStep(w, Exec(w, actions), id, input);
    hide Step;
    var lost, crashed := actions + [Run(id, input)], actions + [Crash(id)];
    assert lost[..|actions|] == actions && crashed[..|actions|] == actions;
    assert Exec(w, lost) == Exec(w, crashed);
    EndedIsSilent(w, lost, more, id);
    SameContinuation(w, lost, crashed, Erase(more, id));
  }

  // ----- Phases

  /**
   Phases never go back, an issued version is the last, and from the first Confirming write the leaf,
   its id and its nonce stay.
   */
  lemma PhasesOnlyAdvance(w: World, log: Log, i: nat, j: nat)
    requires OfRun(w, log) && i < j < |log| && log[i].Stored? && log[j].Stored?
             && log[i].record.uid == log[j].record.uid
    ensures Advances(log[i].record.status, log[j].record.status)
  {
    hide OfRun, Lawful, Advances;
    RunsAreLawful(w, log);
    VersionsInOrder(w, log, i, j);
    LaterAdvances(w, log, log[i].record, log[j].record);
  }

  // ----- Durable before confirmed, durable before returned

  ghost predicate ConfirmsOrPolls(t: Transmission)
  {
    t.purpose.ForConfirmation? || (t.message.body.CertConf? && !t.message.body.rejected)
  }

  /**
   An accepting certConf, or a poll for its answer, is sent only for a leaf and id already stored in a
   Confirming record.
   */
  lemma ConfirmedIsDurable(w: World, log: Log, i: nat)
    requires OfRun(w, log) && i < |log| && log[i].Sent? && ConfirmsOrPolls(log[i].transmission)
    ensures var t := log[i].transmission;
            var s := t.record.status;
            && (exists j :: 0 <= j < i && log[j] == Stored(t.record))
            && s.phase.Confirming? && s.chain != [] && s.certReqId.Some?
            && t.message.version == (if s.chain[0].signer.algorithm.MlDsa? then 3 else 2)
            && t.message.body == (if s.requestNonce.NoNonce? then CertConf(s.chain[0], s.certReqId.value, false)
                                  else PollReq(-1))
  {
    WriteAhead(w, log, i);
    hide OfRun, Lawful, Bound;
    Sending(w, log, i);
  }

  lemma Returning(w: World, log: Log, job: Job, r: Record, chain: Path)
    requires OfRun(w, log) && Returned(job, r, chain) in log
    ensures ReturnedOk(log, job, r, chain) && Lawful(w, log)
  {
    hide OfRun;
    RunsAreLawful(w, log);
    var i :| 0 <= i < |log| && log[i] == Returned(job, r, chain);
    assert EventOk(w, log[..i], log[i]);
    assert forall e :: e in log[..i] ==> e in log;
  }

  /** A bundle is returned only after its leaf is stored in an Issued record of this request. */
  lemma ReturnedIsDurable(w: World, log: Log, i: nat)
    requires OfRun(w, log) && i < |log| && log[i].Returned?
    ensures var r := log[i].record;
            && (exists j :: 0 <= j < i && log[j] == Stored(r))
            && r.status.phase.Issued? && r.key == log[i].job.key && r.spec.requestUid == log[i].job.uid
            && log[i].chain != [] && r.status.chain != [] && log[i].chain[0] == r.status.chain[0]
  {
    hide OfRun;
    RunsAreLawful(w, log);
    assert EventOk(w, log[..i], log[i]);
    hide Lawful;
    var j := EarlierStored(log[..i], log[i].record);
    assert log[j] == Stored(log[i].record);
  }

  /** Every version of a record that has a certificate has the same one. */
  lemma RecordedLeaf(w: World, log: Log, p: Record, r: Record)
    requires Lawful(w, log) && Stored(p) in log && Stored(r) in log && p.uid == r.uid
    requires Rank(p.status.phase) >= 2 && Rank(r.status.phase) >= 2
    ensures SameLeaf(p.status, r.status) && (p.status.phase.Issued? && r.status.phase.Issued? ==> p == r)
  {
    hide Justified, AcceptedFor;
    var i := EarlierStored(log, p);
    LeafOrigin(w, log, i);
    if p.version < r.version {
      LaterAdvances(w, log, p, r);
    } else if r.version < p.version {
      LaterAdvances(w, log, r, p);
    }
  }

  /** All returns of a record's lifetime carry one leaf, also across restarts and replicas. */
  lemma OneLeaf(w: World, log: Log, job: Job, r: Record, chain: Path, job': Job, r': Record, chain': Path)
    requires OfRun(w, log) && Returned(job, r, chain) in log && Returned(job', r', chain') in log && r.uid == r'.uid
    ensures r == r' && chain != [] && chain' != [] && chain[0] == chain'[0]
  {
    hide OfRun, Lawful;
    Returning(w, log, job, r, chain);
    Returning(w, log, job', r', chain');
    RecordedLeaf(w, log, r, r');
  }

  /** The certificate that was confirmed is the certificate that is returned. */
  lemma ConfirmedIsReturned(w: World, log: Log, i: nat, job: Job, r: Record, chain: Path)
    requires OfRun(w, log) && i < |log| && log[i].Sent? && log[i].transmission.message.body.CertConf?
             && !log[i].transmission.message.body.rejected
    requires Returned(job, r, chain) in log && r.uid == log[i].transmission.record.uid
    ensures chain != [] && log[i].transmission.message.body.certificate == chain[0]
  {
    hide OfRun, Lawful;
    ConfirmedIsDurable(w, log, i);
    Returning(w, log, job, r, chain);
    RecordedLeaf(w, log, log[i].transmission.record, r);
  }

  /** An accepted certificate certifies the key the request was built for. */
  lemma AcceptedKey(w: World, a: Answer, leaf: Certificate, certReqId: int)
    requires Accepts(w, a, leaf, certReqId)
    ensures leaf.key == a.to.using.request.csrKey
  {
    hide VerifyChain;
    AcceptingOutcome(w, a);
    var issued := Extract(a.response, a.to.using.request);
    if issued.Ok? && issued.value.Certified? {
      ValidatedLeaf(w.verify, issued.value.certificate,
                    issued.value.candidates + a.to.using.request.responseCertificates, a.to.using.request.anchors,
                    a.at);
    }
  }

  /** Every returned bundle certifies the public key of the CSR it is returned for. */
  lemma ReturnedCertifiesRequest(w: World, log: Log, job: Job, r: Record, chain: Path)
    requires OfRun(w, log) && Returned(job, r, chain) in log
    ensures chain != [] && chain[0].key == CsrOf(w, job).key
  {
    hide OfRun, Justified, Accepts;
    Returning(w, log, job, r, chain);
    var i := EarlierStored(log, r);
    LeafOrigin(w, log, i);
    var leaf := chain[0];
    var id :| AcceptedFor(w, log[..i], r.uid, leaf, id);
    var a :| Answered(a) in log[..i] && a.to.record.uid == r.uid && Accepts(w, a, leaf, id);
    LawfulAnswer(w, log, a);
    AcceptedKey(w, a, leaf, id);
    assert SameObject(a.to.record, r);
  }

  // ----- The poll budget

  /** A record never counts more polls than the issuer's maximum, and records at most two waits more. */
  lemma WaitingEnds(w: World, log: Log, r: Record)
    requires OfRun(w, log) && Stored(r) in log
    ensures r.spec.issuer.Some?
    ensures var configured := w.spec(r.spec.issuer.value).transaction.maximumPolls;
            var maximum := if configured >= 1 then configured else 60;
            && 0 <= r.status.polls <= maximum
            && RecordedWaits(log, r.uid) <= maximum + 2
  {
    hide OfRun, Justified;
    RunsAreLawful(w, log);
    var l := Newest(log, r);
    assert SameObject(r, l);
    hide Lawful, Latest;
    var i := EarlierStored(log, r);
    var k := EarlierStored(log, l);
    BudgetKept(w, log, i);
    BudgetKept(w, log, k);
    WaitsAreCounted(w, log, l);
  }

  /** Until a confirmation poll has been answered, the budget lets the confirmation of a stored certificate go out. */
  lemma FirstConfirmationIsSent(w: World, log: Log, job: Job, r: Record, using: Using, chain: Path,
                                pending: PendingTransaction,
                                input: Input, objects: Objects, clock: int, next: nat)
    requires OfRun(w, log) && Stored(r) in log && r.status.phase.Confirming? && r.spec.issuer == Some(job.issuer)
    requires !ConfirmationPolled(log, r.uid)
    ensures var e := StepSendConfirmation(w, job, r, using, chain, pending, input, objects, clock, next);
            (|e.events| == 1 && e.events[0].Sent?) <==> clock <= r.spec.deadline && !input.Fault? && chain != []
  {
    hide OfRun, Lawful;
    RunsAreLawful(w, log);
    var i := EarlierStored(log, r);
    BudgetKept(w, log, i);
    BudgetStays(w, log[..i], log, r);
  }

  // ----- Nonces

  /**
   A Polling record's request nonce is that of an enrollment message of this record that was answered
   waiting before.
   */
  lemma PollingNonce(w: World, log: Log, i: nat)
    requires OfRun(w, log) && i < |log| && log[i].Stored? && log[i].record.status.phase.Polling?
    ensures var r := log[i].record;
            r.status.requestNonce.Nonce? && EnrollmentWaited(log[..i], r.uid, r.status.requestNonce)
  {
    hide OfRun, Lawful;
    RunsAreLawful(w, log);
    NonceMeaning(w, log, i);
  }

  /** A certConf sent from an earlier version of the record was answered waiting. */
  ghost predicate EarlierWait(log: Log, r: Record, a: Answer)
  {
    && Answered(a) in log && a.to.record.uid == r.uid && a.to.record.version < r.version
    && a.to.purpose.ForConfirmation? && a.to.message.body.CertConf? && DelaysConfirmation(a.response)
  }

  /**
   A Confirming version has a request nonce exactly when a certConf sent from an earlier version was
   answered waiting, and then the nonce is that of such a certConf for the version's leaf.
   */
  lemma ConfirmingNonce(w: World, log: Log, i: nat)
    requires OfRun(w, log) && i < |log| && log[i].Stored? && log[i].record.status.phase.Confirming?
    ensures var r := log[i].record;
            && r.status.chain != []
            && (r.status.requestNonce.Nonce? <==> exists a :: EarlierWait(log, r, a))
            && (r.status.requestNonce.Nonce? ==>
                  ConfirmationWaited(log[..i], r.uid, r.status.chain[0], r.status.requestNonce))
  {
    hide OfRun, Lawful;
    var r := log[i].record;
    RunsAreLawful(w, log);
    NonceMeaning(w, log, i);
    if r.status.requestNonce.Nonce? {
      var a :| Answered(a) in log[..i] && a.to.record.uid == r.uid && a.to.purpose.ForConfirmation?
               && DelaysConfirmation(a.response) && a.to.message.body.CertConf?;
      AnsweredEarlier(w, log, i, a);
      assert EarlierWait(log, r, a);
    } else if a :| EarlierWait(log, r, a) {
      ConfirmingAdvances(w, log, r, a);
    }
  }

  lemma AnsweredEarlier(w: World, log: Log, i: nat, a: Answer)
    requires Lawful(w, log) && i < |log| && log[i].Stored? && Answered(a) in log[..i]
    ensures Answered(a) in log && a.to.record.version < log[i].record.version
  {
    hide Lawful;
    LawfulPrefix(w, log, i);
    LawfulAnswer(w, log[..i], a);
    var k := IndexOf(log, i, a.to.record);
    VersionsInOrder(w, log, k, i);
  }

  lemma ConfirmingAdvances(w: World, log: Log, r: Record, a: Answer)
    requires Lawful(w, log) && Stored(r) in log && r.status.phase.Confirming? && EarlierWait(log, r, a)
    ensures r.status.requestNonce.Nonce?
  {
    hide Lawful;
    LawfulAnswer(w, log, a);
    LaterAdvances(w, log, a.to.record, r);
  }

  /** Accepting certConfs of a record are only sent from its first Confirming version. */
  lemma CertConfFromFirstConfirming(w: World, log: Log, i: nat, p: Record)
    requires OfRun(w, log) && i < |log| && log[i].Sent?
    requires log[i].transmission.message.body.CertConf? && !log[i].transmission.message.body.rejected
    requires Stored(p) in log && p.uid == log[i].transmission.record.uid && p.status.phase.Confirming?
    ensures log[i].transmission.record.version <= p.version
  {
    hide OfRun;
    ConfirmedIsDurable(w, log, i);
    assert Stored(log[i].transmission.record) in log;
    OnlyFirstConfirmingIsUnsent(w, log, log[i].transmission.record);
  }

  /** The first Confirming version, and no other, has an empty request nonce. */
  lemma OnlyFirstConfirmingIsUnsent(w: World, log: Log, r: Record)
    requires OfRun(w, log) && Stored(r) in log && r.status.phase.Confirming?
    ensures r.status.requestNonce.NoNonce? <==>
            forall p :: Stored(p) in log && p.uid == r.uid && p.status.phase.Confirming? ==> r.version <= p.version
  {
    hide OfRun, Lawful;
    RunsAreLawful(w, log);
    if r.status.requestNonce.NoNonce? {
      forall p | Stored(p) in log && p.uid == r.uid && p.status.phase.Confirming? ensures r.version <= p.version {
        if p.version < r.version {
          LaterAdvances(w, log, p, r);
        }
      }
    } else {
      var i := StoredAt(w, log, r);
      hide Explains;
      var p, a := Origin(w, log[..i], r);
      DeferredConfirming(w, log[..i], a.value, p.value, r);
      assert forall e :: e in log[..i] ==> e in log;
    }
  }

  lemma DeferredConfirming(w: World, past: Log, a: Answer, p: Record, r: Record)
    requires Moves(w, past, a, p, r) && r.status.phase.Confirming? && r.status.requestNonce.Nonce?
    ensures p.status.phase.Confirming?
  {
    hide AnsweredOk, Bound, EnrollmentOutcome;
  }

  /** A resumed confirmation polls only for a certConf of this record that was sent and answered waiting before. */
  lemma PollFollowsCertConf(w: World, log: Log, i: nat)
    requires OfRun(w, log) && i < |log| && log[i].Sent? && log[i].transmission.purpose.ForConfirmation?
             && log[i].transmission.message.body.PollReq?
    ensures var r := log[i].transmission.record;
            r.status.chain != [] && ConfirmationWaited(log[..i], r.uid, r.status.chain[0], r.status.requestNonce)
  {
    hide OfRun, Lawful;
    var r := log[i].transmission.record;
    Sending(w, log, i);
    var k := EarlierStored(log[..i], r);
    NonceMeaning(w, log[..i], k);
    NonceStays(log[..i][..k], log[..i], r);
  }

  // ----- Only authentic responses

  /**
   The response is authentic as an answer to this message: it echoes the message's sender nonce or, when
   the message polls, the recorded nonce of the request it polls for.
   */
  ghost predicate AuthenticTo(w: World, t: Transmission, response: Protocol.Response, previous: Option<Certificate>,
                              at: int, signer: Option<Certificate>)
  {
    Authentic(w.verify, at, t.message, response, t.using.request, previous,
              if t.message.body.PollReq? then t.record.status.requestNonce else NoNonce, signer)
  }

  /** Every accepted response is authentic, and a signer it merely repeats was trusted for this record before. */
  lemma AnswersAreAuthentic(w: World, log: Log, i: nat)
    requires Sound(w.verify) && OfRun(w, log) && i < |log| && log[i].Answered?
    ensures var a := log[i].answer;
            && AuthenticTo(w, a.to, a.response, a.previous, a.at, a.signer)
            && SignerTrusted(w, log[..i], a.to.record.uid, a.previous)
            && SignerTrusted(w, log[..i + 1], a.to.record.uid, a.signer)
  {
    hide OfRun, Lawful, Sound, Authentic, SignerTrusted, VerifyResponse;
    var a := log[i].answer;
    RunsAreLawful(w, log);
    Answering(w, log, i);
    if a.previous.None? {
      NoSigner(w, log[..i], a.to.record.uid);
    } else {
      var k := IndexOf(log, i, a.to.record);
      SignerTrust(w, log, k);
      SignerStays(w, log[..k], log[..i], a.to.record.uid, a.previous);
    }
    SignerStays(w, log[..i], log[..i + 1], a.to.record.uid, a.previous);
    assert log[..i + 1][i] == Answered(a);
    AnswerTrusted(w, log[..i + 1], a);
  }

  lemma Answering(w: World, log: Log, i: nat)
    requires Lawful(w, log) && i < |log| && log[i].Answered?
    ensures AnsweredOk(w, log[..i], log[i].answer) && AnsweredOk(w, log[..i + 1], log[i].answer)
            && SentOk(w, log[..i], log[i].answer.to)
  {
    hide StoredOk, SentOk;
    assert EventOk(w, log[..i], log[i]);
    LawfulPrefix(w, log, i);
    LawfulSent(w, log[..i], log[i].answer.to);
    assert forall e :: e in log[..i] ==> e in log[..i + 1];
  }

  /**
   What a status write may follow: creation, the first phase mark, or an answer to a message sent from
   the version it replaces.
   */
  ghost predicate Follows(w: World, past: Log, r: Record)
  {
    || r.status == NewStatus
    || exists p ::
      Stored(p) in past && SameObject(p, r) && Latest(past, p) && (Marks(p, r) || exists a :: Moves(w, past, a, p, r))
  }

  /**
   Every version is explained by what happened before it, and its response signer chained on an earlier
   accepted response of the record.
   */
  lemma OnlyAnswersMoveRecords(w: World, log: Log, i: nat)
    requires Sound(w.verify) && OfRun(w, log) && i < |log| && log[i].Stored?
    ensures Follows(w, log[..i], log[i].record)
    ensures SignerTrusted(w, log[..i], log[i].record.uid, log[i].record.status.responseSigner)
  {
    hide OfRun, Lawful, Sound, SignerTrusted, Explains, Moves;
    var r := log[i].record;
    RunsAreLawful(w, log);
    SignerTrust(w, log, i);
    StoredHere(w, log, i);
    var p, a := Origin(w, log[..i], r);
  }

  // ----- Deletion and recreation

  /**
   A delete removes the object it was issued for, in its newest version, once; nothing is stored in that
   object afterwards.
   */
  lemma DeletesAreInstanceSafe(w: World, log: Log, i: nat)
    requires OfRun(w, log) && i < |log| && log[i].Removed?
    ensures var r, cause := log[i].record, log[i].cause;
            && Stored(r) in log[..i] && Latest(log[..i], r) && !Gone(log[..i], r.uid)
            && (!cause.Collected? ==>
                  Stored(cause.intended) in log[..i] && cause.intended.uid == r.uid && r.key == cause.job.key)
            && (cause.Failed? ==> r.spec.requestUid == cause.job.uid)
            && (cause.Stale? ==> r.spec.requestUid != cause.job.uid)
            && forall j :: i < j < |log| && log[j].Stored? ==> log[j].record.uid != r.uid
  {
    hide OfRun;
    RunsAreLawful(w, log);
    hide StoredOk, SentOk, AnsweredOk, Latest;
    assert EventOk(w, log[..i], log[i]);
    hide Lawful, Gone;
    var r := log[i].record;
    forall j | i < j < |log| && log[j].Stored? ensures log[j].record.uid != r.uid {
      GoneForGood(w, log, i, j);
    }
  }

  lemma GoneForGood(w: World, log: Log, i: nat, j: nat)
    requires Lawful(w, log) && i < j < |log| && log[i].Removed? && Stored(log[i].record) in log[..i] && log[j].Stored?
    ensures log[j].record.uid != log[i].record.uid
  {
    hide Lawful, Explains;
    StoredHere(w, log, j);
    var p, a := Origin(w, log[..j], log[j].record);
    assert log[..j][i] == log[i];
    var k := EarlierStored(log[..i], log[i].record);
    assert log[..j][k] == Stored(log[i].record);
    hide Latest;
  }

  /** A name holds one object at a time: a later object under it appears only after the earlier one was removed. */
  lemma OneRecordPerName(w: World, log: Log, i: nat, j: nat)
    requires OfRun(w, log) && i < j < |log| && log[i].Stored? && log[j].Stored?
    requires log[i].record.key == log[j].record.key && log[i].record.uid != log[j].record.uid
    ensures exists k :: 0 <= k < j && log[k].Removed? && log[k].record.uid == log[i].record.uid
    ensures log[i].record.spec.transactionId != log[j].record.spec.transactionId
  {
    hide OfRun, Lawful;
    RunsAreLawful(w, log);
    ObjectsApart(w, log, i, j);
    var e :| e in log[..j] && e.Removed? && e.record.uid == log[i].record.uid;
    var k :| 0 <= k < j && log[..j][k] == e;
    assert log[k] == e;
  }

  // ----- Certificates

  /** The answer delivered this certificate and the issuer's policy wants it. */
  ghost predicate DeliveredAcceptable(a: Answer, leaf: Certificate, certReqId: int)
  {
    && Delivers(a.response, a.to.using.request, leaf, certReqId)
    && Acceptable(a.at, a.response, a.to.using.request, leaf, certReqId)
  }

  lemma AcceptedIsAcceptable(w: World, log: Log, a: Answer, leaf: Certificate, certReqId: int)
    requires Sound(w.verify) && SentOk(w, log, a.to) && Accepts(w, a, leaf, certReqId)
    ensures DeliveredAcceptable(a, leaf, certReqId)
  {
    AcceptingOutcome(w, a);
    hide Sound, Acceptable;
    RefusalAlgebra(w.verify, a.at, a.to.using.request, a.response, a.signer, EnrollmentNonce(a.to), leaf, certReqId);
  }

  /**
   A recorded certificate was delivered to this record before, under the id that certConf echoes, and is
   acceptable.
   */
  lemma RecordedIsAcceptable(w: World, log: Log, i: nat)
    requires Sound(w.verify) && OfRun(w, log) && i < |log| && log[i].Stored? && Rank(log[i].record.status.phase) >= 2
    ensures var r := log[i].record;
            && r.status.chain != [] && (r.status.phase.Confirming? ==> r.status.certReqId.Some?)
            && exists id ::
                 && CameWithId(log[..i], r, r.status.chain[0], id)
                 && (r.status.phase.Confirming? ==> r.status.certReqId == Some(id))
  {
    hide OfRun, Lawful, Sound, Accepts, Acceptable;
    var r := log[i].record;
    RunsAreLawful(w, log);
    LeafOrigin(w, log, i);
    var leaf := r.status.chain[0];
    var id :| AcceptedFor(w, log[..i], r.uid, leaf, id)
              && (r.status.phase.Confirming? ==> r.status.certReqId == Some(id));
    var a :| Answered(a) in log[..i] && a.to.record.uid == r.uid && Accepts(w, a, leaf, id);
    AnswerOperation(w, log, i, a);
    AcceptedIsAcceptable(w, log[..i], a, leaf, id);
    assert CameWithId(log[..i], r, leaf, id);
  }

  /** The certificate and an allowed id came together, acceptably, in an answer to this record's operation. */
  ghost predicate CameWithId(log: Log, r: Record, leaf: Certificate, certReqId: int)
  {
    exists a ::
      && Answered(a) in log && a.to.record.uid == r.uid && DeliveredAcceptable(a, leaf, certReqId)
      && r.spec.operation == Some(a.to.using.request.operation)
      && IdAllowed(a.to.using.request.operation, a.to.using.request.pinnedCertReqId, certReqId)
  }

  lemma AnswerOperation(w: World, log: Log, i: nat, a: Answer)
    requires Lawful(w, log) && i < |log| && log[i].Stored? && Answered(a) in log[..i]
             && a.to.record.uid == log[i].record.uid
    ensures SentOk(w, log[..i], a.to) && log[i].record.spec.operation == Some(a.to.using.request.operation)
  {
    hide Justified;
    LawfulPrefix(w, log, i);
    LawfulAnswer(w, log[..i], a);
    assert Stored(a.to.record) in log;
    assert SameObject(a.to.record, log[i].record);
  }

  /**
   A rejecting certConf is only sent for a certificate that an answer to this record delivered,
   unconfirmed, and that is not acceptable.
   */
  lemma RejectedIsUnacceptable(w: World, log: Log, i: nat)
    requires Sound(w.verify) && OfRun(w, log) && i < |log| && log[i].Sent? && log[i].transmission.message.body.CertConf?
    requires log[i].transmission.message.body.rejected
    ensures var t := log[i].transmission;
            var body := t.message.body;
            && t.message.version == (if body.certificate.signer.algorithm.MlDsa? then 3 else 2)
            && exists a ::
              && Answered(a) in log[..i] && a.to.record == t.record && t.message.recipNonce == a.response.senderNonce
              && Delivers(a.response, a.to.using.request, body.certificate, body.certReqId)
              && !ImplicitlyConfirmed(a.response, a.to.using.request)
              && !DeliveredAcceptable(a, body.certificate, body.certReqId)
  {
    hide OfRun, Lawful, Sound, Delivers, DeliveredAcceptable, Refused;
    var t := log[i].transmission;
    Sending(w, log, i);
    var a :| Answered(a) in log[..i] && a.to.purpose.ForEnrollment? && a.to.record == t.record
             && Refused(w, a, t.message);
    LawfulAnswer(w, log[..i], a);
    RefusedIsUnacceptable(w, log[..i], a, t.message);
  }

  lemma RefusedIsUnacceptable(w: World, log: Log, a: Answer, message: Message)
    requires Sound(w.verify) && SentOk(w, log, a.to) && Refused(w, a, message)
    ensures message.body.CertConf? && Delivers(a.response, a.to.using.request, message.body.certificate,
                                               message.body.certReqId)
            && message.recipNonce == a.response.senderNonce
            && message.version == (if message.body.certificate.signer.algorithm.MlDsa? then 3 else 2)
    ensures !ImplicitlyConfirmed(a.response, a.to.using.request)
            && !DeliveredAcceptable(a, message.body.certificate, message.body.certReqId)
  {
    FinishMeans(w.verify, a.at, a.to.using.request, a.response, a.signer, EnrollmentNonce(a.to));
    hide Sound, Acceptable;
    RefusalAlgebra(w.verify, a.at, a.to.using.request, a.response, a.signer, EnrollmentNonce(a.to),
                   message.body.certificate, message.body.certReqId);
  }

  /**
   certConf carries the id of the CP, IP or KUP that delivered the certificate before, after any number
   of restarts and delays.
   */
  lemma CertReqIdEcho(w: World, log: Log, i: nat)
    requires Sound(w.verify) && OfRun(w, log) && i < |log| && log[i].Sent?
    requires log[i].transmission.message.body.CertConf? && !log[i].transmission.message.body.rejected
    ensures var t := log[i].transmission;
            CameWithId(log[..i], t.record, t.message.body.certificate, t.message.body.certReqId)
  {
    hide OfRun, Sound, DeliveredAcceptable;
    var t := log[i].transmission;
    ConfirmedIsDurable(w, log, i);
    var k :| 0 <= k < i && log[k] == Stored(t.record);
    RecordedIsAcceptable(w, log, k);
    assert forall e :: e in log[..k] ==> e in log[..i];
  }

  // ----- Configuration and operation

  /**
   All messages of a record are sent under one issuer generation and one set of workload Secrets, and
   under one configuration exactly when the credentials agree where a Secret is also a workload Secret.
   */
  lemma ConfigurationIff(w: World, log: Log, t: Transmission, u: Transmission)
    requires OfRun(w, log) && Sent(t) in log && Sent(u) in log && t.record.uid == u.record.uid
    ensures t.job.issuer == u.job.issuer && t.using.workload == u.using.workload
    ensures t.using == u.using <==> AgreeOn(t.using.credentials, u.using.credentials, t.using.workload.Keys)
  {
    hide OfRun, Justified;
    RunsAreLawful(w, log);
    LawfulSent(w, log, t);
    LawfulSent(w, log, u);
    assert SameObject(t.record, u.record);
    hide Lawful, FromSettings;
    DigestIff(t.job.issuer, Merge(t.using.credentials, t.using.workload),
              u.job.issuer, Merge(u.using.credentials, u.using.workload));
    SameSettings(w, t.job.issuer, t.record.spec.operation.value, t.using, u.using);
  }

  lemma SameSettings(w: World, issuer: IssuerRef, operation: Operation, a: Using, b: Using)
    requires FromSettings(w, issuer, operation, a) && FromSettings(w, issuer, operation, b)
    requires Merge(a.credentials, a.workload) == Merge(b.credentials, b.workload)
    requires a.request.csrKey == b.request.csrKey && a.request.transactionId == b.request.transactionId
    ensures a.workload == b.workload && (a == b <==> AgreeOn(a.credentials, b.credentials, a.workload.Keys))
  {
    MergeDetermines(a.credentials, a.workload, b.credentials, b.workload);
    hide AgreeOn;
    if a.credentials == b.credentials {
      if operation.KUR? {
        PinnedOnce(w.codec, a.workload, a.request.protection.certificate, b.request.protection.certificate);
      }
      assert a.request == b.request;
    }
  }

  /** One record lifetime runs under one configuration and one request when no Secret has both roles. */
  lemma OneConfiguration(w: World, log: Log, t: Transmission, u: Transmission)
    requires OfRun(w, log) && Sent(t) in log && Sent(u) in log && t.record.uid == u.record.uid
    requires t.using.credentials.Keys !! t.using.workload.Keys && u.using.credentials.Keys !! u.using.workload.Keys
    ensures t.using == u.using
  {
    hide OfRun;
    ConfigurationIff(w, log, t, u);
    assert AgreeOn(t.using.credentials, u.using.credentials, t.using.workload.Keys);
  }

  lemma PinnedOnce(codec: Codec, workload: Fingerprints, a: Certificate, b: Certificate)
    requires PinnedProtection(codec, workload, a) && PinnedProtection(codec, workload, b)
    ensures a == b
  {
  }

  /** Every enrollment message uses the recorded operation, and no version of a record changes it or its fallback. */
  lemma OperationIsFixed(w: World, log: Log, i: nat, r: Record)
    requires OfRun(w, log) && i < |log| && log[i].Sent? && Stored(r) in log && log[i].transmission.record.uid == r.uid
    ensures var t := log[i].transmission;
            && t.record.spec == r.spec && r.spec.operation == Some(t.using.request.operation)
            && (t.message.body.Enroll? ==> r.spec.operation == Some(t.message.body.operation))
  {
    Sending(w, log, i);
    hide OfRun, Justified;
    RunsAreLawful(w, log);
    var t := log[i].transmission;
    assert Stored(t.record) in log;
    assert SameObject(t.record, r);
  }

  /**
   The record has what its creator was called with and had loaded, and lasts for the maximum duration of
   its issuer, ten minutes unless one is configured.
   */
  ghost predicate CreatedWith(w: World, job: Job, plan: Plan, r: Record, clock: int)
  {
    var configured := w.spec(job.issuer).transaction.maximumDuration;
    && r.spec.requestUid == job.uid && r.spec.csrDigest == Sha256(job.csr) && r.spec.issuer == Some(job.issuer)
    && r.spec.operation == Some(plan.operation) && r.spec.fallback == plan.fallback
    && r.spec.configurationDigest == Digest(job.issuer, Merge(plan.using.credentials, plan.using.workload))
    && r.spec.deadline == clock + (if configured > 0 then configured else 600_000_000_000)
  }

  /** Every version of a record was created by some reconcile and keeps that reconcile's bindings. */
  lemma {:induction false} CreatedOnce(w: World, log: Log, r: Record)
    requires Lawful(w, log) && Stored(r) in log
    ensures exists job :: CreatedBy(w, job, r)
    decreases |log|
  {
    hide Lawful, Explains;
    var i := StoredAt(w, log, r);
    var p, a := Origin(w, log[..i], r);
    if p.Some? {
      CreatedOnce(w, log[..i], p.value);
      var job :| CreatedBy(w, job, p.value);
      assert CreatedBy(w, job, r);
    }
  }

  predicate Resumable(w: World, job: Job, r: Record)
  {
    var operation := SelectedOperation(w.spec(job.issuer).protocol, job.metadata.revision);
    operation.Some? && ValidResumed(r.spec, Sha256(job.csr), operation.value,
                                    FallbackOperation(w.spec(job.issuer).protocol), job.issuer)
  }

  /**
   A record of a run is resumed exactly for its CSR, its issuer's identity and an operation that issuer
   still allows for it.
   */
  lemma ResumableIff(w: World, log: Log, r: Record, job: Job)
    requires OfRun(w, log) && Stored(r) in log
    ensures r.spec.issuer.Some? && r.spec.operation.Some?
    ensures Resumable(w, job, r) <==>
            && r.spec.csrDigest == Sha256(job.csr)
            && r.spec.issuer.value.(generation := job.issuer.generation) == job.issuer
            && var protocol := w.spec(job.issuer).protocol;
               if r.spec.fallback.Some? then SelectedOperation(protocol, job.metadata.revision) == Some(KUR)
               && FallbackOperation(protocol) == r.spec.operation
               else SelectedOperation(protocol, job.metadata.revision) == r.spec.operation
  {
    hide OfRun, Lawful, SelectedOperation, FallbackOperation;
    RunsAreLawful(w, log);
    CreatedOnce(w, log, r);
  }

  // ----- Time

  /** No enrollment, poll or accepting confirmation goes out after the recorded deadline. */
  lemma DeadlineKept(w: World, log: Log, i: nat)
    requires OfRun(w, log) && i < |log| && log[i].Sent? && !log[i].transmission.purpose.ForRejection?
    ensures log[i].transmission.at <= log[i].transmission.record.spec.deadline
  {
    hide OfRun, Lawful;
    Sending(w, log, i);
  }

  /**
   Every wait is retried after a positive delay, at most the issuer's maximum and, before the deadline,
   at most the time left.
   */
  lemma RetriesAreBounded(w: World, log: Log, i: nat)
    requires OfRun(w, log) && i < |log| && log[i].Requeued?
    ensures var r, delay, at := log[i].record, log[i].delay, log[i].at;
            && r.spec.issuer.Some?
            && 0 < delay <= LimitsWithDefaults(w.spec(r.spec.issuer.value).transaction).maximumPollInterval
            && (at < r.spec.deadline ==> delay <= r.spec.deadline - at)
  {
    hide OfRun;
    RunsAreLawful(w, log);
    assert EventOk(w, log[..i], log[i]);
  }
}
