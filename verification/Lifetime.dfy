/**
 One record over its lifetime: what later versions keep, and what each field of a stored version says
 about the messages and answers before it. Everything follows from the history being lawful.
 */
module Lifetime {
  import opened Basics
  import opened Certificates
  import opened Protocol
  import opened Store
  import opened Signer
  import opened History
  import opened Invariant

  ghost predicate Lawful(w: World, log: Log) { Justified(w, log) && Consistent(log) }

  lemma LawfulPrefix(w: World, log: Log, n: nat)
    requires Lawful(w, log) && n <= |log|
    ensures Lawful(w, log[..n])
  {
    hide EventOk;
    JustifiedPrefix(w, log, n);
  }

  lemma StoredAt(w: World, log: Log, r: Record) returns (i: nat)
    requires Lawful(w, log) && Stored(r) in log
    ensures i < |log| && log[i] == Stored(r) && StoredOk(w, log[..i], r) && Lawful(w, log[..i])
  {
    hide Lawful;
    i :| 0 <= i < |log| && log[i] == Stored(r);
    StoredHere(w, log, i);
  }

  lemma StoredHere(w: World, log: Log, i: nat)
    requires Lawful(w, log) && i < |log| && log[i].Stored?
    ensures StoredOk(w, log[..i], log[i].record) && Lawful(w, log[..i])
  {
    assert EventOk(w, log[..i], log[i]);
    LawfulPrefix(w, log, i);
  }

  lemma IndexOf(log: Log, i: nat, r: Record) returns (k: nat)
    requires i <= |log| && Stored(r) in log[..i]
    ensures k < i && log[k] == Stored(r)
  {
    k :| 0 <= k < i && log[..i][k] == Stored(r);
  }

  lemma StoredNewest(w: World, past: Log, r: Record, q: Record)
    requires StoredOk(w, past, r) && Stored(q) in past
    ensures q.version < r.version
  {
  }

  /** Versions are written in order. */
  lemma VersionsInOrder(w: World, log: Log, i: nat, j: nat)
    requires Lawful(w, log) && i < |log| && j < |log| && log[i].Stored? && log[j].Stored?
    ensures i < j <==> log[i].record.version < log[j].record.version
  {
    var p, q := log[i].record, log[j].record;
    hide Lawful, StoredOk;
    if i < j {
      StoredHere(w, log, j);
      StoredNewest(w, log[..j], q, p);
    } else if j < i {
      StoredHere(w, log, i);
      StoredNewest(w, log[..i], p, q);
    }
  }

  lemma LawfulSent(w: World, log: Log, t: Transmission)
    requires Lawful(w, log) && Sent(t) in log
    ensures SentOk(w, log, t)
  {
    hide EventOk;
    SentFacts(w, log, t);
  }

  lemma LawfulAnswer(w: World, log: Log, a: Answer)
    requires Lawful(w, log) && Answered(a) in log
    ensures AnsweredOk(w, log, a) && SentOk(w, log, a.to)
  {
    hide EventOk;
    AnsweredFacts(w, log, a);
  }

  // ----- One status write

  /** An authenticated answer to a message sent from version p explains version r. */
  ghost predicate Moves(w: World, past: Log, a: Answer, p: Record, r: Record)
  {
    && Answered(a) in past && a.to.record == p && AnsweredOk(w, past, a) && SentOk(w, past, a.to)
    && Explains(w, a, p.status, r.status)
  }

  ghost predicate Marks(p: Record, r: Record) { p.status == NewStatus && r.status == NewStatus.(phase := Enrolling) }

  /** A stored version is new, or follows the newest version before it. */
  lemma Origin(w: World, past: Log, r: Record) returns (p: Option<Record>, a: Option<Answer>)
    requires Lawful(w, past) && StoredOk(w, past, r)
    ensures p.None? ==> CreationOk(w, past, r) && a.None?
    ensures p.Some? ==> UpdateOk(w, past, p.value, r)
    ensures p.Some? && a.None? ==> Marks(p.value, r)
    ensures p.Some? && a.Some? ==> Moves(w, past, a.value, p.value, r)
  {
    if CreationOk(w, past, r) {
      return None, None;
    }
    var q :| UpdateOk(w, past, q, r);
    if Marks(q, r) {
      return Some(q), None;
    }
    var b :| Answered(b) in past && b.to.record == q && Explains(w, b, q.status, r.status);
    AnsweredFacts(w, past, b);
    return Some(q), Some(b);
  }

  function Rank(phase: Phase): nat
  {
    match phase
    case Unset => 0
    case Enrolling => 0
    case Polling => 1
    case Confirming => 2
    case Issued => 3
  }

  /** What a later version keeps of an earlier one. An issued version has no later one. */
  ghost predicate Advances(before: Store.Status, after: Store.Status)
  {
    && Rank(before.phase) <= Rank(after.phase) && before.polls <= after.polls
    && !before.phase.Issued?
    && !after.phase.Unset? && (after.phase.Enrolling? ==> before == NewStatus)
    && (before.phase.Polling? && after.phase.Polling? ==> after.requestNonce == before.requestNonce)
    && (before.phase.Confirming? ==>
          && SameLeaf(before, after) && after.certReqId == before.certReqId
          && after.responseSigner == before.responseSigner
          && (before.requestNonce.Nonce? ==> after.requestNonce == before.requestNonce)
          && (after.phase.Confirming? ==> after.requestNonce.Nonce?))
  }

  lemma MoveAdvances(w: World, past: Log, a: Answer, p: Record, r: Record)
    requires Moves(w, past, a, p, r)
    ensures Advances(p.status, r.status)
  {
    hide AnsweredOk, Bound, EnrollmentOutcome;
  }

  lemma UpdateAdvances(w: World, past: Log, p: Record, r: Record)
    requires Lawful(w, past) && UpdateOk(w, past, p, r)
    ensures Advances(p.status, r.status)
  {
    if !Marks(p, r) {
      var a :| Answered(a) in past && a.to.record == p && Explains(w, a, p.status, r.status);
      AnsweredFacts(w, past, a);
      MoveAdvances(w, past, a, p, r);
    }
  }

  lemma AdvancesTransitively(a: Store.Status, b: Store.Status, c: Store.Status)
    requires Advances(a, b) && Advances(b, c)
    ensures Advances(a, c)
  {
  }

  lemma SameVersion(w: World, log: Log, p: Record, q: Record)
    requires Lawful(w, log) && Stored(p) in log && Stored(q) in log && p.version == q.version
    ensures p == q
  {
    hide Justified;
  }

  /** The version a later version was written on, itself no older than the given earlier one. */
  lemma Previous(w: World, log: Log, p: Record, r: Record) returns (i: nat, q: Record)
    requires Lawful(w, log) && Stored(p) in log && Stored(r) in log && p.uid == r.uid && p.version < r.version
    ensures i < |log| && Lawful(w, log[..i]) && Stored(p) in log[..i] && Stored(q) in log[..i]
    ensures UpdateOk(w, log[..i], q, r) && q.uid == r.uid && p.version <= q.version < r.version
            && (p.version == q.version ==> p == q)
  {
    hide Lawful, Explains;
    var j := StoredAt(w, log, p);
    i := StoredAt(w, log, r);
    VersionsInOrder(w, log, j, i);
    assert log[..i][j] == Stored(p);
    hide StoredOk, Moves;
    var source, a := Origin(w, log[..i], r);
    q := source.value;
    if p.version == q.version {
      SameVersion(w, log[..i], p, q);
    }
  }

  /** Every later version of a record advances every earlier one, however the replicas interleave. */
  lemma {:induction false} LaterAdvances(w: World, log: Log, p: Record, r: Record)
    requires Lawful(w, log) && Stored(p) in log && Stored(r) in log && p.uid == r.uid && p.version < r.version
    ensures Advances(p.status, r.status)
    decreases |log|
  {
    hide Lawful, Advances, UpdateOk;
    var i, q := Previous(w, log, p, r);
    UpdateAdvances(w, log[..i], q, r);
    if p != q {
      LaterAdvances(w, log[..i], p, q);
      AdvancesTransitively(p.status, q.status, r.status);
    }
  }

  // ----- The poll budget

  ghost predicate ConfirmationPolled(log: Log, uid: nat)
  {
    exists a ::
      Answered(a) in log && a.to.record.uid == uid && a.to.purpose.ForConfirmation? && a.to.message.body.PollReq?
  }

  ghost predicate WithinBudget(w: World, log: Log, r: Record)
  {
    && r.spec.issuer.Some?
    && var maximum := Limits(w, r.spec.issuer.value).maximumPolls;
    && 0 < maximum && 0 <= r.status.polls <= maximum
    && (Rank(r.status.phase) == 0 ==> r.status.polls == 0)
    && (r.status.phase.Confirming? && r.status.requestNonce.NoNonce? ==> r.status.polls < maximum)
    && (r.status.phase.Confirming? && r.status.polls == maximum ==> ConfirmationPolled(log, r.uid))
  }

  lemma MoveWithinBudget(w: World, past: Log, a: Answer, p: Record, r: Record)
    requires Moves(w, past, a, p, r) && SameObject(p, r) && WithinBudget(w, past, p)
    ensures WithinBudget(w, past, r)
  {
    hide AnsweredOk, EnrollmentOutcome, FromSettings;
    if ConfirmationDeferred(a, p.status, r.status) && a.to.message.body.PollReq? {
      assert ConfirmationPolled(past, r.uid);
    }
  }

  lemma BudgetStays(w: World, past: Log, log: Log, r: Record)
    requires past <= log && WithinBudget(w, past, r)
    ensures WithinBudget(w, log, r)
  {
    assert forall e :: e in past ==> e in log;
  }

  /** Recorded polls never exceed the maximum, and only a confirmation that was already polled for can exhaust it. */
  lemma {:induction false} BudgetKept(w: World, log: Log, i: nat)
    requires Lawful(w, log) && i < |log| && log[i].Stored?
    ensures WithinBudget(w, log[..i], log[i].record)
    decreases i
  {
    hide Lawful, Explains;
    var r := log[i].record;
    StoredHere(w, log, i);
    var p, a := Origin(w, log[..i], r);
    if p.Some? {
      var k := IndexOf(log, i, p.value);
      BudgetKept(w, log, k);
      BudgetStays(w, log[..k], log[..i], p.value);
      if a.Some? {
        MoveWithinBudget(w, log[..i], a.value, p.value, r);
      }
    }
  }

  // ----- Recorded waits

  /** A status write that records another wait for the server. */
  predicate RecordsWait(e: Event, uid: nat)
  {
    e.Stored? && e.record.uid == uid && (e.record.status.phase.Polling?
                                         || (e.record.status.phase.Confirming? && e.record.status.requestNonce.Nonce?))
  }

  function RecordedWaits(log: Log, uid: nat): nat
  {
    if log == [] then 0 else RecordedWaits(log[..|log| - 1], uid) + if RecordsWait(log[|log| - 1], uid) then 1 else 0
  }

  /** Beyond the counted polls: one wait for the enrollment message and one for certConf. */
  function Uncounted(s: Store.Status): nat
  {
    match s.phase
    case Unset => 0
    case Enrolling => 0
    case Polling => 1
    case Confirming => if s.requestNonce.Nonce? then 2 else 1
    case Issued => 2
  }

  lemma {:induction false} NoWaits(log: Log, uid: nat)
    requires forall q :: Stored(q) in log ==> q.uid != uid
    ensures RecordedWaits(log, uid) == 0
  {
    if log != [] {
      var n := |log| - 1;
      assert log == log[..n] + [log[n]];
      NoWaits(log[..n], uid);
    }
  }

  lemma MoveCountsWait(w: World, past: Log, a: Answer, p: Record, r: Record)
    requires Moves(w, past, a, p, r) && SameObject(p, r)
    ensures p.status.polls + Uncounted(p.status) + (if RecordsWait(Stored(r), r.uid) then 1
                                                    else 0) <= r.status.polls + Uncounted(r.status)
  {
    hide AnsweredOk, EnrollmentOutcome, Bound;
  }

  lemma StoredEarlier(w: World, log: Log, r: Record)
    requires Lawful(w, log) && |log| > 0 && Stored(r) in log[..|log| - 1] && Latest(log, r)
    ensures Latest(log[..|log| - 1], r) && !RecordsWait(log[|log| - 1], r.uid)
  {
    hide Lawful;
    var n := |log| - 1;
    assert log == log[..n] + [log[n]];
    if log[n].Stored? {
      var i :| 0 <= i < n && log[i] == Stored(r);
      VersionsInOrder(w, log, i, n);
    }
  }

  lemma {:induction false} WaitsAreCounted(w: World, log: Log, r: Record)
    requires Lawful(w, log) && Stored(r) in log && Latest(log, r)
    ensures RecordedWaits(log, r.uid) <= r.status.polls + Uncounted(r.status)
    decreases |log|
  {
    hide Lawful, Explains;
    var n := |log| - 1;
    var past := log[..n];
    assert log == past + [log[n]];
    LawfulPrefix(w, log, n);
    if Stored(r) in past {
      StoredEarlier(w, log, r);
      WaitsAreCounted(w, past, r);
    } else {
      StoredHere(w, log, n);
      var p, a := Origin(w, past, r);
      if p.None? {
        NoWaits(past, r.uid);
      } else {
        WaitsAreCounted(w, past, p.value);
        if a.Some? {
          MoveCountsWait(w, past, a.value, p.value, r);
        }
      }
    }
  }

  /** The newest version of a record. */
  lemma {:induction false} Newest(log: Log, r: Record) returns (l: Record)
    requires Stored(r) in log
    ensures Stored(l) in log && l.uid == r.uid && Latest(log, l) && r.version <= l.version
    decreases |log|
  {
    var n := |log| - 1;
    assert log == log[..n] + [log[n]];
    if Stored(r) in log[..n] {
      l := Newest(log[..n], r);
      if log[n].Stored? && log[n].record.uid == r.uid && log[n].record.version > l.version {
        l := log[n].record;
      }
    } else if exists q :: Stored(q) in log[..n] && q.uid == r.uid {
      var q :| Stored(q) in log[..n] && q.uid == r.uid;
      l := Newest(log[..n], q);
      if r.version > l.version {
        l := r;
      }
    } else {
      l := r;
    }
  }

  // ----- Nonces

  /** An enrollment message of the record, sent under the nonce, was answered waiting. */
  ghost predicate EnrollmentWaited(log: Log, uid: nat, nonce: Nonce)
  {
    exists a, id ::
      && Answered(a) in log && Defers(a.response, a.to.using.request, id)
      && a.to.record.uid == uid && a.to.purpose.ForEnrollment? && a.to.message.body.Enroll?
      && a.to.message.senderNonce == nonce
  }

  /** A certConf of the record for the leaf, sent under the nonce, was answered waiting. */
  ghost predicate ConfirmationWaited(log: Log, uid: nat, leaf: Certificate, nonce: Nonce)
  {
    exists a ::
      && Answered(a) in log && a.to.record.uid == uid && a.to.purpose.ForConfirmation? && DelaysConfirmation(a.response)
      && a.to.message.body.CertConf? && !a.to.message.body.rejected && a.to.message.body.certificate == leaf
      && a.to.message.senderNonce == nonce
  }

  ghost predicate NonceMeans(log: Log, r: Record)
  {
    && (r.status.phase.Polling? ==>
          r.status.certReqId.Some? && r.status.requestNonce.Nonce?
          && EnrollmentWaited(log, r.uid, r.status.requestNonce))
    && (r.status.phase.Confirming? ==> r.status.chain != [])
    && (r.status.phase.Confirming? && r.status.requestNonce.Nonce? ==>
          ConfirmationWaited(log, r.uid, r.status.chain[0], r.status.requestNonce))
  }

  lemma MoveNonce(w: World, past: Log, a: Answer, p: Record, r: Record)
    requires Moves(w, past, a, p, r) && SameObject(p, r) && NonceMeans(past, p)
    ensures NonceMeans(past, r)
  {
    hide AnsweredOk, EnrollmentOutcome, Bound;
    if EnrollmentDeferred(a, p.status, r.status) && a.to.message.body.Enroll? {
      assert Defers(a.response, a.to.using.request, r.status.certReqId.value);
      assert EnrollmentWaited(past, r.uid, r.status.requestNonce);
    } else if ConfirmationDeferred(a, p.status, r.status) && a.to.message.body.CertConf? {
      assert ConfirmationWaited(past, r.uid, r.status.chain[0], r.status.requestNonce);
    }
  }

  lemma NonceStays(past: Log, log: Log, r: Record)
    requires past <= log && NonceMeans(past, r)
    ensures NonceMeans(log, r)
  {
    assert forall e :: e in past ==> e in log;
  }

  /** What a stored request nonce says, in each phase, about the answers before it. */
  lemma {:induction false} NonceMeaning(w: World, log: Log, i: nat)
    requires Lawful(w, log) && i < |log| && log[i].Stored?
    ensures NonceMeans(log[..i], log[i].record)
    decreases i
  {
    hide Lawful, Explains, NonceMeans;
    var r := log[i].record;
    StoredHere(w, log, i);
    var p, a := Origin(w, log[..i], r);
    if a.Some? {
      var k := IndexOf(log, i, p.value);
      NonceMeaning(w, log, k);
      NonceStays(log[..k], log[..i], p.value);
      MoveNonce(w, log[..i], a.value, p.value, r);
    } else {
      EarlyNonce(log[..i], r);
    }
  }

  lemma EarlyNonce(log: Log, r: Record)
    requires Rank(r.status.phase) == 0
    ensures NonceMeans(log, r)
  {
  }

  // ----- Where the certificate comes from

  /** The answer delivered this certificate under this id and it passed every check. */
  ghost predicate Accepts(w: World, a: Answer, leaf: Certificate, certReqId: int)
  {
    var outcome := EnrollmentOutcome(w, a);
    || (outcome.Completed? && outcome.chain != [] && outcome.chain[0] == leaf && outcome.certReqId == certReqId)
    || (outcome.AwaitsConfirmation? && outcome.chain != [] && outcome.chain[0] == leaf
        && outcome.pending.certReqId == certReqId)
  }

  ghost predicate AcceptedFor(w: World, log: Log, uid: nat, leaf: Certificate, certReqId: int)
  {
    exists a ::
      Answered(a) in log && a.to.record.uid == uid && a.to.purpose.ForEnrollment? && Accepts(w, a, leaf, certReqId)
  }

  ghost predicate LeafAccepted(w: World, log: Log, r: Record)
  {
    && (r.status.phase.Confirming? ==>
          r.status.chain != [] && r.status.certReqId.Some?
          && AcceptedFor(w, log, r.uid, r.status.chain[0], r.status.certReqId.value))
    && (r.status.phase.Issued? ==>
          r.status.chain != [] && exists id :: AcceptedFor(w, log, r.uid, r.status.chain[0], id))
  }

  lemma AcceptingOutcome(w: World, a: Answer)
    ensures var o := EnrollmentOutcome(w, a);
            && (o.Completed? ==> o.chain != [] && Delivers(a.response, a.to.using.request, o.chain[0], o.certReqId))
            && (o.AwaitsConfirmation? ==>
                  o.chain != [] && Delivers(a.response, a.to.using.request, o.chain[0], o.pending.certReqId))
  {
    FinishMeans(w.verify, a.at, a.to.using.request, a.response, a.signer, EnrollmentNonce(a.to));
  }

  lemma MoveAccepts(w: World, past: Log, a: Answer, p: Record, r: Record)
    requires Moves(w, past, a, p, r) && SameObject(p, r) && LeafAccepted(w, past, p)
    ensures LeafAccepted(w, past, r)
  {
    hide EnrollmentOutcome, AnsweredOk, Bound;
    AcceptingOutcome(w, a);
    var outcome := EnrollmentOutcome(w, a);
    if CertificateCompleted(w, a, p.status, r.status) {
      assert Accepts(w, a, r.status.chain[0], outcome.certReqId);
      assert AcceptedFor(w, past, r.uid, r.status.chain[0], outcome.certReqId);
    } else if CertificateDelivered(w, a, p.status, r.status) {
      assert Accepts(w, a, r.status.chain[0], r.status.certReqId.value);
    }
  }

  lemma AcceptanceStays(w: World, past: Log, log: Log, r: Record)
    requires past <= log && LeafAccepted(w, past, r)
    ensures LeafAccepted(w, log, r)
  {
    hide Accepts;
    assert forall e :: e in past ==> e in log;
    forall leaf, id | AcceptedFor(w, past, r.uid, leaf, id) ensures AcceptedFor(w, log, r.uid, leaf, id) {
    }
  }

  lemma EarlyLeaf(w: World, log: Log, r: Record)
    requires Rank(r.status.phase) == 0
    ensures LeafAccepted(w, log, r)
  {
  }

  /** A recorded certificate was delivered to this record's enrollment before, and accepted under the recorded id. */
  lemma {:induction false} LeafOrigin(w: World, log: Log, i: nat)
    requires Lawful(w, log) && i < |log| && log[i].Stored?
    ensures LeafAccepted(w, log[..i], log[i].record)
    decreases i
  {
    hide Lawful, Explains, LeafAccepted;
    var r := log[i].record;
    StoredHere(w, log, i);
    var p, a := Origin(w, log[..i], r);
    if a.Some? {
      var k := IndexOf(log, i, p.value);
      LeafOrigin(w, log, k);
      AcceptanceStays(w, log[..k], log[..i], p.value);
      MoveAccepts(w, log[..i], a.value, p.value, r);
    } else {
      EarlyLeaf(w, log[..i], r);
    }
  }

  // ----- Who signed

  /** The certificate chained to the issuer's anchors when it signed an accepted response of this record. */
  ghost predicate ChainedFor(w: World, log: Log, uid: nat, signer: Certificate)
  {
    exists a :: Answered(a) in log && a.to.record.uid == uid && a.signer == Some(signer)
                && Chains(w.verify, a.at, a.response, a.to.using.request, signer)
  }

  ghost predicate SignerTrusted(w: World, log: Log, uid: nat, signer: Option<Certificate>)
  {
    signer.Some? ==> UsageOk(signer.value) && ChainedFor(w, log, uid, signer.value)
  }

  lemma SignerStays(w: World, past: Log, log: Log, uid: nat, signer: Option<Certificate>)
    requires past <= log && SignerTrusted(w, past, uid, signer)
    ensures SignerTrusted(w, log, uid, signer)
  {
    hide Chains;
    assert forall e :: e in past ==> e in log;
  }

  /** An accepted response is authentic, and its signer chains now or was trusted before. */
  lemma AnswerTrusted(w: World, log: Log, a: Answer)
    requires Sound(w.verify) && Answered(a) in log && AnsweredOk(w, log, a)
             && SignerTrusted(w, log, a.to.record.uid, a.previous)
    ensures Authentic(w.verify, a.at, a.to.message, a.response, a.to.using.request, a.previous, Delayed(a.to), a.signer)
    ensures SignerTrusted(w, log, a.to.record.uid, a.signer)
  {
    hide VerifyResponse, Sound;
    VerifyResponseIff(w.verify, a.at, a.to.message, a.response, a.to.using.request, a.previous, Delayed(a.to));
    hide Chains, FromRecipient;
    if a.signer.Some? && a.previous != a.signer {
      assert ChainedFor(w, log, a.to.record.uid, a.signer.value);
    }
  }

  lemma MoveSigner(w: World, past: Log, a: Answer, p: Record, r: Record)
    requires Sound(w.verify) && Moves(w, past, a, p, r) && SameObject(p, r)
             && SignerTrusted(w, past, p.uid, p.status.responseSigner)
    ensures SignerTrusted(w, past, r.uid, r.status.responseSigner)
  {
    hide Sound, VerifyResponse, EnrollmentOutcome, Bound, SignerTrusted;
    if a.previous.None? {
      NoSigner(w, past, p.uid);
    }
    AnswerTrusted(w, past, a);
  }

  lemma NoSigner(w: World, log: Log, uid: nat)
    ensures SignerTrusted(w, log, uid, None)
  {
  }

  /** A stored response signer always chained to the anchors on an earlier accepted response of the same record. */
  lemma {:induction false} SignerTrust(w: World, log: Log, i: nat)
    requires Sound(w.verify) && Lawful(w, log) && i < |log| && log[i].Stored?
    ensures SignerTrusted(w, log[..i], log[i].record.uid, log[i].record.status.responseSigner)
    decreases i
  {
    hide Lawful, Explains, SignerTrusted, Sound;
    var r := log[i].record;
    StoredHere(w, log, i);
    var p, a := Origin(w, log[..i], r);
    if a.Some? {
      var k := IndexOf(log, i, p.value);
      SignerTrust(w, log, k);
      SignerStays(w, log[..k], log[..i], p.value.uid, p.value.status.responseSigner);
      MoveSigner(w, log[..i], a.value, p.value, r);
    } else {
      NoSigner(w, log[..i], r.uid);
    }
  }

  // ----- Names and identifiers

  /** No two objects share a transaction ID, and a name is reused only after its object is gone. */
  lemma {:induction false} ObjectsApart(w: World, log: Log, i: nat, j: nat)
    requires Lawful(w, log) && i < j < |log| && log[i].Stored? && log[j].Stored?
             && log[i].record.uid != log[j].record.uid
    ensures log[i].record.spec.transactionId != log[j].record.spec.transactionId
    ensures log[i].record.key == log[j].record.key ==> Gone(log[..j], log[i].record.uid)
    decreases j
  {
    hide Lawful, Explains, Gone, Latest;
    var q, r := log[i].record, log[j].record;
    StoredHere(w, log, j);
    assert log[..j][i] == Stored(q);
    var p, a := Origin(w, log[..j], r);
    if p.Some? {
      var k :| 0 <= k < j && log[..j][k] == Stored(p.value);
      if i < k {
        ObjectsApart(w, log, i, k);
        if q.key == r.key {
          GoneStays(log[..k], log[..j], q.uid);
        }
      } else {
        ObjectsApart(w, log, k, i);
        if q.key == r.key {
          GoneStays(log[..i], log[..j], p.value.uid);
          assert false;
        }
      }
    }
  }

  lemma GoneStays(past: Log, log: Log, uid: nat)
    requires past <= log && Gone(past, uid)
    ensures Gone(log, uid)
  {
    assert forall e :: e in past ==> e in log;
  }
}
