/**
 The durable transaction record and what may be written to it
 (internal/controller/transaction_store.go, api/v1alpha1/cmptransaction_types.go).

 The API server keeps one object per name. A create fails when the name is taken, a status update
 fails unless it carries the current resourceVersion, a delete can carry a UID precondition.
 */
module Store {
  import opened Basics
  import opened Certificates
  import opened Protocol
  import opened Configuration
  import opened Workload

  /** Unset is the empty phase of an object whose first status write has not happened. */
  datatype Phase = Unset | Enrolling | Polling | Confirming | Issued

  /** The SHA-256 digest of a CSR, injective and so represented by the CSR. */
  datatype CsrDigest = NoCsrDigest | Sha256(der: Bytes)

  datatype Spec = Spec(
    requestUid: nat, transactionId: nat, deadline: int, csrDigest: CsrDigest, issuer: Option<IssuerRef>,
    configurationDigest: ConfigurationDigest, operation: Option<Operation>, fallback: Option<Reason>)

  datatype Status = Status(
    phase: Phase, chain: Path, recipNonce: Nonce, requestNonce: Nonce, certReqId: Option<int>,
    responseSigner: Option<Certificate>, polls: int)

  const NewStatus := Status(Unset, [], NoNonce, NoNonce, None, None, 0)

  /** One stored version of one object: uid names the object, version its content. */
  datatype Record = Record(key: SecretKey, uid: nat, version: nat, spec: Spec, status: Status)

  type Objects = map<SecretKey, Record>

  // ----- What each writer stores

  function PendingStatus(s: Status, pending: PendingTransaction): Status
  {
    s.(phase := Polling, recipNonce := pending.recipNonce,
       requestNonce := if pending.requestNonce.Nonce? then pending.requestNonce else s.requestNonce,
       certReqId := Some(pending.certReqId),
       responseSigner := if pending.signer.Some? then pending.signer else s.responseSigner)
  }

  /** The request nonce is overwritten even with the empty nonce, because its meaning changes here. */
  function ConfirmingStatus(s: Status, chain: Path, pending: PendingTransaction): Status
  {
    s.(phase := Confirming, chain := chain, recipNonce := pending.recipNonce, requestNonce := pending.requestNonce,
       certReqId := Some(pending.certReqId),
       responseSigner := if pending.signer.Some? then pending.signer else s.responseSigner)
  }

  function IssuedStatus(s: Status, chain: Path): Status { s.(phase := Issued, chain := chain) }

  /** The poll counter is raised before the write, and only when a poll was answered. */
  function CountPoll(s: Status, polled: bool): Status { if polled then s.(polls := s.polls + 1) else s }

  // ----- The API server

  predicate CanUpdate(objects: Objects, r: Record)
  {
    r.key in objects && objects[r.key].uid == r.uid && objects[r.key].version == r.version
  }

  predicate CanDelete(objects: Objects, r: Record) { r.key in objects && objects[r.key].uid == r.uid }

  function NewRecord(key: SecretKey, uid: nat, version: nat, spec: Spec): Record
  {
    Record(key, uid, version, spec, NewStatus)
  }
}
