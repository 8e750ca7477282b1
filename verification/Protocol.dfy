/**
 The decisions of the CMP client (internal/protocol/client.go): which response is accepted, what an
 accepted response means, which message confirms or rejects a certificate.

 The network is adversarial: a response is an arbitrary value. Cryptography enters as facts about a
 response: whether the library verified it under the request's protection, and which certificates'
 keys made its signature.
 */
module Protocol {
  import opened Basics
  import opened Names
  import opened Certificates

  datatype Operation = P10CR | IR | KUR

  /** A nonce that was generated, or the empty nonce of a header that carries none. */
  datatype Nonce = NoNonce | Nonce(value: nat)

  datatype ErrorKind = Permanent | Retryable | Pending | Security

  /** The failure names of the client, and the failure bits a server reports. */
  datatype Failure =
    | BadDataFormat | MissingProtection | BadProtection | TransactionIdMismatch | NonceMismatch
    | UnsupportedVersion | WrongAuthority | UnsupportedBody | WrongEntryCount | CertReqIdMismatch
    | CertReqIdUnsupported | ModificationsGranted | PublicKeyMismatch | UntrustedChain | ValidityNotRenewed
    | StillWaiting | Reported(bit: FailBit) | UnknownStatus

  datatype Error = Error(kind: ErrorKind, failure: Failure)

  datatype Protection = Password(secret: nat) | Signature(certificate: Certificate)

  /** EnrollmentRequest: issuer policy, credentials and trust anchors, the CSR key and the transaction. */
  datatype Request = Request(
    operation: Operation, recipient: Name, implicitConfirm: bool, rejectGrantedMods: bool,
    allowSignedMacResponse: bool, pinnedCertReqId: Option<int>, requireKupCaPubsAbsent: bool,
    protection: Protection, anchors: seq<Certificate>, responseCertificates: seq<Certificate>,
    csrKey: PublicKey, transactionId: nat)

  // ----- Messages

  const StandardCertReqId := -1
  const LegacyCertReqId := 0

  datatype RequestBody =
    | Enroll(operation: Operation)
    | PollReq(certReqId: int)
    | CertConf(certificate: Certificate, certReqId: int, rejected: bool)

  datatype Message = Message(transactionId: nat, senderNonce: Nonce, recipNonce: Nonce, version: int, body: RequestBody)

  /** A certificate field of a response, which may not parse. */
  datatype Encoded = Der(certificate: Certificate) | Garbage(raw: nat)

  datatype PkiStatus = Accepted | GrantedWithMods | Rejection | Waiting | OtherStatus

  datatype FailBit =
    | BadMessageCheck | SignerNotTrusted | NotAuthorized | BadPop | BadCertTemplate | BadAlg
    | TransactionIdInUse | BadRequest | SystemUnavail | SystemFailure | OtherFailure

  datatype StatusInfo = StatusInfo(status: PkiStatus, failInfo: set<FailBit>)

  datatype CertResponse = CertResponse(certReqId: int, status: StatusInfo, certificate: Option<Encoded>)

  datatype CertRep = CertRep(responses: seq<CertResponse>, caPubs: seq<Encoded>)

  datatype PollEntry = PollEntry(certReqId: int, checkAfter: int)

  /** None stands for content that does not parse as its body type. */
  datatype ResponseBody =
    | ErrorBody(status: Option<StatusInfo>)
    | CertRepBody(answers: Operation, reply: Option<CertRep>)
    | PollRepBody(entries: Option<seq<PollEntry>>)
    | PkiConf
    | OtherBody

  datatype Response = Response(
    protected: bool, verified: bool, signedBy: set<Certificate>, extraCerts: seq<Encoded>, sender: Name,
    transactionId: nat, senderNonce: Nonce, recipNonce: Nonce, version: int, grantsImplicit: bool, body: ResponseBody)

  // ----- verifyResponse

  function Parsed(encoded: seq<Encoded>): (r: seq<Certificate>)
    ensures forall c :: c in r <==> Der(c) in encoded
  {
    if encoded == [] then []
    else (if encoded[0].Der? then [encoded[0].certificate] else []) + Parsed(encoded[1..])
  }

  function SignerCandidates(response: Response, request: Request): seq<Certificate>
  {
    Parsed(response.extraCerts) + request.anchors + request.responseCertificates
  }

  /** verifyTrustedSignature: the first candidate that chains to the anchors and made the signature. */
  function FirstTrustedSigner(verify: Verifier, now: int, signedBy: set<Certificate>, roots: seq<Certificate>,
                              pool: seq<Certificate>, candidates: seq<Certificate>): Option<Certificate>
  {
    if candidates == [] then None
    else if VerifyChain(verify, candidates[0], roots, pool, now).Some? && candidates[0] in signedBy
        then Some(candidates[0])
    else FirstTrustedSigner(verify, now, signedBy, roots, pool, candidates[1..])
  }

  function TrustedSigner(verify: Verifier, now: int, response: Response, request: Request): Option<Certificate>
  {
    var candidates := SignerCandidates(response, request);
    FirstTrustedSigner(verify, now, response.signedBy, request.anchors, candidates, candidates)
  }

  method ParseCandidates(encoded: seq<Encoded>) returns (parsed: seq<Certificate>)
    ensures parsed == Parsed(encoded)
  {
    parsed := [];
    for i := 0 to |encoded|
      invariant Parsed(encoded) == parsed + Parsed(encoded[i..])
    {
      assert encoded[i..][1..] == encoded[i + 1..];
      if encoded[i].Der? {
        parsed := parsed + [encoded[i].certificate];
      }
    }
  }

  method FindTrustedSigner(verify: Verifier, now: int, response: Response, request: Request)
      returns (r: Option<Certificate>)
    ensures r == TrustedSigner(verify, now, response, request)
  {
    var extra := ParseCandidates(response.extraCerts);
    var parsed := extra + request.anchors + request.responseCertificates;
    for i := 0 to |parsed|
      invariant FirstTrustedSigner(verify, now, response.signedBy, request.anchors, parsed, parsed) ==
                FirstTrustedSigner(verify, now, response.signedBy, request.anchors, parsed, parsed[i..])
    {
      assert parsed[i..][1..] == parsed[i + 1..];
      if VerifyChain(verify, parsed[i], request.anchors, parsed, now).None? {
        continue;
      }
      if parsed[i] in response.signedBy {
        return Some(parsed[i]);
      }
    }
    return None;
  }

  predicate SignatureAccepted(request: Request) { request.protection.Signature? || request.allowSignedMacResponse }

  /** The protection part of verifyResponse: the signer it settles on, or None for a MAC. */
  function VerifyProtection(verify: Verifier, now: int, response: Response, request: Request,
                            previousSigner: Option<Certificate>): Result<Option<Certificate>, Error>
  {
    var trusted := TrustedSigner(verify, now, response, request);
    if request.protection.Password? && response.verified then Ok(None)
    else if request.protection.Signature? && response.verified && trusted.Some? then Ok(trusted)
    else if SignatureAccepted(request) && previousSigner.Some? && previousSigner.value in response.signedBy
        then Ok(previousSigner)
    else if SignatureAccepted(request) && trusted.Some? then Ok(trusted)
    else Err(Error(Security, BadProtection))
  }

  predicate AcceptableRecipNonce(recipNonce: Nonce, requestNonce: Nonce, delayedNonce: Nonce)
  {
    recipNonce == requestNonce || (delayedNonce != NoNonce && recipNonce == delayedNonce)
  }

  function VerifyResponse(verify: Verifier, now: int, message: Message, response: Response, request: Request,
                          previousSigner: Option<Certificate>, delayedNonce: Nonce): Result<Option<Certificate>, Error>
  {
    if !response.protected then Err(Error(Security, MissingProtection))
    else match VerifyProtection(verify, now, response, request, previousSigner)
      case Err(e) => Err(e)
      case Ok(signer) =>
        if signer.Some? && !UsageOk(signer.value) then Err(Error(Security, BadProtection))
        else if response.transactionId != message.transactionId then Err(Error(Security, TransactionIdMismatch))
        else if !AcceptableRecipNonce(response.recipNonce, message.senderNonce, delayedNonce)
            then Err(Error(Security, NonceMismatch))
        else if response.version != 2 && response.version != message.version
            then Err(Error(Permanent, UnsupportedVersion))
        else if !SenderMatchesRecipient(response.sender, request.recipient) then Err(Error(Security, WrongAuthority))
        else Ok(signer)
  }

  /** The response names the addressed authority: the same attributes, in any order and grouping. */
  ghost predicate FromRecipient(response: Response, request: Request)
  {
    && response.sender != []
    && (request.recipient == [] || multiset(Flatten(response.sender)) == multiset(Flatten(request.recipient)))
  }

  /** A certificate that chains to the issuer's anchors through what the response and issuer offer. */
  ghost predicate Chains(verify: Verifier, now: int, response: Response, request: Request, signer: Certificate)
  {
    && signer in SignerCandidates(response, request)
    && VerifyChain(verify, signer, request.anchors, SignerCandidates(response, request), now).Some?
  }

  /** What protects an accepted response: the shared secret, a chained signer or the transaction's earlier signer. */
  ghost predicate ProtectedBy(verify: Verifier, now: int, response: Response, request: Request,
                              previousSigner: Option<Certificate>, signer: Option<Certificate>)
  {
    match signer
    case None => request.protection.Password? && response.verified
    case Some(c) =>
      && SignatureAccepted(request) && c in response.signedBy && UsageOk(c)
      && (previousSigner == Some(c) || Chains(verify, now, response, request, c))
  }

  /** Everything an accepted response satisfies, apart from its body. */
  ghost predicate Authentic(verify: Verifier, now: int, message: Message, response: Response, request: Request,
                            previousSigner: Option<Certificate>, delayedNonce: Nonce, signer: Option<Certificate>)
  {
    && response.protected
    && ProtectedBy(verify, now, response, request, previousSigner, signer)
    && response.transactionId == message.transactionId
    && (response.recipNonce == message.senderNonce || (delayedNonce.Nonce? && response.recipNonce == delayedNonce))
    && (response.version == 2 || response.version == message.version)
    && FromRecipient(response, request)
  }

  lemma {:induction false} FirstTrustedSignerIff(verify: Verifier, now: int, signedBy: set<Certificate>,
                                                 roots: seq<Certificate>,
                                                 pool: seq<Certificate>, candidates: seq<Certificate>)
    ensures var r := FirstTrustedSigner(verify, now, signedBy, roots, pool, candidates);
            && (r.Some? <==>
                  exists c :: c in candidates && VerifyChain(verify, c, roots, pool, now).Some? && c in signedBy)
            && (r.Some? ==>
                  r.value in candidates && VerifyChain(verify, r.value, roots, pool, now).Some? && r.value in signedBy)
  {
    if candidates != [] {
      FirstTrustedSignerIff(verify, now, signedBy, roots, pool, candidates[1..]);
      assert candidates == [candidates[0]] + candidates[1..];
    }
  }

  /** The protection check succeeds exactly when something protects the response, and what it names does. */
  lemma ProtectionIff(verify: Verifier, now: int, response: Response, request: Request,
                      previousSigner: Option<Certificate>)
    requires Sound(verify) && (previousSigner.Some? ==> UsageOk(previousSigner.value))
    ensures var r := VerifyProtection(verify, now, response, request, previousSigner);
            && (r.Ok? ==>
                  ProtectedBy(verify, now, response, request, previousSigner, r.value)
                  && (r.value.Some? ==> UsageOk(r.value.value)))
            && (r.Ok? <== exists signer :: ProtectedBy(verify, now, response, request, previousSigner, signer))
            && (r == Ok(None) <==> request.protection.Password? && response.verified)
            && (ProtectedBy(verify, now, response, request, previousSigner, previousSigner) && !response.verified ==>
                  r == Ok(previousSigner))
  {
    hide Sound;
    var candidates := SignerCandidates(response, request);
    FirstTrustedSignerIff(verify, now, response.signedBy, request.anchors, candidates, candidates);
    var trusted := TrustedSigner(verify, now, response, request);
    if trusted.Some? {
      VerifyChainIff(verify, trusted.value, request.anchors, candidates, now);
      assert UsageOk(trusted.value);
    }
    hide FirstTrustedSigner, VerifyChain, ValidPath;
  }

  /** A response is accepted exactly when it is authentic, and the signer reported is one that protects it. */
  lemma VerifyResponseIff(verify: Verifier, now: int, message: Message, response: Response, request: Request,
                          previousSigner: Option<Certificate>, delayedNonce: Nonce)
    requires Sound(verify) && (previousSigner.Some? ==> UsageOk(previousSigner.value))
    ensures var r := VerifyResponse(verify, now, message, response, request, previousSigner, delayedNonce);
            && (r.Ok? ==> Authentic(verify, now, message, response, request, previousSigner, delayedNonce, r.value))
            && (r.Ok? <== exists signer ::
                  Authentic(verify, now, message, response, request, previousSigner, delayedNonce, signer))
  {
    hide Sound, VerifyProtection, ProtectedBy, SenderMatchesRecipient;
    ProtectionIff(verify, now, response, request, previousSigner);
    SenderMatchesRecipientIff(response.sender, request.recipient);
  }

  /** Whatever the verifier and whoever the earlier signer, a reported signer satisfies the usage rule. */
  lemma ReportedSignerUsage(verify: Verifier, now: int, message: Message, response: Response, request: Request,
                            previousSigner: Option<Certificate>, delayedNonce: Nonce)
    ensures var r := VerifyResponse(verify, now, message, response, request, previousSigner, delayedNonce);
            r.Ok? && r.value.Some? ==> UsageOk(r.value.value)
  {
    hide VerifyProtection, SenderMatchesRecipient;
  }

  // ----- classifyStatus

  const PermanentBits: set<FailBit> :=
    {BadPop, BadRequest, BadCertTemplate, NotAuthorized, BadAlg, BadMessageCheck, SignerNotTrusted, TransactionIdInUse}

  /** The first bit, in order of weight, that is set. */
  function FirstBit(bits: set<FailBit>, order: seq<FailBit>): Failure
  {
    if order == [] then UnknownStatus else if order[0] in bits then Reported(order[0]) else FirstBit(bits, order[1..])
  }

  const PermanentOrder: seq<FailBit> :=
    [BadMessageCheck, SignerNotTrusted, NotAuthorized, BadPop, BadCertTemplate, BadAlg, TransactionIdInUse, BadRequest]

  function BoundedFailure(bits: set<FailBit>): Failure
  {
    FirstBit(bits, PermanentOrder + [SystemUnavail, SystemFailure])
  }

  function ClassifyStatus(info: StatusInfo): Option<Error>
  {
    if info.status.Accepted? || info.status.GrantedWithMods? then None
    else if info.status.Waiting? then Some(Error(Pending, StillWaiting))
    else if info.failInfo * PermanentBits != {} then Some(Error(Permanent, BoundedFailure(info.failInfo)))
    else if SystemUnavail in info.failInfo || SystemFailure in info.failInfo
        then Some(Error(Retryable, BoundedFailure(info.failInfo)))
    else Some(Error(Permanent, UnknownStatus))
  }

  lemma {:induction false} FirstBitMeans(bits: set<FailBit>, first: seq<FailBit>, rest: seq<FailBit>)
    ensures var f := FirstBit(bits, first + rest);
            && (f.Reported? <==> exists b :: b in first + rest && b in bits)
            && (f.Reported? ==> f.bit in bits && (f.bit in first || (forall b :: b in first ==> b !in bits)))
            && (!f.Reported? ==> f == UnknownStatus)
    decreases |first + rest|
  {
    var order := first + rest;
    if order != [] {
      assert order == [order[0]] + order[1..];
      if first != [] {
        assert order[1..] == first[1..] + rest && first == [first[0]] + first[1..];
        FirstBitMeans(bits, first[1..], rest);
      } else {
        assert order[1..] == [] + rest[1..];
        FirstBitMeans(bits, [], rest[1..]);
      }
    }
  }

  /**
   A retry happens only for a system failure no permanent bit accompanies, and the bit that names a
   failure explains its kind.
   */
  lemma StatusKinds(info: StatusInfo)
    ensures var r := ClassifyStatus(info);
            && (r.None? <==> info.status.Accepted? || info.status.GrantedWithMods?)
            && (r.Some? && r.value.kind.Pending? <==> info.status.Waiting?)
            && (r.Some? && r.value.kind.Retryable? <==>
                  && (info.status.Rejection? || info.status.OtherStatus?)
                  && info.failInfo * PermanentBits == {} && info.failInfo * {SystemUnavail, SystemFailure} != {})
            && (r.Some? && r.value.failure.Reported? ==>
                  r.value.failure.bit in info.failInfo
                  && (r.value.kind.Permanent? <==> r.value.failure.bit in PermanentBits))
            && (r.Some? && !info.status.Waiting?
                && (r.value.kind.Retryable? || info.failInfo * PermanentBits != {}) ==>
                  r.value.failure.Reported?)
  {
    var permanent, f := info.failInfo * PermanentBits, BoundedFailure(info.failInfo);
    NamedBit(info.failInfo);
    hide FirstBit, BoundedFailure;
    assert f.Reported? ==> (f.bit in permanent <==> f.bit in PermanentBits);
    assert info.failInfo * {SystemUnavail, SystemFailure} != {} <==>
             SystemUnavail in info.failInfo || SystemFailure in info.failInfo by {
      assert SystemUnavail in info.failInfo ==> SystemUnavail in info.failInfo * {SystemUnavail, SystemFailure};
      assert SystemFailure in info.failInfo ==> SystemFailure in info.failInfo * {SystemUnavail, SystemFailure};
    }
  }

  /** The bits by weight, the most security-relevant first. */
  const ByWeight: seq<FailBit> :=
    [BadMessageCheck, SignerNotTrusted, NotAuthorized, BadPop, BadCertTemplate, BadAlg, TransactionIdInUse, BadRequest,
     SystemUnavail, SystemFailure]

  /**
   A failure is named by the heaviest bit the server set, and all but system failures and unknown bits
   are permanent.
   */
  lemma HeaviestBit(bits: set<FailBit>, i: nat, b: FailBit)
    requires i < |ByWeight|
    ensures BoundedFailure(bits) == Reported(ByWeight[i]) <==>
            ByWeight[i] in bits && forall j :: 0 <= j < i ==> ByWeight[j] !in bits
    ensures b in PermanentBits <==> b != SystemUnavail && b != SystemFailure && b != OtherFailure
  {
    assert PermanentOrder + [SystemUnavail, SystemFailure] == ByWeight;
    FirstBitAt(bits, ByWeight, i);
  }

  lemma {:induction false} FirstBitAt(bits: set<FailBit>, order: seq<FailBit>, i: nat)
    requires i < |order| && forall j, k :: 0 <= j < k < |order| ==> order[j] != order[k]
    ensures FirstBit(bits, order) == Reported(order[i]) <==>
            order[i] in bits && forall j :: 0 <= j < i ==> order[j] !in bits
  {
    if i > 0 {
      assert forall j :: 0 < j < |order| ==> order[j] == order[1..][j - 1];
      FirstBitAt(bits, order[1..], i - 1);
    } else {
      FirstBitMeans(bits, [], order[1..]);
      assert [] + order[1..] == order[1..];
    }
  }

  /** Permanent bits are named before system failures. */
  lemma NamedBit(bits: set<FailBit>)
    ensures var f := BoundedFailure(bits);
            && (f.Reported? ==> f.bit in bits)
            && (bits * PermanentBits != {} ==> f.Reported? && f.bit in PermanentBits)
            && (SystemUnavail in bits || SystemFailure in bits ==> f.Reported?)
  {
    var rest := [SystemUnavail, SystemFailure];
    FirstBitMeans(bits, PermanentOrder, rest);
    hide FirstBit;
    assert forall b :: b in PermanentBits <==> b in PermanentOrder;
    assert SystemUnavail in PermanentOrder + rest && SystemFailure in PermanentOrder + rest;
    if bits * PermanentBits != {} {
      var b :| b in bits * PermanentBits;
      assert b in PermanentOrder + rest;
    }
  }

  // ----- extractEnrollmentResponse

  /** NothingIssued is the zero value returned, without an error, for an error body whose status is not a failure. */
  datatype Issued =
    | NothingIssued
    | Undecided(certReqId: int)
    | Certified(certificate: Certificate, candidates: seq<Certificate>, certReqId: int, implicitGranted: bool,
                grantedWithMods: bool)

  function AcceptResponseCertReqId(operation: Operation, observed: int, pinned: Option<int>): Option<Error>
  {
    if operation.IR? || operation.KUR? then
      if observed != 0 then Some(Error(Security, CertReqIdMismatch)) else None
    else if pinned.Some? then
      if observed != pinned.value then Some(Error(Security, CertReqIdMismatch)) else None
    else if observed != StandardCertReqId && observed != LegacyCertReqId
        then Some(Error(Security, CertReqIdUnsupported))
    else None
  }

  /** 0 for IR and KUR, the pinned id when the issuer pins one, otherwise -1 or 0. */
  predicate IdAllowed(operation: Operation, pinned: Option<int>, certReqId: int)
  {
    match operation
    case P10CR => if pinned.Some? then certReqId == pinned.value else certReqId == -1 || certReqId == 0
    case _ => certReqId == 0
  }

  /** parseResponseCertificates: all certificates once each, or None when one does not parse. */
  function ParseOnce(encoded: seq<Encoded>, seen: seq<Certificate>): Option<seq<Certificate>>
  {
    if encoded == [] then Some(seen)
    else match encoded[0]
      case Garbage(_) => None
      case Der(c) => ParseOnce(encoded[1..], if c in seen then seen else seen + [c])
  }

  /** Parsing fails exactly when a field does not parse, and yields every certificate once. */
  lemma {:induction false} ParseOnceMeans(encoded: seq<Encoded>, seen: seq<Certificate>)
    ensures var r := ParseOnce(encoded, seen);
            && (r.None? <==> exists e :: e in encoded && e.Garbage?)
            && (r.Some? ==> forall c :: c in r.value <==> c in seen || Der(c) in encoded)
            && (r.Some? && Once(seen) ==> Once(r.value))
  {
    if encoded != [] && encoded[0].Der? {
      var c := encoded[0].certificate;
      assert encoded == [Der(c)] + encoded[1..];
      ParseOnceMeans(encoded[1..], if c in seen then seen else seen + [c]);
    } else if encoded != [] {
      assert encoded[0] in encoded;
    }
  }

  predicate Once(certificates: seq<Certificate>)
  {
    forall i, j :: 0 <= i < j < |certificates| ==> certificates[i] != certificates[j]
  }

  method ParseResponseCertificates(caPubs: seq<Encoded>, extraCerts: seq<Encoded>) returns (r: Option<seq<Certificate>>)
    ensures r == ParseOnce(caPubs + extraCerts, [])
  {
    var all, candidates := caPubs + extraCerts, [];
    for i := 0 to |all|
      invariant ParseOnce(all, []) == ParseOnce(all[i..], candidates)
    {
      assert all[i..][1..] == all[i + 1..];
      if all[i].Der? && all[i].certificate in candidates {
        continue;
      }
      if all[i].Garbage? {
        return None;
      }
      candidates := candidates + [all[i].certificate];
    }
    return Some(candidates);
  }

  function Extract(response: Response, request: Request): Result<Issued, Error>
  {
    if response.body.ErrorBody? then
      if response.body.status.None? then Err(Error(Permanent, BadDataFormat))
      else match ClassifyStatus(response.body.status.value)
        case Some(e) => Err(e)
        case None => Ok(NothingIssued)
    else if !response.body.CertRepBody? || response.body.answers != request.operation
        then Err(Error(Permanent, UnsupportedBody))
    else if response.body.reply.None? then Err(Error(Permanent, BadDataFormat))
    else
      var reply := response.body.reply.value;
      if |reply.responses| != 1 then Err(Error(Permanent, WrongEntryCount))
      else
        var answer := reply.responses[0];
        match AcceptResponseCertReqId(request.operation, answer.certReqId, request.pinnedCertReqId)
        case Some(e) => Err(e)
        case None =>
          if answer.status.status.Waiting? then Ok(Undecided(answer.certReqId))
          else match ClassifyStatus(answer.status)
            case Some(e) => Err(e)
            case None =>
              if answer.certificate.None? || answer.certificate.value.Garbage? then Err(Error(Permanent, BadDataFormat))
              else if request.operation.KUR? && request.requireKupCaPubsAbsent && reply.caPubs != []
                  then Err(Error(Permanent, BadDataFormat))
              else match ParseOnce(reply.caPubs + response.extraCerts, [])
                case None => Err(Error(Permanent, BadDataFormat))
                case Some(candidates) =>
                  Ok(Certified(answer.certificate.value.certificate, candidates, answer.certReqId,
                               response.grantsImplicit, answer.status.status.GrantedWithMods?))
  }

  // ----- finishTransaction and completeOrRefuse

  datatype PendingTransaction = PendingTransaction(
    certReqId: int, recipNonce: Nonce, signer: Option<Certificate>, checkAfter: int, requestNonce: Nonce)

  datatype Refusal = Refusal(certificate: Certificate, certReqId: int, recipNonce: Nonce, signer: Option<Certificate>)

  /** What an authenticated enrollment response leads to. Panics is a nil dereference. */
  datatype Outcome =
    | Waits(pending: PendingTransaction)
    | Completed(chain: Path, certReqId: int)
    | AwaitsConfirmation(chain: Path, pending: PendingTransaction)
    | Refuses(error: Error, refusal: Option<Refusal>)
    | Fails(error: Error)
    | Panics

  predicate SameValidity(a: Certificate, b: Certificate) { a.notBefore == b.notBefore && a.notAfter == b.notAfter }

  function Finish(verify: Verifier, now: int, request: Request, response: Response, signer: Option<Certificate>,
                  delayedNonce: Nonce): Outcome
  {
    match Extract(response, request)
    case Err(e) => Fails(e)
    case Ok(NothingIssued) => Panics
    case Ok(Undecided(certReqId)) => Waits(PendingTransaction(certReqId, response.senderNonce, signer, 0, delayedNonce))
    case Ok(Certified(certificate, candidates, certReqId, implicitGranted, grantedWithMods)) =>
      var implicit := request.implicitConfirm && implicitGranted;
      var refusal := if implicit then None else Some(Refusal(certificate, certReqId, response.senderNonce, signer));
      if grantedWithMods && request.rejectGrantedMods then Refuses(Error(Permanent, ModificationsGranted), refusal)
      else if request.csrKey != certificate.key then Refuses(Error(Security, PublicKeyMismatch), refusal)
      else match ValidateAndOrderChain(verify, certificate, candidates + request.responseCertificates, request.anchors,
                                       now)
        case None => Refuses(Error(Security, UntrustedChain), refusal)
        case Some(chain) =>
          if request.operation.KUR? && request.protection.Password? then Panics
          else if request.operation.KUR? && SameValidity(certificate, request.protection.certificate) then
            Refuses(Error(Permanent, ValidityNotRenewed), refusal)
          else if implicit then Completed(chain, certReqId)
          else AwaitsConfirmation(chain, PendingTransaction(certReqId, response.senderNonce, signer, 0, NoNonce))
  }

  /** How the delivery of a rejecting certConf ended. */
  datatype Delivery = Acknowledged | Undelivered

  /** The refusal as it is reported; a failed delivery is added to its description. */
  datatype ReportedRefusal = ReportedRefusal(error: Error, annotated: bool)

  function RejectCertificate(reason: Error, delivery: Delivery): ReportedRefusal
  {
    ReportedRefusal(reason, delivery.Undelivered?)
  }

  // ----- pollRep, certConf and its answers

  const Second := 1_000_000_000

  /** time.Duration(seconds) * time.Second in 64-bit two's complement. */
  function SecondsToDuration(seconds: int): (d: int)
    ensures -0x8000_0000_0000_0000 <= d < 0x8000_0000_0000_0000
    ensures (d - seconds * Second) % 0x1_0000_0000_0000_0000 == 0
  {
    (seconds * Second + 0x8000_0000_0000_0000) % 0x1_0000_0000_0000_0000 - 0x8000_0000_0000_0000
  }

  function CheckPollEntries(entries: Option<seq<PollEntry>>, expected: int): Result<int, Error>
  {
    if entries.None? then Err(Error(Permanent, BadDataFormat))
    else if |entries.value| != 1 then Err(Error(Permanent, WrongEntryCount))
    else if entries.value[0].certReqId != expected then Err(Error(Security, CertReqIdMismatch))
    else if entries.value[0].checkAfter < 0 then Err(Error(Permanent, WrongEntryCount))
    else Ok(SecondsToDuration(entries.value[0].checkAfter))
  }

  function ExtractPollRep(response: Response, expected: int, signer: Option<Certificate>,
                          delayedNonce: Nonce): Result<PendingTransaction, Error>
    requires response.body.PollRepBody?
  {
    match CheckPollEntries(response.body.entries, expected)
    case Err(e) => Err(e)
    case Ok(checkAfter) => Ok(PendingTransaction(expected, response.senderNonce, signer, checkAfter, delayedNonce))
  }

  function EnrollMessage(request: Request, nonce: nat): Message
  {
    Message(request.transactionId, Nonce(nonce), NoNonce, 2, Enroll(request.operation))
  }

  function PollMessage(request: Request, nonce: nat, certReqId: int, recipNonce: Nonce): Message
  {
    Message(request.transactionId, Nonce(nonce), recipNonce, 2, PollReq(certReqId))
  }

  /** A certificate signed with ML-DSA needs a hashAlg in its CertStatus, which makes the exchange CMPv3. */
  function ConfirmationVersion(certificate: Certificate): int { if certificate.signer.algorithm.MlDsa? then 3 else 2 }

  /** The certConf that starts a confirmation or a rejection, or the pollReq that resumes a confirmation. */
  function ConfirmationMessage(request: Request, nonce: nat, certificate: Certificate, pending: PendingTransaction,
                               rejected: bool): Message
  {
    Message(request.transactionId, Nonce(nonce), pending.recipNonce, ConfirmationVersion(certificate),
            if pending.requestNonce.Nonce? then PollReq(StandardCertReqId)
            else CertConf(certificate, pending.certReqId, rejected))
  }

  function ConfirmationDelay(response: Response): Result<int, Error>
  {
    match response.body
    case ErrorBody(None) => Err(Error(Permanent, BadDataFormat))
    case ErrorBody(Some(info)) =>
      if info.status.Waiting? then Ok(0)
      else (match ClassifyStatus(info) case Some(e) => Err(e) case None => Err(Error(Permanent, UnsupportedBody)))
    case PollRepBody(entries) => CheckPollEntries(entries, StandardCertReqId)
    case _ => Err(Error(Permanent, UnsupportedBody))
  }

  /** What an authenticated answer to a certConf or its poll leads to: None is pkiConf. */
  function Confirm(response: Response, message: Message,
                   pending: PendingTransaction): Result<Option<PendingTransaction>, Error>
  {
    if response.body.PkiConf? then Ok(None)
    else match ConfirmationDelay(response)
      case Err(e) => Err(e)
      case Ok(checkAfter) =>
        Ok(Some(PendingTransaction(pending.certReqId, response.senderNonce, pending.signer, checkAfter,
                                   if pending.requestNonce.Nonce? then pending.requestNonce else message.senderNonce)))
  }

  // ----- The refusal algebra

  /** The response hands over a certificate: a single answer with a decided, successful status and a usable id. */
  ghost predicate Delivers(response: Response, request: Request, certificate: Certificate, certReqId: int)
  {
    && response.body.CertRepBody? && response.body.answers == request.operation && response.body.reply.Some?
    && var reply := response.body.reply.value;
    && |reply.responses| == 1 && reply.responses[0].certReqId == certReqId
    && reply.responses[0].certificate == Some(Der(certificate))
    && (reply.responses[0].status.status.Accepted? || reply.responses[0].status.status.GrantedWithMods?)
    && IdAllowed(request.operation, request.pinnedCertReqId, certReqId)
  }

  /** The response accepts the request without deciding it. */
  ghost predicate Defers(response: Response, request: Request, certReqId: int)
  {
    && response.body.CertRepBody? && response.body.answers == request.operation && response.body.reply.Some?
    && var reply := response.body.reply.value;
    && |reply.responses| == 1 && reply.responses[0].certReqId == certReqId
    && reply.responses[0].status.status.Waiting?
    && IdAllowed(request.operation, request.pinnedCertReqId, certReqId)
  }

  predicate ImplicitlyConfirmed(response: Response, request: Request)
  {
    request.implicitConfirm && response.grantsImplicit
  }

  /** Everything a path may use: what the response carries and what the issuer is configured with. */
  function Offered(response: Response, request: Request): seq<Certificate>
  {
    var issued := Extract(response, request);
    (if issued.Ok? && issued.value.Certified? then issued.value.candidates else []) + request.responseCertificates
  }

  /** Some path from the certificate to an anchor has legal usages. */
  ghost predicate HasPath(now: int, response: Response, request: Request, certificate: Certificate)
  {
    exists path ::
      && ValidPath(certificate, request.anchors, Without(Offered(response, request), certificate), now, path)
      && AllUsageOk(path)
  }

  /**
   A delivered certificate the issuer must keep: the CSR key, an anchored path, permitted modifications,
   a renewed validity.
   */
  ghost predicate Acceptable(now: int, response: Response, request: Request, certificate: Certificate, certReqId: int)
    requires Delivers(response, request, certificate, certReqId)
  {
    && (response.body.reply.value.responses[0].status.status.GrantedWithMods? ==> !request.rejectGrantedMods)
    && certificate.key == request.csrKey
    && HasPath(now, response, request, certificate)
    && (request.operation.KUR? && request.protection.Signature? ==>
          !SameValidity(certificate, request.protection.certificate))
  }

  /** The first thing wrong with a delivered certificate that is not acceptable. */
  ghost function Objection(now: int, response: Response, request: Request, certificate: Certificate): Error
    requires exists certReqId :: Delivers(response, request, certificate, certReqId)
  {
    if response.body.reply.value.responses[0].status.status.GrantedWithMods? && request.rejectGrantedMods then
      Error(Permanent, ModificationsGranted)
    else if certificate.key != request.csrKey then Error(Security, PublicKeyMismatch)
    else if !HasPath(now, response, request, certificate) then Error(Security, UntrustedChain)
    else Error(Permanent, ValidityNotRenewed)
  }

  /** What each outcome says about the response, in terms of the message alone. */
  lemma FinishMeans(verify: Verifier, now: int, request: Request, response: Response, signer: Option<Certificate>,
                    delayedNonce: Nonce)
    ensures var o := Finish(verify, now, request, response, signer, delayedNonce);
            && (o.Waits? ==> && Defers(response, request, o.pending.certReqId)
                             && o.pending == PendingTransaction(o.pending.certReqId, response.senderNonce, signer, 0,
                                                                delayedNonce))
            && (o.Completed? ==>
                  o.chain != [] && Delivers(response, request, o.chain[0], o.certReqId)
                  && ImplicitlyConfirmed(response, request))
            && (o.AwaitsConfirmation? ==>
                  && o.chain != [] && Delivers(response, request, o.chain[0], o.pending.certReqId)
                  && !ImplicitlyConfirmed(response, request)
                  && o.pending == PendingTransaction(o.pending.certReqId, response.senderNonce, signer, 0, NoNonce))
            && (o.Refuses? && o.refusal.Some? ==>
                  && Delivers(response, request, o.refusal.value.certificate, o.refusal.value.certReqId)
                  && !ImplicitlyConfirmed(response, request))
  {
    var issued := Extract(response, request);
    if issued.Ok? && issued.value.Certified? {
      ExtractMeans(response, request);
      ValidatedLeaf(verify, issued.value.certificate, issued.value.candidates + request.responseCertificates,
                    request.anchors, now);
    }
  }

  lemma ExtractMeans(response: Response, request: Request)
    requires Extract(response, request).Ok? && Extract(response, request).value.Certified?
    ensures var c := Extract(response, request).value;
            && Delivers(response, request, c.certificate, c.certReqId) && c.implicitGranted == response.grantsImplicit
            && c.grantedWithMods == response.body.reply.value.responses[0].status.status.GrantedWithMods?
  {
  }

  /**
   A certificate is extracted exactly when the response hands one over, every certificate in it parses
   and a KUP omits caPubs where required.
   */
  lemma ExtractedIff(response: Response, request: Request)
    ensures Extract(response, request).Ok? && Extract(response, request).value.Certified? <==>
            && (exists certificate, certReqId :: Delivers(response, request, certificate, certReqId))
            && (request.operation.KUR? && request.requireKupCaPubsAbsent ==> response.body.reply.value.caPubs == [])
            && (forall e :: e in response.body.reply.value.caPubs + response.extraCerts ==> e.Der?)
  {
    if certificate, certReqId :| Delivers(response, request, certificate, certReqId) {
      ParseOnceMeans(response.body.reply.value.caPubs + response.extraCerts, []);
    } else if Extract(response, request).Ok? && Extract(response, request).value.Certified? {
      ExtractMeans(response, request);
      assert false;
    }
  }

  /** What a path may use is exactly what the response and the issuer offer. */
  lemma OfferedIff(response: Response, request: Request, c: Certificate)
    requires Extract(response, request).Ok? && Extract(response, request).value.Certified?
    ensures c in Offered(response, request) <==>
              Der(c) in response.body.reply.value.caPubs + response.extraCerts || c in request.responseCertificates
  {
    ParseOnceMeans(response.body.reply.value.caPubs + response.extraCerts, []);
  }

  /** An acceptable certificate is one whose chain the verifier finds. */
  lemma AcceptableIff(verify: Verifier, now: int, request: Request, response: Response, certificate: Certificate,
                      certReqId: int)
    requires Sound(verify) && Delivers(response, request, certificate, certReqId)
    ensures var chain := ValidateAndOrderChain(verify, certificate, Offered(response, request), request.anchors, now);
            && (Acceptable(now, response, request, certificate, certReqId) <==>
                  && (response.body.reply.value.responses[0].status.status.GrantedWithMods? ==>
                        !request.rejectGrantedMods)
                  && certificate.key == request.csrKey && chain.Some?
                  && (request.operation.KUR? && request.protection.Signature? ==>
                        !SameValidity(certificate, request.protection.certificate)))
            && (chain.Some? <==> HasPath(now, response, request, certificate))
            && (chain.Some? ==> OrderedChain(certificate, chain.value))
  {
    hide Sound, Extract;
    var pool := Without(Offered(response, request), certificate);
    VerifyChainIff(verify, certificate, request.anchors, pool, now);
    var path := VerifyChain(verify, certificate, request.anchors, pool, now);
    if path.Some? {
      TrimmedChain(certificate, request.anchors, pool, now, path.value);
    }
  }

  /**
   Once a certificate is extracted the outcome is exactly one of: a completed chain (only when
   implicitly confirmed), a chain awaiting certConf (only when not), or a refusal. It is accepted
   exactly when acceptable. A refusal is Permanent or Security, and it carries a certificate to reject
   exactly when the server still expects certConf.
   */
  lemma RefusalAlgebra(verify: Verifier, now: int, request: Request, response: Response, signer: Option<Certificate>,
                       delayedNonce: Nonce, certificate: Certificate, certReqId: int)
    requires Sound(verify) && (request.operation.KUR? ==> request.protection.Signature?)
    requires Extract(response, request).Ok? && Extract(response, request).value.Certified?
    requires Delivers(response, request, certificate, certReqId)
    ensures var outcome := Finish(verify, now, request, response, signer, delayedNonce);
            if Acceptable(now, response, request, certificate, certReqId) then
              && (ImplicitlyConfirmed(response, request) ==> outcome.Completed? && outcome.certReqId == certReqId)
              && (!ImplicitlyConfirmed(response, request) ==>
                    && outcome.AwaitsConfirmation? && outcome.pending.certReqId == certReqId
                    && outcome.pending.requestNonce == NoNonce && outcome.pending.recipNonce == response.senderNonce)
              && OrderedChain(certificate, outcome.chain)
            else
              && outcome.Refuses? && outcome.error == Objection(now, response, request, certificate)
              && (outcome.error.kind.Permanent? || outcome.error.kind.Security?)
              && (outcome.refusal.Some? <==> !ImplicitlyConfirmed(response, request))
              && (outcome.refusal.Some? ==>
                    outcome.refusal == Some(Refusal(certificate, certReqId, response.senderNonce, signer)))
  {
    hide Sound, Acceptable, HasPath, Extract, ValidateAndOrderChain, OrderedChain, SameValidity,
         AcceptResponseCertReqId;
    ExtractMeans(response, request);
    AcceptableIff(verify, now, request, response, certificate, certReqId);
  }

  /** An enrollment answer panics exactly when it is an error body that reports success. */
  lemma PanicsIff(verify: Verifier, now: int, request: Request, response: Response, signer: Option<Certificate>,
                  delayedNonce: Nonce)
    requires request.operation.KUR? ==> request.protection.Signature?
    ensures Finish(verify, now, request, response, signer, delayedNonce).Panics? <==>
            response.body.ErrorBody? && response.body.status.Some? &&
            (response.body.status.value.status.Accepted? || response.body.status.value.status.GrantedWithMods?)
  {
  }

  /**
   A single answer of the expected body fails as a security error exactly when its id is not allowed,
   whatever its status and certificate say, and then nothing is confirmed or rejected at the server.
   */
  lemma WrongIdIsRefused(verify: Verifier, now: int, request: Request, response: Response, signer: Option<Certificate>,
                         delayedNonce: Nonce)
    requires response.body.CertRepBody? && response.body.answers == request.operation && response.body.reply.Some?
    requires |response.body.reply.value.responses| == 1
    ensures var outcome := Finish(verify, now, request, response, signer, delayedNonce);
            outcome.Fails? && outcome.error.kind.Security? <==>
            !IdAllowed(request.operation, request.pinnedCertReqId, response.body.reply.value.responses[0].certReqId)
  {
    StatusKinds(response.body.reply.value.responses[0].status);
    hide ClassifyStatus, ValidateAndOrderChain;
  }
}
