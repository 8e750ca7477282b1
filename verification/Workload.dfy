/**
 Which operation a request uses, and the workload keys of an IR or KUR
 (internal/controller/kur.go, internal/controller/renewal_fallback.go, internal/protocol/kur.go).
 */
module Workload {
  import opened Basics
  import opened Names
  import opened Certificates
  import opened Protocol
  import opened Configuration

  // ----- Operation selection

  datatype InitialEnrollment = InitialP10CR | InitialIR

  datatype Renewal = RenewalOmitted | RenewalP10CR | RenewalKUR

  datatype RenewalFallback = FallbackOmitted | FallbackNone | FallbackInitialEnrollment

  datatype ProtocolSpec = ProtocolSpec(initialEnrollment: InitialEnrollment, renewal: Renewal,
                                       fallback: RenewalFallback)

  /** cert-manager's revision annotation: absent, not a number, or a number. */
  datatype Revision = NoRevision | BadRevision | Revision(number: int)

  function InitialOperation(spec: ProtocolSpec): Operation { if spec.initialEnrollment.InitialIR? then IR else P10CR }

  function RenewalOperation(spec: ProtocolSpec): Operation
  {
    match spec.renewal
    case RenewalKUR => KUR
    case RenewalP10CR => P10CR
    case RenewalOmitted => if spec.initialEnrollment.InitialIR? then KUR else P10CR
  }

  function FallbackOperation(spec: ProtocolSpec): Option<Operation>
  {
    if !spec.fallback.FallbackInitialEnrollment? || RenewalOperation(spec) != KUR then None
        else Some(InitialOperation(spec))
  }

  /** None is a request no operation can serve. */
  function SelectedOperation(spec: ProtocolSpec, revision: Revision): Option<Operation>
  {
    if InitialOperation(spec).P10CR? && RenewalOperation(spec).P10CR? then Some(P10CR)
    else match revision
      case NoRevision => if InitialOperation(spec).IR? then None else Some(P10CR)
      case BadRevision => None
      case Revision(n) => if n < 1 then None else if n > 1 then Some(RenewalOperation(spec))
          else Some(InitialOperation(spec))
  }

  /**
   KUR serves only renewals of issuers that renew by KUR, IR only first issuances, and everything else
   is P10CR or unserved.
   */
  lemma OperationSelected(spec: ProtocolSpec, revision: Revision)
    ensures var selected := SelectedOperation(spec, revision);
            var renewsByKur := spec.renewal.RenewalKUR?
            || (spec.renewal.RenewalOmitted? && spec.initialEnrollment.InitialIR?);
            && (selected == Some(KUR) <==> renewsByKur && revision.Revision? && revision.number > 1)
            && (selected == Some(IR) <==> spec.initialEnrollment.InitialIR? && revision == Revision(1))
            && (selected == Some(P10CR) <==>
                  || (spec.initialEnrollment.InitialP10CR? && !renewsByKur)
                  || (spec.initialEnrollment.InitialP10CR? && (revision.NoRevision? || revision == Revision(1)))
                  || (!renewsByKur && revision.Revision? && revision.number > 1))
            && FallbackOperation(spec) == (if !renewsByKur || !spec.fallback.FallbackInitialEnrollment? then None
                                           else if spec.initialEnrollment.InitialIR? then Some(IR) else Some(P10CR))
  {
  }

  // ----- The cluster as the controller reads it

  datatype CmCertificate = CmCertificate(
    name: string, uid: string, deleting: bool, revision: Option<int>, issuerName: string, inCmpGroup: bool,
    issuerKind: IssuerKind, secretName: string, nextPrivateKeySecret: Option<string>)

  /** What one read of the API server finds. A read of an unavailable object fails and may succeed later. */
  datatype Cluster = Cluster(
    certificates: map<SecretKey, CmCertificate>, secrets: map<SecretKey, Secret>, unavailable: set<SecretKey>)

  datatype RequestMetadata = RequestMetadata(namespace: string, revision: Revision, owners: seq<OwnerRef>,
                                             privateKeyAnnotation: string)

  /** A parsed certificate signing request. */
  datatype Csr = Csr(key: PublicKey, subject: Name, extensions: seq<Extension>)

  /** Parsers for certificate bundles, private keys and requests; a private key stands for its public key. */
  datatype Codec = Codec(certificates: Bytes -> Option<seq<Certificate>>, signer: Bytes -> Option<PublicKey>,
                         request: Bytes -> Csr)

  datatype ConfigurationError = PermanentError | RetryableError

  // ----- Owner chain

  function Controllers(owners: seq<OwnerRef>): seq<OwnerRef>
  {
    if owners == [] then [] else (if owners[0].controller then [owners[0]] else []) + Controllers(owners[1..])
  }

  function CertificateOwner(owners: seq<OwnerRef>): Option<OwnerRef>
  {
    var controllers := Controllers(owners);
    if |controllers| != 1 then None
    else
      var owner := controllers[0];
      if !owner.isCertificate || owner.name == "" || owner.uid == "" then None else Some(owner)
  }

  /** The position of the only controlling owner. */
  ghost predicate OnlyController(owners: seq<OwnerRef>, i: nat)
  {
    i < |owners| && owners[i].controller && forall j :: 0 <= j < |owners| && j != i ==> !owners[j].controller
  }

  lemma {:induction false} NoController(owners: seq<OwnerRef>)
    ensures Controllers(owners) == [] <==> forall j :: 0 <= j < |owners| ==> !owners[j].controller
  {
    if owners != [] {
      NoController(owners[1..]);
      assert forall j :: 0 < j < |owners| ==> owners[j] == owners[1..][j - 1];
    }
  }

  lemma {:induction false} ControllerPosition(owners: seq<OwnerRef>) returns (i: nat)
    requires |Controllers(owners)| == 1
    ensures OnlyController(owners, i) && owners[i] == Controllers(owners)[0]
  {
    if owners[0].controller {
      NoController(owners[1..]);
      assert forall j :: 0 < j < |owners| ==> owners[j] == owners[1..][j - 1];
      return 0;
    }
    var k := ControllerPosition(owners[1..]);
    assert forall j :: 0 < j < |owners| ==> owners[j] == owners[1..][j - 1];
    return k + 1;
  }

  lemma {:induction false} OneController(owners: seq<OwnerRef>, i: nat)
    requires OnlyController(owners, i)
    ensures Controllers(owners) == [owners[i]]
  {
    assert forall j :: 0 < j < |owners| ==> owners[j] == owners[1..][j - 1];
    if i == 0 {
      NoController(owners[1..]);
    } else {
      OneController(owners[1..], i - 1);
    }
  }

  /** The owning Certificate is the one controlling owner, if that names a cert-manager Certificate. */
  lemma CertificateOwnerIff(owners: seq<OwnerRef>, owner: OwnerRef)
    ensures CertificateOwner(owners) == Some(owner) <==>
            owner.isCertificate && owner.name != "" && owner.uid != "" && exists i: nat ::
              OnlyController(owners, i) && owners[i] == owner
  {
    if CertificateOwner(owners) == Some(owner) {
      var i := ControllerPosition(owners);
    }
    if i: nat :| OnlyController(owners, i) && owners[i] == owner {
      OneController(owners, i);
    }
  }

  method CertificateOwnerReference(owners: seq<OwnerRef>) returns (r: Option<OwnerRef>)
    ensures r == CertificateOwner(owners)
  {
    var owner: Option<OwnerRef> := None;
    for i := 0 to |owners|
      invariant Controllers(owners) == (if owner.Some? then [owner.value] else []) + Controllers(owners[i..])
    {
      assert owners[i..][1..] == owners[i + 1..];
      if !owners[i].controller {
        continue;
      }
      if owner.Some? {
        return None;
      }
      owner := Some(owners[i]);
    }
    if owner.None? || !owner.value.isCertificate || owner.value.name == "" || owner.value.uid == "" {
      return None;
    }
    return owner;
  }

  function AuthorizeOwner(cluster: Cluster, request: RequestMetadata, issuer: IssuerRef,
                          renewal: bool): Result<CmCertificate, ConfigurationError>
  {
    if !request.revision.Revision? then Err(PermanentError)
    else if !renewal && request.revision.number != 1 then Err(PermanentError)
    else if renewal && request.revision.number < 2 then Err(PermanentError)
    else match CertificateOwner(request.owners)
      case None => Err(PermanentError)
      case Some(owner) =>
        var key := SecretKey(request.namespace, owner.name);
        if key in cluster.unavailable then Err(RetryableError)
        else if key !in cluster.certificates then Err(PermanentError)
        else
          var certificate := cluster.certificates[key];
          if certificate.uid == "" || owner.uid != certificate.uid || certificate.deleting then Err(PermanentError)
          else if (if certificate.revision.Some? then certificate.revision.value else 0) != request.revision.number - 1
              then Err(PermanentError)
          else if certificate.issuerName != issuer.name || !certificate.inCmpGroup
          || certificate.issuerKind != issuer.kind then Err(PermanentError)
          else Ok(certificate)
  }

  /** The i-th owner is the only controlling one and names this Certificate, which a read finds. */
  ghost predicate OwnsRequest(cluster: Cluster, request: RequestMetadata, i: nat, certificate: CmCertificate)
  {
    && OnlyController(request.owners, i)
    && var owner := request.owners[i];
    && owner.isCertificate && owner.name != "" && owner.uid != "" && owner.uid == certificate.uid
    && var key := SecretKey(request.namespace, owner.name);
       key !in cluster.unavailable && key in cluster.certificates && cluster.certificates[key] == certificate
  }

  /** The request is the first of this live Certificate, or its next renewal, and the issuer is the one it names. */
  ghost predicate Serves(certificate: CmCertificate, request: RequestMetadata, issuer: IssuerRef, renewal: bool)
  {
    && !certificate.deleting && request.revision.Revision?
    && (if renewal then request.revision.number >= 2 else request.revision.number == 1)
    && (if certificate.revision.Some? then certificate.revision.value else 0) + 1 == request.revision.number
    && certificate.issuerName == issuer.name && certificate.inCmpGroup && certificate.issuerKind == issuer.kind
  }

  /**
   A request is authorized exactly by the Certificate that is its only controlling owner, alive, one
   revision behind and served by this issuer.
   */
  lemma OwnerAuthorizedIff(cluster: Cluster, request: RequestMetadata, issuer: IssuerRef, renewal: bool,
                           certificate: CmCertificate)
    ensures AuthorizeOwner(cluster, request, issuer, renewal) == Ok(certificate) <==>
            && Serves(certificate, request, issuer, renewal)
            && exists i: nat :: OwnsRequest(cluster, request, i, certificate)
  {
    if CertificateOwner(request.owners).Some? {
      var owner := CertificateOwner(request.owners).value;
      CertificateOwnerIff(request.owners, owner);
      var i: nat :| OnlyController(request.owners, i) && request.owners[i] == owner;
      assert forall j: nat :: OnlyController(request.owners, j) ==> j == i;
      if AuthorizeOwner(cluster, request, issuer, renewal) == Ok(certificate) {
        assert OwnsRequest(cluster, request, i, certificate);
      }
    } else if i: nat :| OwnsRequest(cluster, request, i, certificate) {
      CertificateOwnerIff(request.owners, request.owners[i]);
      assert false;
    }
  }

  predicate OwnedBy(owner: OwnerRef, certificate: CmCertificate)
  {
    owner.isCertificate && owner.name == certificate.name && owner.uid == certificate.uid
  }

  /** cert-manager wrote the Secret for this Certificate and nothing else controls it. */
  predicate IssuedFor(secret: Secret, certificate: CmCertificate)
  {
    && secret.certificateName == Some(certificate.name)
    && forall o :: o in secret.owners && o.controller ==> OwnedBy(o, certificate)
  }

  method CurrentSecretIssuedForCertificate(secret: Secret, certificate: CmCertificate) returns (r: bool)
    ensures r == IssuedFor(secret, certificate)
  {
    if secret.certificateName != Some(certificate.name) {
      return false;
    }
    for i := 0 to |secret.owners|
      invariant forall j :: 0 <= j < i && secret.owners[j].controller ==> OwnedBy(secret.owners[j], certificate)
    {
      var owner := secret.owners[i];
      if !owner.controller {
        continue;
      }
      if !owner.isCertificate || owner.name != certificate.name || owner.uid != certificate.uid {
        return false;
      }
    }
    return true;
  }

  function Entryless(secret: Secret, key: DataKey): bool { key !in secret.data || secret.data[key] == [] }

  // ----- classifyRenewalFallback

  datatype Reason = CurrentCertificateMissing | CurrentCertificateExpired

  function ClassifyRenewalFallback(codec: Codec, cluster: Cluster, request: RequestMetadata, issuer: IssuerRef,
                                   now: int): Result<Option<Reason>, ConfigurationError>
  {
    match AuthorizeOwner(cluster, request, issuer, true)
    case Err(e) => Err(e)
    case Ok(certificate) =>
      if certificate.secretName == "" || certificate.secretName == request.privateKeyAnnotation then Ok(None)
      else
        var key := SecretKey(request.namespace, certificate.secretName);
        if key in cluster.unavailable then Err(RetryableError)
        else if key !in cluster.secrets then Ok(Some(CurrentCertificateMissing))
        else if !IssuedFor(cluster.secrets[key], certificate) then Ok(None)
        else if Entryless(cluster.secrets[key], TlsCrt) then Ok(Some(CurrentCertificateMissing))
        else match codec.certificates(cluster.secrets[key].data[TlsCrt])
          case None => Ok(None)
          case Some(certificates) =>
            if certificates == [] || now < certificates[0].notAfter then Ok(None)
                else Ok(Some(CurrentCertificateExpired))
  }

  function SelectRenewalFallback(codec: Codec, cluster: Cluster, spec: ProtocolSpec, request: RequestMetadata,
                                 issuer: IssuerRef,
                                 operation: Operation, now: int): Result<(Operation, Option<Reason>),
                                     ConfigurationError>
  {
    if operation != KUR || FallbackOperation(spec).None? then Ok((operation, None))
    else match ClassifyRenewalFallback(codec, cluster, request, issuer, now)
      case Err(e) => Err(e)
      case Ok(None) => Ok((operation, None))
      case Ok(Some(reason)) => Ok((FallbackOperation(spec).value, Some(reason)))
  }

  // ----- loadIRMaterial and loadKURMaterial

  datatype Material = Material(protection: Option<Certificate>, requestedKey: PublicKey, secrets: Fingerprints)

  function StagedName(request: RequestMetadata, certificate: CmCertificate): Option<string>
  {
    if request.privateKeyAnnotation == "" || certificate.nextPrivateKeySecret != Some(request.privateKeyAnnotation)
        then None
    else Some(request.privateKeyAnnotation)
  }

  function ParseSigner(codec: Codec, secret: Secret): Option<PublicKey>
  {
    if Entryless(secret, TlsKey) then None else codec.signer(secret.data[TlsKey])
  }

  function LoadStagedKey(codec: Codec, cluster: Cluster, key: SecretKey, certificate: CmCertificate,
                         csr: Csr): Result<PublicKey, ConfigurationError>
  {
    if key in cluster.unavailable || key !in cluster.secrets then Err(RetryableError)
    else
      var secret := cluster.secrets[key];
      if !(exists o :: o in secret.owners && o.controller && OwnedBy(o, certificate)) || !secret.nextPrivateKey
          then Err(PermanentError)
      else match ParseSigner(codec, secret)
        case None => Err(RetryableError)
        case Some(requested) => if requested != csr.key then Err(PermanentError) else Ok(requested)
  }

  function LoadIrMaterial(codec: Codec, cluster: Cluster, spec: ProtocolSpec, request: RequestMetadata,
                          issuer: IssuerRef, csr: Csr,
                          fallback: Option<Reason>): Result<Material, ConfigurationError>
  {
    if fallback.Some? && FallbackOperation(spec) != Some(IR) then Err(PermanentError)
    else match AuthorizeOwner(cluster, request, issuer, fallback.Some?)
      case Err(e) => Err(e)
      case Ok(certificate) =>
        match StagedName(request, certificate)
        case None => Err(PermanentError)
        case Some(staged) =>
          var key := SecretKey(request.namespace, staged);
          match LoadStagedKey(codec, cluster, key, certificate, csr)
          case Err(e) => Err(e)
          case Ok(requested) => Ok(Material(None, requested,
                                            map[key := WorkloadFingerprint(cluster.secrets[key], [TlsKey])]))
  }

  function LoadKurMaterial(codec: Codec, cluster: Cluster, request: RequestMetadata, issuer: IssuerRef,
                           csr: Csr): Result<Material, ConfigurationError>
  {
    match AuthorizeOwner(cluster, request, issuer, true)
    case Err(e) => Err(e)
    case Ok(certificate) =>
      match StagedName(request, certificate)
      case None => Err(PermanentError)
      case Some(staged) =>
        if certificate.secretName == "" || certificate.secretName == staged then Err(PermanentError)
        else
          var currentKey, stagedKey := SecretKey(request.namespace, certificate.secretName),
              SecretKey(request.namespace, staged);
          if currentKey in cluster.unavailable then Err(RetryableError)
          else if currentKey !in cluster.secrets then Err(PermanentError)
          else
            var current := cluster.secrets[currentKey];
            if !IssuedFor(current, certificate) then Err(PermanentError)
            else match LoadStagedKey(codec, cluster, stagedKey, certificate, csr)
              case Err(e) => Err(e)
              case Ok(requested) =>
                if Entryless(current, TlsCrt) then Err(PermanentError)
                else match codec.certificates(current.data[TlsCrt])
                  case None => Err(RetryableError)
                  case Some(certificates) =>
                    if certificates == [] then Err(RetryableError)
                    else match ParseSigner(codec, current)
                      case None => Err(RetryableError)
                      case Some(oldKey) =>
                        if oldKey != certificates[0].key || !UsageOk(certificates[0]) then Err(PermanentError)
                        else Ok(Material(Some(certificates[0]), requested,
                                         map[currentKey := WorkloadFingerprint(current, [TlsCrt, TlsKey]),
                                             stagedKey := WorkloadFingerprint(cluster.secrets[stagedKey], [TlsKey])]))
  }

  /** validateKURProofs */
  function ValidateKurProofs(protection: Certificate, requestedKey: PublicKey, csr: Csr, now: int): bool
  {
    && requestedKey == csr.key
    && protection.notBefore <= now < protection.notAfter
    && (protection.keyUsage.Some? ==> DigitalSignature in protection.keyUsage.value)
    && SameKurIdentity(protection.subject, protection.extensions, csr.subject, csr.extensions)
  }

  /** KUR preparation: load the keys, then check both proofs. */
  function PrepareKur(codec: Codec, cluster: Cluster, request: RequestMetadata, issuer: IssuerRef, csr: Csr,
                      now: int): Result<Material, ConfigurationError>
  {
    match LoadKurMaterial(codec, cluster, request, issuer, csr)
    case Err(e) => Err(e)
    case Ok(material) =>
      if material.protection.Some? && ValidateKurProofs(material.protection.value, material.requestedKey, csr, now)
          then Ok(material)
      else Err(PermanentError)
  }

  function PrepareWorkload(codec: Codec, cluster: Cluster, spec: ProtocolSpec, request: RequestMetadata,
                           issuer: IssuerRef, csr: Csr,
                           operation: Operation, fallback: Option<Reason>, now: int): Result<Option<Material>,
                               ConfigurationError>
  {
    match operation
    case P10CR => Ok(None)
    case KUR => (match PrepareKur(codec, cluster, request, issuer, csr,
                                  now) case Err(e) => Err(e) case Ok(m) => Ok(Some(m)))
    case IR => (match LoadIrMaterial(codec, cluster, spec, request, issuer, csr,
                                     fallback) case Err(e) => Err(e) case Ok(m) => Ok(Some(m)))
  }

  // ----- When the keys can be loaded

  ghost predicate HoldsKey(codec: Codec, secret: Secret, key: PublicKey)
  {
    TlsKey in secret.data && secret.data[TlsKey] != [] && codec.signer(secret.data[TlsKey]) == Some(key)
  }

  /** The Secret has a certificate entry, and this is the first certificate in it. */
  ghost predicate HoldsCertificate(codec: Codec, secret: Secret, certificate: Certificate)
  {
    && TlsCrt in secret.data && secret.data[TlsCrt] != []
    && var parsed := codec.certificates(secret.data[TlsCrt]);
       parsed.Some? && parsed.value != [] && parsed.value[0] == certificate
  }

  /**
   The staged key: in the Secret that both the request and the Certificate name, marked as the next key
   and controlled by that Certificate, and the key the CSR certifies.
   */
  ghost predicate Staged(codec: Codec, cluster: Cluster, request: RequestMetadata, certificate: CmCertificate,
                         csr: Csr, key: SecretKey)
  {
    && request.privateKeyAnnotation != ""
    && certificate.nextPrivateKeySecret == Some(request.privateKeyAnnotation)
    && key == SecretKey(request.namespace, request.privateKeyAnnotation)
    && key !in cluster.unavailable && key in cluster.secrets
    && var secret := cluster.secrets[key];
    && secret.nextPrivateKey && HoldsKey(codec, secret, csr.key)
    && exists o ::
         && o in secret.owners && o.controller
         && o.isCertificate && o.name == certificate.name && o.uid == certificate.uid
  }

  lemma StagedIff(codec: Codec, cluster: Cluster, request: RequestMetadata, certificate: CmCertificate, csr: Csr,
                  key: SecretKey)
    requires key == SecretKey(request.namespace, request.privateKeyAnnotation)
    ensures StagedName(request, certificate) == Some(request.privateKeyAnnotation)
            && LoadStagedKey(codec, cluster, key, certificate, csr).Ok? <==>
            Staged(codec, cluster, request, certificate, csr, key)
    ensures LoadStagedKey(codec, cluster, key, certificate, csr).Ok? ==>
              LoadStagedKey(codec, cluster, key, certificate, csr).value == csr.key
    ensures StagedName(request, certificate).Some? ==> StagedName(request, certificate).value == key.name
  {
    if key in cluster.secrets {
      var secret := cluster.secrets[key];
      assert forall o :: o in secret.owners && o.controller ==>
          (OwnedBy(o, certificate) <==> o.isCertificate && o.name == certificate.name && o.uid == certificate.uid);
    }
  }

  /**
   IR material is loaded exactly for an authorized first issuance, or for a renewal as the issuer's
   fallback from KUR, whose staged key the CSR certifies. It leaves the issuer's protection and is
   identified by that key.
   */
  lemma IrLoadedIff(codec: Codec, cluster: Cluster, spec: ProtocolSpec, request: RequestMetadata, issuer: IssuerRef,
                    csr: Csr, fallback: Option<Reason>, m: Material)
    ensures var key := SecretKey(request.namespace, request.privateKeyAnnotation);
            LoadIrMaterial(codec, cluster, spec, request, issuer, csr, fallback) == Ok(m) <==>
            && (fallback.Some? ==> FallbackOperation(spec) == Some(IR))
            && exists certificate ::
                 && AuthorizeOwner(cluster, request, issuer, fallback.Some?) == Ok(certificate)
                 && Staged(codec, cluster, request, certificate, csr, key)
                 && m == Material(None, csr.key, map[key := WorkloadFingerprint(cluster.secrets[key], [TlsKey])])
  {
    var key := SecretKey(request.namespace, request.privateKeyAnnotation);
    var owner := AuthorizeOwner(cluster, request, issuer, fallback.Some?);
    if owner.Ok? {
      StagedIff(codec, cluster, request, owner.value, csr, key);
    }
    hide AuthorizeOwner, FallbackOperation, Staged, LoadStagedKey;
  }

  /** The certificate a KUR updates: first in the Secret cert-manager wrote for the Certificate, with its key. */
  ghost predicate Updatable(codec: Codec, cluster: Cluster, request: RequestMetadata, certificate: CmCertificate,
                            key: SecretKey, current: Certificate)
  {
    && certificate.secretName != "" && certificate.secretName != request.privateKeyAnnotation
    && key == SecretKey(request.namespace, certificate.secretName)
    && key !in cluster.unavailable && key in cluster.secrets
    && IssuedFor(cluster.secrets[key], certificate)
    && HoldsCertificate(codec, cluster.secrets[key], current)
    && HoldsKey(codec, cluster.secrets[key], current.key) && UsageOk(current)
  }

  ghost predicate KurMaterial(codec: Codec, cluster: Cluster, request: RequestMetadata, issuer: IssuerRef, csr: Csr,
                              certificate: CmCertificate, current: Certificate, m: Material)
  {
    var key := SecretKey(request.namespace, certificate.secretName);
    var staged := SecretKey(request.namespace, request.privateKeyAnnotation);
    && AuthorizeOwner(cluster, request, issuer, true) == Ok(certificate)
    && Staged(codec, cluster, request, certificate, csr, staged)
    && Updatable(codec, cluster, request, certificate, key, current)
    && m == Material(Some(current), csr.key,
                     map[key := WorkloadFingerprint(cluster.secrets[key], [TlsCrt, TlsKey]),
                         staged := WorkloadFingerprint(cluster.secrets[staged], [TlsKey])])
  }

  lemma KurLoadedIff(codec: Codec, cluster: Cluster, request: RequestMetadata, issuer: IssuerRef, csr: Csr,
                     m: Material)
    ensures LoadKurMaterial(codec, cluster, request, issuer, csr) == Ok(m) <==>
            exists certificate, current ::
              KurMaterial(codec, cluster, request, issuer, csr, certificate, current, m)
  {
    var owner := AuthorizeOwner(cluster, request, issuer, true);
    if owner.Ok? {
      var staged := SecretKey(request.namespace, request.privateKeyAnnotation);
      StagedIff(codec, cluster, request, owner.value, csr, staged);
    }
    hide AuthorizeOwner, Staged, LoadStagedKey, StagedName, IssuedFor, UsageOk, WorkloadFingerprint;
    if LoadKurMaterial(codec, cluster, request, issuer, csr) == Ok(m) {
      assert KurMaterial(codec, cluster, request, issuer, csr, owner.value, m.protection.value, m);
    }
  }

  /** The certificate is valid now, may sign, and names the identity the CSR names. */
  ghost predicate Renews(current: Certificate, csr: Csr, now: int)
  {
    && current.notBefore <= now < current.notAfter
    && (current.keyUsage.Some? ==> DigitalSignature in current.keyUsage.value)
    && multiset(Flatten(current.subject)) == multiset(Flatten(csr.subject))
    && AlternativeNames(current.extensions).Some? && AlternativeNames(csr.extensions).Some?
    && multiset(AlternativeNames(current.extensions).value) == multiset(AlternativeNames(csr.extensions).value)
  }

  /**
   A KUR is prepared exactly when both keys are proved: the certificate being updated, read with its key
   from the Secret of the authorized owner and valid now, protects the messages, the staged key is the
   one the CSR certifies, and certificate and CSR name the same identity.
   */
  lemma KurPreparedIff(codec: Codec, cluster: Cluster, request: RequestMetadata, issuer: IssuerRef, csr: Csr, now: int,
                       m: Material)
    ensures PrepareKur(codec, cluster, request, issuer, csr, now) == Ok(m) <==>
            exists certificate, current ::
              && KurMaterial(codec, cluster, request, issuer, csr, certificate, current, m)
              && Renews(current, csr, now)
  {
    KurLoadedIff(codec, cluster, request, issuer, csr, m);
    if m.protection.Some? {
      var c := m.protection.value;
      SameKurIdentityIff(c.subject, c.extensions, csr.subject, csr.extensions);
    }
    hide LoadKurMaterial, AuthorizeOwner, Staged, Updatable, SameKurIdentity, AlternativeNames;
  }

  // ----- When a renewal falls back

  /**
   Why the certificate a KUR would update cannot be used: the authorized Certificate's Secret does not
   exist, or cert-manager wrote it for the Certificate and it has no certificate or an expired one.
   */
  ghost predicate Unusable(codec: Codec, cluster: Cluster, request: RequestMetadata, issuer: IssuerRef, now: int,
                           certificate: CmCertificate, reason: Reason)
  {
    var key := SecretKey(request.namespace, certificate.secretName);
    && AuthorizeOwner(cluster, request, issuer, true) == Ok(certificate)
    && certificate.secretName != "" && certificate.secretName != request.privateKeyAnnotation
    && key !in cluster.unavailable
    && match reason
       case CurrentCertificateMissing =>
         key in cluster.secrets ==>
           && IssuedFor(cluster.secrets[key], certificate)
           && (TlsCrt in cluster.secrets[key].data ==> cluster.secrets[key].data[TlsCrt] == [])
       case CurrentCertificateExpired =>
         && key in cluster.secrets && IssuedFor(cluster.secrets[key], certificate)
         && exists current :: HoldsCertificate(codec, cluster.secrets[key], current) && current.notAfter <= now
  }

  lemma ClassifiedIff(codec: Codec, cluster: Cluster, request: RequestMetadata, issuer: IssuerRef, now: int,
                      reason: Reason)
    ensures ClassifyRenewalFallback(codec, cluster, request, issuer, now) == Ok(Some(reason)) <==>
            exists certificate :: Unusable(codec, cluster, request, issuer, now, certificate, reason)
  {
    var owner := AuthorizeOwner(cluster, request, issuer, true);
    hide AuthorizeOwner, IssuedFor;
    if ClassifyRenewalFallback(codec, cluster, request, issuer, now) == Ok(Some(reason)) {
      assert Unusable(codec, cluster, request, issuer, now, owner.value, reason);
    }
  }

  /**
   What Sign does with a selected operation: it uses the initial enrollment operation instead of KUR
   exactly when the issuer says so and the certificate a KUR would update is missing or expired, and
   otherwise keeps the operation unless the owner chain or its Secret cannot be read.
   */
  lemma FallbackIff(codec: Codec, cluster: Cluster, spec: ProtocolSpec, request: RequestMetadata, issuer: IssuerRef,
                    operation: Operation, now: int, reason: Reason)
    ensures var chosen := SelectRenewalFallback(codec, cluster, spec, request, issuer, operation, now);
            var initial := if spec.initialEnrollment.InitialIR? then IR else P10CR;
            var allowed := operation == KUR && FallbackOperation(spec).Some?;
            && (chosen.Ok? && chosen.value.1 == Some(reason) <==>
                  allowed && exists certificate ::
                    Unusable(codec, cluster, request, issuer, now, certificate, reason))
            && (chosen.Ok? && chosen.value.1.Some? ==> chosen.value.0 == initial)
            && (chosen.Ok? && chosen.value.1.None? ==> chosen.value.0 == operation)
            && (!allowed ==> chosen == Ok((operation, None)))
            && (chosen.Err? <==>
                  && allowed
                  && var owner := AuthorizeOwner(cluster, request, issuer, true);
                     owner.Err? || (&& owner.value.secretName != ""
                                    && owner.value.secretName != request.privateKeyAnnotation
                                    && SecretKey(request.namespace, owner.value.secretName) in cluster.unavailable))
  {
    ClassifiedIff(codec, cluster, request, issuer, now, reason);
    hide AuthorizeOwner, IssuedFor, Unusable;
  }

  /**
   A fallback is never taken while KUR could still run: on the same cluster contents, KUR preparation
   fails at the instant of the decision and at every later one.
   */
  lemma FallbackSound(codec: Codec, cluster: Cluster, spec: ProtocolSpec, request: RequestMetadata, issuer: IssuerRef,
                      operation: Operation, csr: Csr, now: int, later: int)
    requires now <= later
    requires var chosen := SelectRenewalFallback(codec, cluster, spec, request, issuer, operation, now);
             chosen.Ok? && chosen.value.1.Some?
    ensures PrepareKur(codec, cluster, request, issuer, csr, later).Err?
  {
    var reason := SelectRenewalFallback(codec, cluster, spec, request, issuer, operation, now).value.1.value;
    hide SelectRenewalFallback, PrepareKur, AuthorizeOwner, Staged, IssuedFor, Renews;
    if m :| PrepareKur(codec, cluster, request, issuer, csr, later) == Ok(m) {
      KurPreparedIff(codec, cluster, request, issuer, csr, later, m);
      KurIsUsable(codec, cluster, request, issuer, csr, later, m, now, reason);
      FallbackIff(codec, cluster, spec, request, issuer, operation, now, reason);
    }
  }

  lemma KurIsUsable(codec: Codec, cluster: Cluster, request: RequestMetadata, issuer: IssuerRef, csr: Csr, now: int,
                    m: Material, earlier: int, reason: Reason)
    requires earlier <= now
    requires exists certificate, current ::
               && KurMaterial(codec, cluster, request, issuer, csr, certificate, current, m)
               && Renews(current, csr, now)
    ensures !exists certificate :: Unusable(codec, cluster, request, issuer, earlier, certificate, reason)
  {
    hide AuthorizeOwner, Staged, IssuedFor, AlternativeNames;
  }

  // ----- What the workload fingerprints pin down

  lemma MaterialFingerprints(codec: Codec, cluster: Cluster, request: RequestMetadata, issuer: IssuerRef, csr: Csr)
    requires LoadKurMaterial(codec, cluster, request, issuer, csr).Ok?
    ensures Workload(LoadKurMaterial(codec, cluster, request, issuer, csr).value.secrets)
  {
  }

  /** Equal KUR fingerprints mean the same certificate protects the messages. */
  lemma SameFingerprintsSameProtection(codec: Codec, cluster: Cluster, request: RequestMetadata, issuer: IssuerRef,
                                       csr: Csr,
                                       cluster': Cluster, request': RequestMetadata, issuer': IssuerRef, csr': Csr)
    requires LoadKurMaterial(codec, cluster, request, issuer, csr).Ok?
             && LoadKurMaterial(codec, cluster', request', issuer', csr').Ok?
    requires LoadKurMaterial(codec, cluster, request, issuer, csr).value.secrets ==
             LoadKurMaterial(codec, cluster', request', issuer', csr').value.secrets
    ensures LoadKurMaterial(codec, cluster, request, issuer, csr).value.protection ==
            LoadKurMaterial(codec, cluster', request', issuer', csr').value.protection
  {
    var k := KurCurrentKey(codec, cluster, request, issuer, csr);
    var k' := KurCurrentKey(codec, cluster', request', issuer', csr');
    var secrets := LoadKurMaterial(codec, cluster, request, issuer, csr).value.secrets;
    assert k == k';
    assert secrets[k].data.entries[0].1 == cluster.secrets[k].data[TlsCrt] == cluster'.secrets[k].data[TlsCrt];
  }

  /** The current Secret is the one fingerprint with two entries. */
  lemma KurCurrentKey(codec: Codec, cluster: Cluster, request: RequestMetadata, issuer: IssuerRef, csr: Csr)
      returns (k: SecretKey)
    requires LoadKurMaterial(codec, cluster, request, issuer, csr).Ok?
    ensures var m := LoadKurMaterial(codec, cluster, request, issuer, csr).value;
            && k in m.secrets && m.secrets[k].data.DataDigest? && |m.secrets[k].data.entries| == 2
            && (forall j :: j in m.secrets && m.secrets[j].data.DataDigest? && |m.secrets[j].data.entries| == 2 ==>
                  j == k)
            && k in cluster.secrets && TlsCrt in cluster.secrets[k].data
            && m.secrets[k].data.entries[0] == (TlsCrt, cluster.secrets[k].data[TlsCrt])
            && codec.certificates(cluster.secrets[k].data[TlsCrt]).Some?
            && codec.certificates(cluster.secrets[k].data[TlsCrt]).value != []
            && m.protection == Some(codec.certificates(cluster.secrets[k].data[TlsCrt]).value[0])
  {
    var certificate := AuthorizeOwner(cluster, request, issuer, true).value;
    k := SecretKey(request.namespace, certificate.secretName);
  }
}
