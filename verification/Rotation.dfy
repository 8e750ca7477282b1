/**
 A run that rotates a Secret unnoticed. An issuer authenticates with the Secret of the certificate it
 renews by KUR, and takes its trust anchors from the same Secret. Changing the anchors changes the
 Secret's resourceVersion but none of the entries the workload fingerprint covers, so the unfinished
 transaction goes on, under other anchors.
 */
module Rotation {
  import opened Basics
  import opened Names
  import opened Certificates
  import opened Protocol
  import opened Configuration
  import opened Workload
  import opened Store
  import opened Signer
  import opened History
  import opened System
  import opened Theorems
  import opened Resumption
  import Paths

  const OldKey := PublicKey(Rsa, 0)
  const NewKey := PublicKey(Rsa, 1)
  const Old := Certificate(1, [], [], OldKey, OldKey, true, None, [], 0, 1000)
  const Replaced := Old.(serial := 2)

  const Current := SecretKey("namespace", "current")
  const Staged := SecretKey("namespace", "staged")
  const Owner := OwnerRef(true, "certificate", "owner", true)
  const TheIssuer := IssuerRef("issuer", CMPIssuer, "uid", 1)
  const TheCertificate :=
    CmCertificate("certificate", "owner", false, Some(1), "issuer", true, CMPIssuer, "current", Some("staged"))
  const StagedSecret := Secret("staged", "1", map[TlsKey := [3]], None, [Owner], true)

  /** The two versions of the Secret: the certificate and its key stay, the anchor is exchanged. */
  datatype Version = First | Second

  function CurrentSecret(v: Version): Secret
  {
    Secret("current", if v.First? then "1" else "2",
           map[TlsCrt := [1], TlsKey := [2], OtherKey("ca.crt") := if v.First? then [4] else [5]],
           Some("certificate"), [], false)
  }

  function TheCluster(v: Version): Cluster
  {
    Cluster(map[SecretKey("namespace", "certificate") := TheCertificate],
            map[Current := CurrentSecret(v), Staged := StagedSecret], {})
  }

  const TheMetadata := RequestMetadata("namespace", Revision(2), [Owner], "staged")
  const TheJob := Job(SecretKey("namespace", "request"), 7, [], TheMetadata, TheIssuer)
  const TheSpec := IssuerSpec(ProtocolSpec(InitialP10CR, RenewalKUR, FallbackNone), TransactionSpec(0, 0, 0, 0))
  const TheCsr := Csr(NewKey, [], [])
  const TheCodec :=
    Codec((text: Bytes) => Some(if text == [5] then [Replaced] else [Old]),
          (key: Bytes) => Some(if key == [2] then OldKey else NewKey), (_: Bytes) => TheCsr)

  function CredentialsOf(v: Version): Fingerprints { CredentialFingerprints(map[Current := CurrentSecret(v)]) }

  /** The certificates in the Secret's ca.crt entry. */
  function AnchorsOf(v: Version): seq<Certificate>
  {
    TheCodec.certificates(CurrentSecret(v).data[OtherKey("ca.crt")]).value
  }

  function TheSettings(credentials: Fingerprints): Settings
  {
    Settings([], false, false, false, None, false, Signature(Old),
             AnchorsOf(if credentials == CredentialsOf(First) then First else Second), [])
  }

  const TheWorld :=
    World((_: IssuerRef) => TheSpec, (_: IssuerRef, credentials: Fingerprints) => TheSettings(credentials), TheCodec,
          Paths.Search)

  function Reading(v: Version): Input { Read(CredentialsOf(v), TheCluster(v), TheCluster(v)) }

  const TheMaterial :=
    Material(Some(Old), NewKey,
             map[Current := WorkloadFingerprint(CurrentSecret(First), [TlsCrt, TlsKey]),
                 Staged := WorkloadFingerprint(StagedSecret, [TlsKey])])

  lemma OwnerFound(v: Version)
    ensures AuthorizeOwner(TheCluster(v), TheMetadata, TheIssuer, true) == Ok(TheCertificate)
  {
    assert OnlyController(TheMetadata.owners, 0);
    OneController(TheMetadata.owners, 0);
  }

  /** The workload fingerprint does not cover the anchor. */
  lemma SameWorkload(v: Version)
    ensures WorkloadFingerprint(CurrentSecret(v), [TlsCrt, TlsKey]) ==
            WorkloadFingerprint(CurrentSecret(First), [TlsCrt, TlsKey])
  {
    WorkloadFingerprintIff(CurrentSecret(v), CurrentSecret(First), [TlsCrt, TlsKey]);
  }

  lemma KurLoaded(v: Version)
    ensures LoadKurMaterial(TheCodec, TheCluster(v), TheMetadata, TheIssuer, TheCsr) == Ok(TheMaterial)
  {
    OwnerFound(v);
    SameWorkload(v);
    hide AuthorizeOwner, WorkloadFingerprint;
    assert Owner in StagedSecret.owners && Owner.controller && OwnedBy(Owner, TheCertificate);
  }

  lemma KurPrepared(v: Version)
    ensures PrepareWorkload(TheCodec, TheCluster(v), TheSpec.protocol, TheMetadata, TheIssuer, TheCsr, KUR, None, 0) ==
            Ok(Some(TheMaterial))
  {
    KurLoaded(v);
    SameKurIdentityIff(Old.subject, Old.extensions, TheCsr.subject, TheCsr.extensions);
    hide LoadKurMaterial, SameKurIdentity;
  }

  function UsingVersion(v: Version): Using
  {
    Using(BuildRequest(TheSettings(CredentialsOf(v)), KUR, Some(TheMaterial), TheCsr, 1), CredentialsOf(v),
          TheMaterial.secrets)
  }

  /** The transaction is recorded and sent under the first version. */
  lemma FirstSend() returns (actions: seq<Action>, t: Transmission)
    ensures t.using == UsingVersion(First) && t.record.spec.deadline >= 0
            && t.record.status == NewStatus.(phase := Enrolling)
    ensures t.record.key == TheJob.key && t.record.spec.requestUid == 7 && t.record.spec.csrDigest == Sha256([])
            && t.record.spec.transactionId == 1
    ensures t.record.spec.issuer == Some(TheIssuer) && t.record.spec.operation == Some(KUR)
            && t.record.spec.fallback.None?
    ensures t.record.spec.configurationDigest == Digest(TheIssuer, Merge(CredentialsOf(First), TheMaterial.secrets))
    ensures var s := Exec(TheWorld, actions);
            && s.objects == map[TheJob.key := t.record] && s.clock == 0 && |s.log| == 3 && s.log[2] == Sent(t)
            && s.workers == map[1 := Worker(TheJob, AwaitEnrollment(t))]
  {
    KurPrepared(First);
    hide PrepareWorkload, Digest, TheMaterial, Step;
    var plan := PlanFor(TheWorld, Exec(TheWorld, []), 1, TheJob, Reading(First));
    var request := BuildRequest(TheSettings(CredentialsOf(First)), KUR, Some(TheMaterial), TheCsr, 0);
    assert plan == Plan(KUR, None, UsingVersion(First).(request := request));
    hide PlanFor, CanStart;
    t := EnrollmentIsStarted(TheWorld, [], 1, TheJob, Reading(First));
    actions := Start([], 1, TheJob, Reading(First));
  }

  /** The rotated Secret gives the recorded digest. */
  lemma RotatedDigest()
    ensures Digest(TheIssuer, Merge(CredentialsOf(Second), TheMaterial.secrets)) ==
            Digest(TheIssuer, Merge(CredentialsOf(First), TheMaterial.secrets))
  {
    var rotated := Fingerprint("current", "2", NoData);
    assert CredentialsOf(First)[Current := rotated] == CredentialsOf(Second);
    RotationHiddenIff(TheIssuer, CredentialsOf(First), TheMaterial.secrets, Current, rotated);
    hide Digest;
  }

  lemma CanGoOn(s: State, r: Record)
    requires s.objects == map[TheJob.key := r] && s.clock == 0 && s.workers == map[]
    requires r.status == NewStatus.(phase := Enrolling) && r.spec.requestUid == 7 && r.spec.csrDigest == Sha256([])
             && r.spec.transactionId == 1
    requires r.spec.issuer == Some(TheIssuer) && r.spec.operation == Some(KUR) && r.spec.fallback.None?
    requires r.spec.configurationDigest == Digest(TheIssuer, Merge(CredentialsOf(First), TheMaterial.secrets))
    ensures CanResume(TheWorld, s, 2, TheJob, r, Reading(Second))
            && Loaded(TheWorld, TheJob, r, Reading(Second), 0) == UsingVersion(Second)
  {
    hide PrepareWorkload, Digest, TheMaterial, TheSettings;
    KurPrepared(Second);
    RotatedDigest();
    DigestIsSet(TheIssuer, Merge(CredentialsOf(First), TheMaterial.secrets));
    assert Prepared(TheWorld, TheJob, r, Reading(Second), 0) == Ok(Some(TheMaterial));
    assert Loaded(TheWorld, TheJob, r, Reading(Second), 0) == UsingVersion(Second);
    hide Prepared, Loaded;
    assert Resumable(TheWorld, TheJob, r);
  }

  lemma DigestIsSet(issuer: IssuerRef, secrets: Fingerprints)
    ensures Digest(issuer, secrets).ConfigurationDigest?
  {
  }

  /** One record sends twice under different Secret versions, and so under different trust anchors. */
  ghost predicate ConfigurationChanges(log: Log)
  {
    exists i, j ::
      && 0 <= i < j < |log| && log[i].Sent? && log[j].Sent? && log[i].transmission.record == log[j].transmission.record
      && log[i].transmission.using.credentials != log[j].transmission.using.credentials
      && log[i].transmission.using.request.anchors != log[j].transmission.using.request.anchors
  }

  /** The transport fails once, the Secret is rotated, and the next reconcile goes on with the rotated one. */
  lemma RotationGoesUnnoticed()
    ensures Sound(TheWorld.verify)
    ensures exists actions :: ConfigurationChanges(Exec(TheWorld, actions).log)
  {
    Paths.SearchIsSound();
    hide Sound, Step, Exec, CanResume, Loaded, Reopen, Digest, BuildRequest, UsingVersion;
    var actions, t := FirstSend();
    RetryStep(t, map[TheJob.key := t.record], Exec(TheWorld, actions).next);
    Ran(TheWorld, actions, 1, Transport(true), Stay(Done, map[TheJob.key := t.record], Exec(TheWorld, actions).next));
    var more := actions + [Run(1, Transport(true))];
    CanGoOn(Exec(TheWorld, more), t.record);
    var again := EnrollmentIsResumed(TheWorld, more, 2, TheJob, t.record, Reading(Second));
    var log := Exec(TheWorld, Reopen(more, 2, TheJob, Reading(Second)) + [Run(2, Proceed)]).log;
    DifferentAnchors();
    assert log[2] == Sent(t) && log[3] == Sent(again);
    assert ConfigurationChanges(log);
  }

  lemma RetryStep(t: Transmission, objects: Objects, next: nat)
    ensures Step(TheWorld, TheJob, AwaitEnrollment(t), Transport(true), objects, 0, next) == Stay(Done, objects, next)
  {
  }

  lemma DifferentAnchors()
    ensures UsingVersion(First).credentials != UsingVersion(Second).credentials
    ensures UsingVersion(First).request.anchors == [Old] && UsingVersion(Second).request.anchors == [Replaced]
            && [Old] != [Replaced]
  {
    assert CredentialsOf(First)[Current] != CredentialsOf(Second)[Current];
    assert [Old][0] != [Replaced][0];
  }
}
