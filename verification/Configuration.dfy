/**
 Issuer configuration (internal/controller/configuration.go): the digest that binds an unfinished
 transaction to its issuer and Secret versions, the reader that loads each Secret once, and the
 polling limits. Hashes are injective, so a digest is represented by what is hashed.
 */
module Configuration {
  import opened Basics
  import opened Ordering
  import opened Names

  datatype IssuerKind = CMPIssuer | CMPClusterIssuer

  /** The issuer that serves a transaction. A generation identifies one version of the issuer's spec. */
  datatype IssuerRef = IssuerRef(name: string, kind: IssuerKind, uid: string, generation: int)

  datatype SecretKey = SecretKey(namespace: string, name: string)

  /** A key of a Secret's data. */
  datatype DataKey = TlsCrt | TlsKey | OtherKey(name: string)

  /** The digest of the data a workload Secret contributes: the named entries and their values. */
  datatype DataDigest = NoData | DataDigest(entries: seq<(DataKey, Bytes)>)

  datatype Fingerprint = Fingerprint(uid: string, resourceVersion: string, data: DataDigest)

  type Fingerprints = map<SecretKey, Fingerprint>

  // ----- runtimeConfigurationDigest

  datatype SecretIdentity = SecretIdentity(key: SecretKey, fingerprint: Fingerprint)

  datatype ConfigurationDigest = NoDigest | ConfigurationDigest(issuer: IssuerRef, secrets: seq<SecretIdentity>)

  predicate IdentityLe(a: SecretIdentity, b: SecretIdentity)
  {
    if a.key.namespace != b.key.namespace then StringLe(a.key.namespace, b.key.namespace)
    else StringLe(a.key.name, b.key.name)
  }

  /** Some order in which Go may iterate over the map. */
  ghost predicate Enumerates(order: seq<SecretKey>, secrets: Fingerprints)
  {
    && (forall k :: k in order <==> k in secrets)
    && (forall i, j :: 0 <= i < j < |order| ==> order[i] != order[j])
  }

  function Identities(order: seq<SecretKey>, secrets: Fingerprints): (r: seq<SecretIdentity>)
    requires forall k :: k in order ==> k in secrets
    ensures |r| == |order| && forall i :: 0 <= i < |r| ==> r[i] == SecretIdentity(order[i], secrets[order[i]])
  {
    seq(|order|, i requires 0 <= i < |order| => SecretIdentity(order[i], secrets[order[i]]))
  }

  function DigestInOrder(issuer: IssuerRef, order: seq<SecretKey>, secrets: Fingerprints): ConfigurationDigest
    requires forall k :: k in order ==> k in secrets
  {
    ConfigurationDigest(issuer, Sort(IdentityLe, Identities(order, secrets)))
  }

  method RuntimeConfigurationDigest(issuer: IssuerRef, order: seq<SecretKey>, secrets: Fingerprints)
      returns (r: ConfigurationDigest)
    requires Enumerates(order, secrets)
    ensures r == DigestInOrder(issuer, order, secrets)
  {
    var identities := [];
    for i := 0 to |order|
      invariant identities == Identities(order[..i], secrets)
    {
      identities := identities + [SecretIdentity(order[i], secrets[order[i]])];
    }
    assert order[..|order|] == order;
    r := ConfigurationDigest(issuer, Sort(IdentityLe, identities));
  }

  lemma IdentityLeIsOrder()
    ensures TotalPreorder(IdentityLe)
  {
    forall x, y ensures IdentityLe(x, y) || IdentityLe(y, x) {
      StringLeTotal(x.key.namespace, y.key.namespace);
      StringLeTotal(x.key.name, y.key.name);
    }
    forall x, y, z | IdentityLe(x, y) && IdentityLe(y, z) ensures IdentityLe(x, z) {
      if x.key.namespace == y.key.namespace == z.key.namespace {
        StringLeTransitive(x.key.name, y.key.name, z.key.name);
      } else if x.key.namespace != y.key.namespace && y.key.namespace != z.key.namespace {
        StringLeTransitive(x.key.namespace, y.key.namespace, z.key.namespace);
        StringLeTotal(x.key.namespace, y.key.namespace);
      }
    }
  }

  lemma IdentityTies(order: seq<SecretKey>, secrets: Fingerprints)
    requires forall k :: k in order ==> k in secrets
    ensures NoTies(IdentityLe, Identities(order, secrets))
  {
    forall x, y | x in Identities(order, secrets) && y in Identities(order, secrets) && IdentityLe(x, y)
    && IdentityLe(y, x)
      ensures x == y
    {
      StringLeTotal(x.key.namespace, y.key.namespace);
      StringLeTotal(x.key.name, y.key.name);
    }
  }

  lemma OnceIn(ids: seq<SecretIdentity>, i: nat)
    requires i < |ids| && forall j :: 0 <= j < |ids| && j != i ==> ids[j] != ids[i]
    ensures multiset(ids)[ids[i]] == 1
  {
    assert ids == ids[..i] + [ids[i]] + ids[i + 1..];
    assert ids[i] !in ids[..i] && ids[i] !in ids[i + 1..];
  }

  lemma IdentityOnce(order: seq<SecretKey>, secrets: Fingerprints, id: SecretIdentity)
    requires Enumerates(order, secrets)
    ensures multiset(Identities(order, secrets))[id] == if id.key in secrets && secrets[id.key] == id.fingerprint
            then 1 else 0
  {
    var ids := Identities(order, secrets);
    if id.key in secrets && secrets[id.key] == id.fingerprint {
      var i :| 0 <= i < |order| && order[i] == id.key;
      assert forall j :: 0 <= j < |ids| && j != i ==> ids[j] != id;
      OnceIn(ids, i);
    } else {
      assert id !in ids;
    }
  }

  /** In any iteration orders, the identities are the same exactly when the Secret versions are. */
  lemma SameIdentitiesIff(order: seq<SecretKey>, secrets: Fingerprints, order': seq<SecretKey>, secrets': Fingerprints)
    requires Enumerates(order, secrets) && Enumerates(order', secrets')
    ensures multiset(Identities(order, secrets)) == multiset(Identities(order', secrets')) <==> secrets == secrets'
  {
    hide Identities;
    var ids, ids' := Identities(order, secrets), Identities(order', secrets');
    if multiset(ids) == multiset(ids') {
      forall k | k in secrets || k in secrets' ensures k in secrets && k in secrets' && secrets[k] == secrets'[k] {
        var id := SecretIdentity(k, if k in secrets then secrets[k] else secrets'[k]);
        IdentityOnce(order, secrets, id);
        IdentityOnce(order', secrets', id);
      }
      assert secrets == secrets';
    }
    if secrets == secrets' {
      forall id ensures multiset(ids)[id] == multiset(ids')[id] {
        IdentityOnce(order, secrets, id);
        IdentityOnce(order', secrets', id);
      }
      assert multiset(ids) == multiset(ids');
    }
  }

  /** Whatever the iteration orders, two digests are equal exactly when issuer and Secret versions are. */
  lemma DigestsEqualIff(issuer: IssuerRef, order: seq<SecretKey>, secrets: Fingerprints,
                        issuer': IssuerRef, order': seq<SecretKey>, secrets': Fingerprints)
    requires Enumerates(order, secrets) && Enumerates(order', secrets')
    ensures DigestInOrder(issuer, order, secrets) == DigestInOrder(issuer', order', secrets') <==>
            issuer == issuer' && secrets == secrets'
  {
    IdentityLeIsOrder();
    IdentityTies(order, secrets);
    hide IdentityLe, Identities;
    SortedEqualIffPermutation(IdentityLe, Identities(order, secrets), Identities(order', secrets'));
    SameIdentitiesIff(order, secrets, order', secrets');
  }

  ghost function Enumeration(keys: set<SecretKey>): (order: seq<SecretKey>)
    ensures forall k :: k in order <==> k in keys
    ensures forall i, j :: 0 <= i < j < |order| ==> order[i] != order[j]
  {
    if keys == {} then [] else var k :| k in keys; [k] + Enumeration(keys - {k})
  }

  /** The digest of a configuration, by DigestsEqualIff the same for every iteration order. */
  ghost function Digest(issuer: IssuerRef, secrets: Fingerprints): ConfigurationDigest
  {
    DigestInOrder(issuer, Enumeration(secrets.Keys), secrets)
  }

  lemma DigestIff(issuer: IssuerRef, secrets: Fingerprints, issuer': IssuerRef, secrets': Fingerprints)
    ensures Digest(issuer, secrets) == Digest(issuer', secrets') <==> issuer == issuer' && secrets == secrets'
  {
    hide DigestInOrder;
    DigestsEqualIff(issuer, Enumeration(secrets.Keys), secrets, issuer', Enumeration(secrets'.Keys), secrets');
  }

  // ----- Merging workload fingerprints into the credential fingerprints

  /** Credential Secrets are identified by a resourceVersion, workload Secrets by the data they contribute. */
  predicate Credentials(secrets: Fingerprints)
  {
    forall k :: k in secrets ==> secrets[k].resourceVersion != "" && secrets[k].data.NoData?
  }

  predicate Workload(secrets: Fingerprints)
  {
    forall k :: k in secrets ==> secrets[k].resourceVersion == "" && secrets[k].data.DataDigest?
  }

  /** maps.Copy: a workload fingerprint replaces a credential fingerprint of the same Secret. */
  function Merge(credentials: Fingerprints, workload: Fingerprints): Fingerprints { credentials + workload }

  /** The merged map still identifies every credential version exactly when no Secret serves as both. */
  lemma MergeCoversCredentialsIff(credentials: Fingerprints, workload: Fingerprints)
    requires Credentials(credentials) && Workload(workload)
    ensures (forall k :: k in credentials ==> Merge(credentials, workload)[k] == credentials[k]) <==>
            credentials.Keys !! workload.Keys
  {
    if k :| k in credentials && k in workload {
      assert Merge(credentials, workload)[k] == workload[k];
    }
  }

  /** Both maps have the same fingerprints for these Secrets. */
  predicate AgreeOn(c: Fingerprints, c': Fingerprints, keys: set<SecretKey>)
  {
    forall k :: k in keys ==> (k in c <==> k in c') && (k in c ==> c[k] == c'[k])
  }

  /**
   The merged map determines the workload fingerprints, and of the credentials all but those of Secrets
   that are also workload Secrets.
   */
  lemma MergeDetermines(c: Fingerprints, w: Fingerprints, c': Fingerprints, w': Fingerprints)
    requires Credentials(c) && Credentials(c') && Workload(w) && Workload(w')
    requires Merge(c, w) == Merge(c', w')
    ensures w == w'
    ensures c == c' <==> AgreeOn(c, c', w.Keys)
  {
    var m := Merge(c, w);
    forall k ensures (k in w <==> k in m && m[k].data.DataDigest?) && (k in w' <==> k in m && m[k].data.DataDigest?) {
      assert k in c && k !in w ==> m[k] == c[k];
      assert k in c' && k !in w' ==> m[k] == c'[k];
    }
    assert w.Keys == w'.Keys && forall k :: k in w ==> w[k] == m[k] == w'[k];
    if AgreeOn(c, c', w.Keys) {
      forall k ensures (k in c <==> k in c') && (k in c ==> c[k] == c'[k]) {
        assert k !in w ==> (k in c <==> k in m) && (k in c' <==> k in m);
        assert k in c && k !in w ==> c[k] == m[k] == c'[k];
      }
      assert c.Keys == c'.Keys;
    }
  }

  /**
   Rotating a credential Secret is hidden from the digest exactly when the Secret is also a workload
   Secret: its resourceVersion is overwritten, and only the entries the workload uses are compared.
   */
  lemma RotationHiddenIff(issuer: IssuerRef, credentials: Fingerprints, workload: Fingerprints, k: SecretKey,
                          rotated: Fingerprint)
    requires k in credentials && rotated != credentials[k]
    ensures k in workload <==>
            Digest(issuer, Merge(credentials[k := rotated], workload)) ==
            Digest(issuer, Merge(credentials, workload))
  {
    hide Digest;
    var before, after := Merge(credentials, workload), Merge(credentials[k := rotated], workload);
    DigestIff(issuer, after, issuer, before);
    if k in workload {
      assert after == before;
    } else {
      assert after[k] == rotated && before[k] == credentials[k];
    }
  }

  // ----- secretGetter

  /** Whether an owner is a cert-manager.io/v1 Certificate is all that matters of its API version and kind. */
  datatype OwnerRef = OwnerRef(isCertificate: bool, name: string, uid: string, controller: bool)

  /** A Secret: its identity, its data and the metadata cert-manager writes. */
  datatype Secret = Secret(
    uid: string, resourceVersion: string, data: map<DataKey, Bytes>,
    certificateName: Option<string>, owners: seq<OwnerRef>, nextPrivateKey: bool)

  function CredentialFingerprint(s: Secret): Fingerprint { Fingerprint(s.uid, s.resourceVersion, NoData) }

  /** A credential Secret is identified by the object and its version, so every write to it shows. */
  lemma CredentialFingerprintIff(s: Secret, s': Secret)
    ensures CredentialFingerprint(s) == CredentialFingerprint(s') <==>
            s.uid == s'.uid && s.resourceVersion == s'.resourceVersion
  {
  }

  function CredentialFingerprints(secrets: map<SecretKey, Secret>): Fingerprints
  {
    map k | k in secrets :: CredentialFingerprint(secrets[k])
  }

  class SecretReader {
    const namespace: string
    var secrets: map<SecretKey, Secret>

    constructor (namespace: string)
      ensures this.namespace == namespace && secrets == map[]
    {
      this.namespace := namespace;
      secrets := map[];
    }

    /** Reads a Secret from the cluster the first time and from memory afterwards. */
    method Get(cluster: map<SecretKey, Secret>, name: string) returns (r: Option<Secret>)
      modifies this
      ensures var key := SecretKey(namespace, name);
              if key in old(secrets) then r == Some(old(secrets)[key]) && secrets == old(secrets)
              else if key in cluster then r == Some(cluster[key]) && secrets == old(secrets)[key := cluster[key]]
              else r == None && secrets == old(secrets)
    {
      var key := SecretKey(namespace, name);
      if key in secrets {
        return Some(secrets[key]);
      }
      if key !in cluster {
        return None;
      }
      secrets := secrets[key := cluster[key]];
      return Some(cluster[key]);
    }

    /**
     Loads the named Secrets while the cluster changes between any two reads. Every value handed out,
     also for a name read before, is the one the digest is taken over.
     */
    method Load(names: seq<string>, clusters: seq<map<SecretKey, Secret>>) returns (values: Option<seq<Secret>>)
      requires |clusters| == |names| && secrets == map[]
      modifies this
      ensures values.Some? ==> Remembers(namespace, secrets, names, values.value)
      ensures values.None? <==> exists i :: 0 <= i < |names| && Unavailable(namespace, names, clusters, i)
    {
      var loaded: seq<Secret> := [];
      for i := 0 to |names|
        invariant Remembers(namespace, secrets, names[..i], loaded)
        invariant forall j :: 0 <= j < i ==> !Unavailable(namespace, names, clusters, j)
      {
        ghost var before := secrets;
        var secret := Get(clusters[i], names[i]);
        if secret.None? {
          assert Unavailable(namespace, names, clusters, i);
          return None;
        }
        RemembersMore(namespace, before, names[..i], loaded, names[i], secret.value);
        assert secrets == before[SecretKey(namespace, names[i]) := secret.value];
        assert names[..i + 1] == names[..i] + [names[i]];
        loaded := loaded + [secret.value];
      }
      assert names[..|names|] == names;
      return Some(loaded);
    }
  }

  /** The memo holds exactly the named Secrets, each in the version that was handed out. */
  ghost predicate Remembers(namespace: string, secrets: map<SecretKey, Secret>, names: seq<string>, values: seq<Secret>)
  {
    && |values| == |names| && (forall k :: k in secrets <==> k.namespace == namespace && k.name in names)
    && forall i :: 0 <= i < |names| ==> secrets[SecretKey(namespace, names[i])] == values[i]
  }

  /** The first read of this name finds no Secret. */
  ghost predicate Unavailable(namespace: string, names: seq<string>, clusters: seq<map<SecretKey, Secret>>, i: nat)
    requires i < |names| == |clusters|
  {
    names[i] !in names[..i] && SecretKey(namespace, names[i]) !in clusters[i]
  }

  lemma RemembersMore(namespace: string, secrets: map<SecretKey, Secret>, names: seq<string>, values: seq<Secret>,
                      name: string, value: Secret)
    requires Remembers(namespace, secrets, names, values)
    requires SecretKey(namespace, name) in secrets ==> secrets[SecretKey(namespace, name)] == value
    ensures Remembers(namespace, secrets[SecretKey(namespace, name) := value], names + [name], values + [value])
  {
  }

  /** The fingerprints the digest covers are those of the values the request was built from. */
  lemma FingerprintsCoverValues(namespace: string, secrets: map<SecretKey, Secret>, names: seq<string>,
                                values: seq<Secret>, i: nat)
    requires Remembers(namespace, secrets, names, values) && i < |names|
    ensures SecretKey(namespace, names[i]) in CredentialFingerprints(secrets)
    ensures CredentialFingerprints(secrets)[SecretKey(namespace, names[i])] == CredentialFingerprint(values[i])
    ensures |CredentialFingerprints(secrets)| == |secrets|
  {
    assert CredentialFingerprints(secrets).Keys == secrets.Keys;
    assert |CredentialFingerprints(secrets).Keys| == |secrets.Keys|;
  }

  // ----- workloadSecretFingerprint

  function Entry(s: Secret, key: DataKey): (DataKey, Bytes) { (key, if key in s.data then s.data[key] else []) }

  function WorkloadFingerprint(s: Secret, keys: seq<DataKey>): Fingerprint
  {
    Fingerprint(s.uid, "", DataDigest(Map(k => Entry(s, k), keys)))
  }

  method WorkloadSecretFingerprint(s: Secret, keys: seq<DataKey>) returns (r: Fingerprint)
    ensures r == WorkloadFingerprint(s, keys)
  {
    var entries := [];
    for i := 0 to |keys|
      invariant entries == Map(k => Entry(s, k), keys[..i])
    {
      entries := entries + [Entry(s, keys[i])];
    }
    assert keys[..|keys|] == keys;
    r := Fingerprint(s.uid, "", DataDigest(entries));
  }

  /** Both Secrets hold the same under this key; an absent entry is an empty one. */
  predicate SameContent(s: Secret, s': Secret, key: DataKey)
  {
    if key in s.data && key in s'.data then s.data[key] == s'.data[key]
    else (key in s.data ==> s.data[key] == []) && (key in s'.data ==> s'.data[key] == [])
  }

  /**
   Only the Secret's identity and the entries used matter: a metadata-only write changes nothing, new
   key material does.
   */
  lemma WorkloadFingerprintIff(s: Secret, s': Secret, keys: seq<DataKey>)
    ensures WorkloadFingerprint(s, keys) == WorkloadFingerprint(s', keys) <==>
            s.uid == s'.uid && forall k :: k in keys ==> SameContent(s, s', k)
  {
    assert forall k :: k in keys ==> (SameContent(s, s', k) <==> Entry(s, k) == Entry(s', k));
    var e, e' := Map(k => Entry(s, k), keys), Map(k => Entry(s', k), keys);
    assert (forall k :: k in keys ==> Entry(s, k) == Entry(s', k)) ==> e == e';
    if e == e' {
      forall k | k in keys ensures Entry(s, k) == Entry(s', k) {
        var i :| 0 <= i < |keys| && keys[i] == k;
        assert e[i] == e'[i];
      }
    }
  }

  // ----- Transaction limits and delays (durations in nanoseconds)

  datatype TransactionSpec = TransactionSpec(
    maximumDuration: int, minimumPollInterval: int, maximumPollInterval: int, maximumPolls: int)

  const Minute := 60_000_000_000

  function LimitsWithDefaults(spec: TransactionSpec): TransactionSpec
  {
    var duration := if spec.maximumDuration <= 0 then 10 * Minute else spec.maximumDuration;
    var minimum := if spec.minimumPollInterval <= 0 then 1_000_000_000 else spec.minimumPollInterval;
    var maximum := if spec.maximumPollInterval < minimum then 5 * Minute else spec.maximumPollInterval;
    var polls := if spec.maximumPolls < 1 then 60 else spec.maximumPolls;
    TransactionSpec(duration, minimum, maximum, polls)
  }

  /** validateTransactionAndPolicy: an omitted block, or limits that make sense together. */
  predicate ValidTransaction(spec: TransactionSpec)
  {
    || spec == TransactionSpec(0, 0, 0, 0)
    || (spec.maximumDuration > 0 && spec.minimumPollInterval > 0 &&
        spec.maximumPollInterval >= spec.minimumPollInterval && spec.maximumPolls >= 1)
  }

  predicate UsableLimits(limits: TransactionSpec)
  {
    0 < limits.minimumPollInterval <= limits.maximumPollInterval && limits.maximumPolls >= 1
    && limits.maximumDuration > 0
  }

  /**
   Every limit is the configured one where that is usable, and otherwise the documented default: ten
   minutes, one second, five minutes and 60 polls.
   */
  lemma LimitsAreConfigured(spec: TransactionSpec)
    ensures var limits := LimitsWithDefaults(spec);
            && (spec.maximumDuration > 0 ==> limits.maximumDuration == spec.maximumDuration)
            && (spec.maximumDuration <= 0 ==> limits.maximumDuration == 600_000_000_000)
            && (spec.minimumPollInterval > 0 ==> limits.minimumPollInterval == spec.minimumPollInterval)
            && (spec.minimumPollInterval <= 0 ==> limits.minimumPollInterval == 1_000_000_000)
            && (spec.maximumPollInterval >= limits.minimumPollInterval ==>
                  limits.maximumPollInterval == spec.maximumPollInterval)
            && (spec.maximumPollInterval < limits.minimumPollInterval ==>
                  limits.maximumPollInterval == 300_000_000_000)
            && (spec.maximumPolls >= 1 ==> limits.maximumPolls == spec.maximumPolls)
            && (spec.maximumPolls < 1 ==> limits.maximumPolls == 60)
  {
  }

  /** Validation admits an omitted block, which means the defaults, and otherwise exactly what is used as it is. */
  lemma ValidatedLimits(spec: TransactionSpec)
    ensures ValidTransaction(spec) <==>
            || spec == TransactionSpec(0, 0, 0, 0)
            || (LimitsWithDefaults(spec) == spec && UsableLimits(spec))
    ensures LimitsWithDefaults(TransactionSpec(0, 0, 0, 0)) ==
            TransactionSpec(600_000_000_000, 1_000_000_000, 300_000_000_000, 60)
  {
  }

  /** The defaults alone repair every spec but one whose minimum exceeds both its own and the default maximum. */
  lemma LimitsUsableIff(spec: TransactionSpec)
    ensures UsableLimits(LimitsWithDefaults(spec)) <==>
            !(spec.minimumPollInterval > spec.maximumPollInterval && spec.minimumPollInterval > 5 * Minute)
    ensures ValidTransaction(spec) ==> UsableLimits(LimitsWithDefaults(spec))
  {
  }

  function PollDelay(checkAfter: int, limits: TransactionSpec): int
  {
    if checkAfter < limits.minimumPollInterval then limits.minimumPollInterval
    else if checkAfter > limits.maximumPollInterval then limits.maximumPollInterval
    else checkAfter
  }

  /** The delay a waiting transaction is requeued with. */
  function RequeueDelay(checkAfter: int, limits: TransactionSpec, now: int, deadline: int): int
  {
    var delay := PollDelay(checkAfter, limits);
    if 0 < deadline - now < delay then deadline - now else delay
  }

  /** How far a delay is from the requested one. */
  function Distance(delay: int, checkAfter: int): nat
  {
    if delay < checkAfter then checkAfter - delay else delay - checkAfter
  }

  /**
   Without a deadline ahead that is nearer, the delay is the permitted one nearest to what the server
   asked for; otherwise it is the time left.
   */
  lemma RequeueDelayIs(checkAfter: int, limits: TransactionSpec, now: int, deadline: int, other: int)
    requires UsableLimits(limits) && limits.minimumPollInterval <= other <= limits.maximumPollInterval
    ensures var nearest := RequeueDelay(checkAfter, limits, now, now);
            var delay := RequeueDelay(checkAfter, limits, now, deadline);
            && limits.minimumPollInterval <= nearest <= limits.maximumPollInterval
            && (other != nearest ==> Distance(nearest, checkAfter) < Distance(other, checkAfter))
            && (deadline <= now || nearest <= deadline - now ==> delay == nearest)
            && (now < deadline && deadline - now < nearest ==> delay == deadline - now)
  {
  }

  /**
   For every requested wait the delay is positive, within the maximum and, before the deadline, within
   the time left.
   */
  lemma RequeueDelayBounds(checkAfter: int, limits: TransactionSpec, now: int, deadline: int)
    requires UsableLimits(limits)
    ensures var delay := RequeueDelay(checkAfter, limits, now, deadline);
            && 0 < delay <= limits.maximumPollInterval
            && (now < deadline ==> delay <= deadline - now)
            && (deadline <= now || limits.minimumPollInterval <= deadline - now ==> delay >= limits.minimumPollInterval)
  {
  }
}
