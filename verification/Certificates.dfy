/**
 Certificate chains: selection and trimming of a trusted path (internal/protocol/certificate.go,
 internal/protocol/client.go) and the chain a transaction record keeps (internal/controller/signer.go,
 internal/controller/transaction_store.go).

 A certificate value stands for its DER encoding, so equality is equality of encodings. The library's
 path search is a parameter: Sound says that it lists exactly the issuer paths, in some order.
 */
module Certificates {
  import opened Basics
  import opened Names

  datatype Algorithm = Rsa | Ecdsa | Ed25519 | MlDsa

  datatype PublicKey = PublicKey(algorithm: Algorithm, id: nat)

  datatype Usage =
    | DigitalSignature | ContentCommitment | KeyEncipherment | DataEncipherment | KeyAgreement
    | CertSign | CrlSign | EncipherOnly | DecipherOnly

  datatype Certificate = Certificate(
    serial: nat, subject: Name, issuer: Name, key: PublicKey, signer: PublicKey, authority: bool,
    keyUsage: Option<set<Usage>>, extensions: seq<Extension>, notBefore: int, notAfter: int)

  type Path = seq<Certificate>

  // ----- Section 5 of RFC 9881

  const MlDsaUsages: set<Usage> := {DigitalSignature, ContentCommitment, CertSign, CrlSign}

  /** An ML-DSA key may carry signature usages only, and at least one when the extension is present. */
  predicate UsageOk(c: Certificate)
  {
    c.key.algorithm.MlDsa? && c.keyUsage.Some? ==> c.keyUsage.value != {} && c.keyUsage.value <= MlDsaUsages
  }

  /** The rule refuses exactly an ML-DSA key whose extension is empty or permits encryption or key agreement. */
  lemma UsageRefusedIff(c: Certificate)
    ensures !UsageOk(c) <==>
            && c.key.algorithm.MlDsa? && c.keyUsage.Some?
            && (c.keyUsage.value == {} || exists u ::
                  && u in c.keyUsage.value
                  && (u.KeyEncipherment? || u.DataEncipherment? || u.KeyAgreement? || u.EncipherOnly?
                      || u.DecipherOnly?))
  {
    if c.keyUsage.Some? {
      forall u | u in c.keyUsage.value
        ensures u !in MlDsaUsages <==>
                u.KeyEncipherment? || u.DataEncipherment? || u.KeyAgreement? || u.EncipherOnly? || u.DecipherOnly?
      {
      }
    }
  }

  predicate AllUsageOk(path: Path) { forall c :: c in path ==> UsageOk(c) }

  // ----- The paths a verifier may return

  predicate Issues(parent: Certificate, child: Certificate)
  {
    parent.authority && parent.subject == child.issuer && parent.key == child.signer
  }

  predicate SelfSigned(c: Certificate) { Issues(c, c) }

  /** A loop-free issuer path from the leaf to an anchor; an anchor is its own path. */
  predicate ValidPath(leaf: Certificate, roots: seq<Certificate>, pool: seq<Certificate>, now: int, path: Path)
  {
    && |path| > 0 && path[0] == leaf && path[|path| - 1] in roots
    && (leaf in roots ==> |path| == 1)
    && (forall i :: 0 <= i < |path| - 1 ==> Issues(path[i + 1], path[i]))
    && (forall i :: 0 < i < |path| - 1 ==> path[i] in pool && !SelfSigned(path[i]))
    && (forall i, j :: 0 <= i < j < |path| ==> path[i] != path[j])
    && (forall i :: 0 <= i < |path| ==> path[i].notBefore <= now <= path[i].notAfter)
  }

  /** x509.Certificate.Verify: leaf, anchors, intermediates and the time give a list of paths. */
  type Verifier = (Certificate, seq<Certificate>, seq<Certificate>, int) -> seq<Path>

  ghost predicate Lists(leaf: Certificate, roots: seq<Certificate>, pool: seq<Certificate>, now: int, paths: seq<Path>)
  {
    forall path :: path in paths <==> ValidPath(leaf, roots, pool, now, path)
  }

  ghost predicate Sound(verify: Verifier)
  {
    forall leaf, roots, pool, now :: Lists(leaf, roots, pool, now, verify(leaf, roots, pool, now))
  }

  // ----- verifyCertificateChain

  function FirstUsable(paths: seq<Path>): Option<Path>
  {
    if paths == [] then None
    else if AllUsageOk(paths[0]) then Some(paths[0])
    else FirstUsable(paths[1..])
  }

  function VerifyChain(verify: Verifier, leaf: Certificate, roots: seq<Certificate>, pool: seq<Certificate>,
                       now: int): Option<Path>
  {
    FirstUsable(verify(leaf, roots, pool, now))
  }

  method SelectChain(chains: seq<Path>) returns (r: Option<Path>)
    ensures r == FirstUsable(chains)
  {
    for i := 0 to |chains|
      invariant FirstUsable(chains) == FirstUsable(chains[i..])
    {
      var usable := true;
      for j := 0 to |chains[i]|
        invariant usable <==> forall k :: 0 <= k < j ==> UsageOk(chains[i][k])
      {
        if !UsageOk(chains[i][j]) {
          usable := false;
          break;
        }
      }
      assert chains[i..][1..] == chains[i + 1..];
      if usable {
        return Some(chains[i]);
      }
    }
    return None;
  }

  lemma {:induction false} FirstUsableIff(paths: seq<Path>)
    ensures FirstUsable(paths).Some? <==> exists path :: path in paths && AllUsageOk(path)
    ensures FirstUsable(paths).Some? ==>
              exists i :: 0 <= i < |paths| && FirstUsable(paths) == Some(paths[i]) && AllUsageOk(paths[i]) &&
                          forall j :: 0 <= j < i ==> !AllUsageOk(paths[j])
  {
    if paths != [] && !AllUsageOk(paths[0]) {
      FirstUsableIff(paths[1..]);
      assert paths == [paths[0]] + paths[1..];
      if FirstUsable(paths).Some? {
        var i :| 0 <= i < |paths[1..]| && FirstUsable(paths) == Some(paths[1..][i]) && AllUsageOk(paths[1..][i]) &&
                 forall j :: 0 <= j < i ==> !AllUsageOk(paths[1..][j]);
        assert paths[i + 1] == paths[1..][i];
        assert forall j :: 0 < j < i + 1 ==> paths[j] == paths[1..][j - 1];
      }
    }
  }

  /** A certificate is trusted exactly when some issuer path satisfies the ML-DSA usage rule. */
  lemma VerifyChainIff(verify: Verifier, leaf: Certificate, roots: seq<Certificate>, pool: seq<Certificate>, now: int)
    requires Sound(verify)
    ensures VerifyChain(verify, leaf, roots, pool, now).Some? <==>
            exists path :: ValidPath(leaf, roots, pool, now, path) && AllUsageOk(path)
    ensures VerifyChain(verify, leaf, roots, pool, now).Some? ==>
              var path := VerifyChain(verify, leaf, roots, pool, now).value;
              ValidPath(leaf, roots, pool, now, path) && AllUsageOk(path)
  {
    var paths := verify(leaf, roots, pool, now);
    assert Lists(leaf, roots, pool, now, paths);
    FirstUsableIff(paths);
  }

  // ----- validateAndOrderChain

  function Without(s: seq<Certificate>, leaf: Certificate): (r: seq<Certificate>)
    ensures forall c :: c in r <==> c in s && c != leaf
  {
    if s == [] then [] else (if s[0] == leaf then [] else [s[0]]) + Without(s[1..], leaf)
  }

  /** The members before the first self-signed one. */
  function UntilSelfSigned(path: Path): (r: Path)
    ensures r <= path
    ensures forall i :: 0 <= i < |r| ==> !SelfSigned(r[i])
    ensures |r| < |path| ==> SelfSigned(path[|r|])
  {
    if path == [] || SelfSigned(path[0]) then [] else [path[0]] + UntilSelfSigned(path[1..])
  }

  function TrimPath(leaf: Certificate, path: Path): Path
    requires path != []
  {
    [leaf] + UntilSelfSigned(path[1..])
  }

  function ValidateAndOrderChain(verify: Verifier, leaf: Certificate, candidates: seq<Certificate>,
                                 roots: seq<Certificate>, now: int): Option<Path>
  {
    match VerifyChain(verify, leaf, roots, Without(candidates, leaf), now)
    case None => None
    case Some(path) => if path == [] then Some([leaf]) else Some(TrimPath(leaf, path))
  }

  method OrderChain(leaf: Certificate, verified: Path) returns (chain: Path)
    requires verified != []
    ensures chain == TrimPath(leaf, verified)
  {
    chain := [leaf];
    var index := 1;
    while index < |verified|
      invariant 1 <= index <= |verified|
      invariant [leaf] + UntilSelfSigned(verified[1..]) == chain + UntilSelfSigned(verified[index..])
    {
      var certificate := verified[index];
      if SelfSigned(certificate) {
        break;
      }
      assert verified[index..][1..] == verified[index + 1..];
      chain := chain + [certificate];
      index := index + 1;
    }
  }

  /** Leaf first, linked, and nothing self-signed after the leaf. */
  predicate OrderedChain(leaf: Certificate, chain: Path)
  {
    && |chain| > 0 && chain[0] == leaf
    && (forall i :: 0 <= i < |chain| - 1 ==> Issues(chain[i + 1], chain[i]))
    && (forall i :: 0 < i < |chain| ==> !SelfSigned(chain[i]))
  }

  /** The returned chain is ordered and drops at most the anchor, and only when that is self-signed. */
  lemma TrimmedChain(leaf: Certificate, roots: seq<Certificate>, pool: seq<Certificate>, now: int, path: Path)
    requires ValidPath(leaf, roots, pool, now, path)
    ensures OrderedChain(leaf, TrimPath(leaf, path)) && TrimPath(leaf, path) <= path
    ensures var anchor := path[|path| - 1];
            var own := anchor.authority && anchor.subject == anchor.issuer && anchor.key == anchor.signer;
            TrimPath(leaf, path) == if |path| > 1 && own then path[..|path| - 1] else path
  {
    var rest := UntilSelfSigned(path[1..]);
    assert path == [leaf] + path[1..];
    assert TrimPath(leaf, path) == path[..|rest| + 1];
    if |rest| < |path[1..]| {
      assert SelfSigned(path[|rest| + 1]);
      assert |rest| + 1 == |path| - 1;
    }
  }

  // ----- ValidateIssuedChain and the recorded chain

  function ValidateIssuedChain(verify: Verifier, chain: Path, candidates: seq<Certificate>,
                               roots: seq<Certificate>, now: int): Option<Path>
  {
    if chain == [] then None
    else ValidateAndOrderChain(verify, chain[0], chain[1..] + candidates, roots, now)
  }

  datatype ChainError = NoChain | BadUsage | KeyMismatch | Untrusted

  /** recordedChain: the stored chain has legal key usages and certifies the key of the CSR. */
  function RecordedChain(stored: Path, csrKey: PublicKey): Result<Path, ChainError>
  {
    if stored == [] then Err(NoChain)
    else if !AllUsageOk(stored) then Err(BadUsage)
    else if stored[0].key != csrKey then Err(KeyMismatch)
    else Ok(stored)
  }

  method ReadRecordedChain(stored: Path, csrKey: PublicKey) returns (r: Result<Path, ChainError>)
    ensures r == RecordedChain(stored, csrKey)
  {
    if stored == [] {
      return Err(NoChain);
    }
    var chain: Path := [];
    for i := 0 to |stored|
      invariant chain == stored[..i] && AllUsageOk(chain)
    {
      if !UsageOk(stored[i]) {
        return Err(BadUsage);
      }
      chain := chain + [stored[i]];
    }
    assert chain == stored;
    if chain[0].key != csrKey {
      return Err(KeyMismatch);
    }
    return Ok(chain);
  }

  /** trustedRecordedChain after recordedChain: what a resume or recovery requires of a stored chain. */
  function TrustedRecordedChain(verify: Verifier, stored: Path, csrKey: PublicKey, candidates: seq<Certificate>,
                                roots: seq<Certificate>, now: int): Result<Path, ChainError>
  {
    match RecordedChain(stored, csrKey)
    case Err(e) => Err(e)
    case Ok(chain) =>
      match ValidateIssuedChain(verify, chain, candidates, roots, now)
      case None => Err(Untrusted)
      case Some(trusted) => Ok(trusted)
  }

  /** A path stays valid when the pool still holds its interior. */
  lemma PathSurvives(leaf: Certificate, roots: seq<Certificate>, pool: seq<Certificate>, pool': seq<Certificate>,
                     now: int, path: Path)
    requires ValidPath(leaf, roots, pool, now, path)
    requires forall i :: 0 < i < |path| - 1 ==> path[i] in pool'
    ensures ValidPath(leaf, roots, pool', now, path)
  {
  }

  /**
   A chain accepted from a response and recorded is accepted again from the record, with the same
   leaf, whatever other candidates are configured, as long as anchors, CSR key and time are the same.
   */
  lemma RecordedChainAcceptedAgain(verify: Verifier, leaf: Certificate, csrKey: PublicKey, candidates: seq<Certificate>,
                                   roots: seq<Certificate>, now: int, configured: seq<Certificate>)
    requires Sound(verify) && leaf.key == csrKey
    requires ValidateAndOrderChain(verify, leaf, candidates, roots, now).Some?
    ensures var chain := ValidateAndOrderChain(verify, leaf, candidates, roots, now).value;
            var again := TrustedRecordedChain(verify, chain, csrKey, configured, roots, now);
            again.Ok? && OrderedChain(leaf, chain) && OrderedChain(leaf, again.value)
  {
    var pool := Without(candidates, leaf);
    VerifyChainIff(verify, leaf, roots, pool, now);
    var path := VerifyChain(verify, leaf, roots, pool, now).value;
    TrimmedChain(leaf, roots, pool, now, path);
    var chain := TrimPath(leaf, path);
    assert AllUsageOk(chain);
    var pool' := Without(chain[1..] + configured, leaf);
    forall i | 0 < i < |path| - 1 ensures path[i] in pool' {
      assert path[i] == chain[i] == chain[1..][i - 1];
      assert path[0] != path[i];
    }
    PathSurvives(leaf, roots, pool, pool', now, path);
    VerifyChainIff(verify, leaf, roots, pool', now);
    TrimmedChain(leaf, roots, pool', now, VerifyChain(verify, leaf, roots, pool', now).value);
  }

  /** The leaf of a validated chain is the leaf that was validated. */
  lemma ValidatedLeaf(verify: Verifier, leaf: Certificate, candidates: seq<Certificate>, roots: seq<Certificate>,
                      now: int)
    ensures ValidateAndOrderChain(verify, leaf, candidates, roots, now).Some? ==>
              var chain := ValidateAndOrderChain(verify, leaf, candidates, roots, now).value;
              |chain| > 0 && chain[0] == leaf
  {
  }

  /** A usable issuer path leads from the leaf to an anchor. */
  ghost predicate Anchored(leaf: Certificate, roots: seq<Certificate>, pool: seq<Certificate>, now: int)
  {
    exists path :: ValidPath(leaf, roots, pool, now, path) && AllUsageOk(path)
  }

  /**
   A stored chain is trusted exactly when its usages are legal, it certifies the CSR key and its leaf is
   anchored now.
   */
  lemma TrustedRecordedChainIff(verify: Verifier, stored: Path, csrKey: PublicKey, candidates: seq<Certificate>,
                                roots: seq<Certificate>, now: int)
    requires Sound(verify)
    ensures var r := TrustedRecordedChain(verify, stored, csrKey, candidates, roots, now);
            && (r.Ok? <==> && stored != [] && AllUsageOk(stored) && stored[0].key == csrKey
                           && Anchored(stored[0], roots, Without(stored[1..] + candidates, stored[0]), now))
            && (r.Ok? ==> OrderedChain(stored[0], r.value))
  {
    if stored != [] {
      hide Sound, ValidPath;
      var pool := Without(stored[1..] + candidates, stored[0]);
      VerifyChainIff(verify, stored[0], roots, pool, now);
      var path := VerifyChain(verify, stored[0], roots, pool, now);
      if path.Some? {
        TrimmedChain(stored[0], roots, pool, now, path.value);
      }
    }
  }
}
