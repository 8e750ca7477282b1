/**
 Order-free comparison of distinguished names and subject alternative names
 (internal/protocol/client.go, internal/protocol/kur.go).

 The code compares names as sorted lists of rendered attributes. The theorems here say what that
 decides: equality of the multisets of attributes, whatever their order or grouping into RDNs.
 */
module Names {
  import opened Basics
  import opened Ordering

  /** An attribute type in dotted decimal form, which never contains an equals sign. */
  type Oid = s: string | '=' !in s witness ""

  datatype Attribute = Attribute(oid: Oid, value: string)

  /** A distinguished name: a sequence of RDNs, each a group of attributes. */
  type Name = seq<seq<Attribute>>

  function Flatten(name: Name): seq<Attribute>
  {
    if name == [] then [] else name[0] + Flatten(name[1..])
  }

  function Render(a: Attribute): string { a.oid + "=" + a.value }

  function Map<S, T>(f: S -> T, s: seq<S>): (r: seq<T>)
    ensures |r| == |s| && forall i :: 0 <= i < |s| ==> r[i] == f(s[i])
  {
    seq(|s|, i requires 0 <= i < |s| => f(s[i]))
  }

  function AttributeSet(name: Name): seq<string> { Sort(StringLe, Map(Render, Flatten(name))) }

  lemma {:induction false} FlattenAppend(a: Name, b: Name)
    ensures Flatten(a + b) == Flatten(a) + Flatten(b)
  {
    if a == [] {
      assert a + b == b;
    } else {
      assert (a + b)[1..] == a[1..] + b;
      FlattenAppend(a[1..], b);
    }
  }

  method ComputeAttributeSet(sequence: Name) returns (attributes: seq<string>)
    ensures attributes == AttributeSet(sequence)
  {
    attributes := [];
    for i := 0 to |sequence|
      invariant attributes == Map(Render, Flatten(sequence[..i]))
    {
      var rdn := sequence[i];
      for j := 0 to |rdn|
        invariant attributes == Map(Render, Flatten(sequence[..i]) + rdn[..j])
      {
        attributes := attributes + [Render(rdn[j])];
        assert rdn[..j + 1] == rdn[..j] + [rdn[j]];
      }
      FlattenAppend(sequence[..i], [rdn]);
      assert sequence[..i + 1] == sequence[..i] + [rdn];
      assert Flatten([rdn]) == rdn == rdn[..|rdn|];
    }
    assert sequence[..|sequence|] == sequence;
    attributes := Sort(StringLe, attributes);
  }

  /** The first equals sign ends the attribute type, so rendering loses nothing. */
  lemma RenderInjective(a: Attribute, b: Attribute)
    requires Render(a) == Render(b)
    ensures a == b
  {
    var text := Render(a);
    assert text[|a.oid|] == '=' && text[|b.oid|] == '=';
    assert |a.oid| == |b.oid| by {
      assert forall k :: 0 <= k < |a.oid| ==> a.oid[k] == text[k] && a.oid[k] != '=';
      assert forall k :: 0 <= k < |b.oid| ==> b.oid[k] == text[k] && b.oid[k] != '=';
    }
    assert a.oid == text[..|a.oid|] == b.oid;
    assert a.value == text[|a.oid| + 1..] == b.value;
  }

  ghost predicate Injective<S(!new), T(!new)>(f: S -> T)
  {
    forall x, y :: f(x) == f(y) ==> x == y
  }

  lemma {:induction false} MapKeepsMultiplicity<S(!new), T(!new)>(f: S -> T, s: seq<S>, x: S)
    requires Injective(f)
    ensures multiset(Map(f, s))[f(x)] == multiset(s)[x]
  {
    if s == [] {
      assert Map(f, s) == [];
    } else {
      MapKeepsMultiplicity(f, s[1..], x);
      assert s == [s[0]] + s[1..];
      assert Map(f, s) == [f(s[0])] + Map(f, s[1..]);
    }
  }

  lemma MapPermutation<S(!new), T(!new)>(f: S -> T, a: seq<S>, b: seq<S>)
    requires Injective(f)
    ensures multiset(Map(f, a)) == multiset(Map(f, b)) <==> multiset(a) == multiset(b)
  {
    if multiset(Map(f, a)) == multiset(Map(f, b)) {
      forall x ensures multiset(a)[x] == multiset(b)[x] {
        MapKeepsMultiplicity(f, a, x);
        MapKeepsMultiplicity(f, b, x);
      }
      assert multiset(a) == multiset(b);
    }
    if multiset(a) == multiset(b) {
      forall y ensures multiset(Map(f, a))[y] == multiset(Map(f, b))[y] {
        if x :| x in a + b && f(x) == y {
          MapKeepsMultiplicity(f, a, x);
          MapKeepsMultiplicity(f, b, x);
        } else {
          assert forall x :: x in a ==> x in a + b;
          assert forall x :: x in b ==> x in a + b;
          assert y !in multiset(Map(f, a)) && y !in multiset(Map(f, b));
        }
      }
      assert multiset(Map(f, a)) == multiset(Map(f, b));
    }
  }

  lemma SortedListsCompareMultisets<S(!new)>(f: S -> string, a: seq<S>, b: seq<S>)
    requires Injective(f)
    ensures Sort(StringLe, Map(f, a)) == Sort(StringLe, Map(f, b)) <==> multiset(a) == multiset(b)
  {
    StringLeIsOrder(Map(f, a));
    MapPermutation(f, a, b);
    SortedEqualIffPermutation(StringLe, Map(f, a), Map(f, b));
  }

  /** Sorted rendered lists are equal exactly when the attribute multisets are. */
  lemma AttributeSetsEqualIff(a: Name, b: Name)
    ensures AttributeSet(a) == AttributeSet(b) <==> multiset(Flatten(a)) == multiset(Flatten(b))
  {
    assert Injective(Render) by {
      forall x, y | Render(x) == Render(y) ensures x == y { RenderInjective(x, y); }
    }
    SortedListsCompareMultisets(Render, Flatten(a), Flatten(b));
  }

  // ----- The response sender check

  predicate SenderMatchesRecipient(sender: Name, recipient: Name)
  {
    if sender == [] then false
    else if recipient == [] then true
    else AttributeSet(sender) == AttributeSet(recipient)
  }

  /** A response names the addressed authority exactly when it has the same attributes and values. */
  lemma SenderMatchesRecipientIff(sender: Name, recipient: Name)
    ensures SenderMatchesRecipient(sender, recipient) <==>
            sender != [] && (recipient == [] || multiset(Flatten(sender)) == multiset(Flatten(recipient)))
  {
    AttributeSetsEqualIff(sender, recipient);
  }

  // ----- The identity a KUR may not change

  type Octet = n: nat | n < 256

  type DerName = seq<Octet>

  /** A subjectAltName extension holds its GeneralNames, or None when its value does not parse. */
  datatype Extension = SubjectAltName(names: Option<seq<DerName>>) | OtherExtension(oid: Oid)

  function HexDigit(n: nat): char
    requires n < 16
  {
    if n < 10 then '0' + n as char else 'a' + (n - 10) as char
  }

  function Hex(bytes: DerName): (text: string)
    ensures |text| == 2 * |bytes|
  {
    if bytes == [] then ""
    else [HexDigit(bytes[0] / 16), HexDigit(bytes[0] % 16)] + Hex(bytes[1..])
  }

  lemma {:induction false} HexInjective(a: DerName, b: DerName)
    requires Hex(a) == Hex(b)
    ensures a == b
  {
    assert |a| == |b|;
    if a != [] {
      HexSplit(a);
      HexSplit(b);
      hide Hex, HexDigit;
      OctetInjective(a[0], b[0]);
      HexInjective(a[1..], b[1..]);
      assert a == [a[0]] + a[1..] && b == [b[0]] + b[1..];
    }
  }

  lemma OctetInjective(x: Octet, y: Octet)
    requires HexDigit(x / 16) == HexDigit(y / 16) && HexDigit(x % 16) == HexDigit(y % 16)
    ensures x == y
  {
    assert x / 16 == y / 16 && x % 16 == y % 16;
  }

  lemma HexSplit(a: DerName)
    requires a != []
    ensures Hex(a)[0] == HexDigit(a[0] / 16) && Hex(a)[1] == HexDigit(a[0] % 16) && Hex(a)[2..] == Hex(a[1..])
  {
  }

  /** The names of the first subjectAltName extension; None when it does not parse, empty when absent. */
  function AlternativeNames(extensions: seq<Extension>): Option<seq<DerName>>
  {
    if extensions == [] then Some([])
    else if extensions[0].OtherExtension? then AlternativeNames(extensions[1..])
    else extensions[0].names
  }

  function GeneralNameSet(extensions: seq<Extension>): Option<seq<string>>
  {
    match AlternativeNames(extensions)
    case None => None
    case Some(names) => Some(Sort(StringLe, Map(Hex, names)))
  }

  method EncodeNames(names: seq<DerName>) returns (encoded: seq<string>)
    ensures encoded == Map(Hex, names)
  {
    encoded := [];
    for i := 0 to |names|
      invariant encoded == Map(Hex, names[..i])
    {
      encoded := encoded + [Hex(names[i])];
    }
    assert names[..|names|] == names;
  }

  method ComputeGeneralNameSet(extensions: seq<Extension>) returns (encoded: Option<seq<string>>)
    ensures encoded == GeneralNameSet(extensions)
  {
    for i := 0 to |extensions|
      invariant AlternativeNames(extensions) == AlternativeNames(extensions[i..])
    {
      assert extensions[i..][1..] == extensions[i + 1..];
      if extensions[i].OtherExtension? {
        continue;
      }
      if extensions[i].names.None? {
        return None;
      }
      var list := EncodeNames(extensions[i].names.value);
      return Some(Sort(StringLe, list));
    }
    assert Map(Hex, []) == [];
    return Some([]);
  }

  predicate SameKurIdentity(subject: Name, extensions: seq<Extension>, csrSubject: Name, csrExtensions: seq<Extension>)
  {
    && AttributeSet(subject) == AttributeSet(csrSubject)
    && GeneralNameSet(extensions).Some?
    && GeneralNameSet(csrExtensions).Some?
    && GeneralNameSet(extensions) == GeneralNameSet(csrExtensions)
  }

  /** A KUR keeps the identity exactly when subject attributes and alternative names are the same multisets. */
  lemma SameKurIdentityIff(subject: Name, extensions: seq<Extension>, csrSubject: Name, csrExtensions: seq<Extension>)
    ensures SameKurIdentity(subject, extensions, csrSubject, csrExtensions) <==>
            && multiset(Flatten(subject)) == multiset(Flatten(csrSubject))
            && AlternativeNames(extensions).Some?
            && AlternativeNames(csrExtensions).Some?
            && multiset(AlternativeNames(extensions).value) == multiset(AlternativeNames(csrExtensions).value)
  {
    AttributeSetsEqualIff(subject, csrSubject);
    if AlternativeNames(extensions).Some? && AlternativeNames(csrExtensions).Some? {
      assert Injective(Hex) by {
        forall x, y | Hex(x) == Hex(y) ensures x == y { HexInjective(x, y); }
      }
      SortedListsCompareMultisets(Hex, AlternativeNames(extensions).value, AlternativeNames(csrExtensions).value);
    }
  }
}
