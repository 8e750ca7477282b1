/**
 The distinguished-name scanner of internal/protocol/parse.go: a subset of section 2.4 of RFC 4514 in
 which a backslash quotes one character and an unquoted comma ends a component.
 */
module DistinguishedName {
  import opened Basics
  import opened Names

  datatype DnError = NameEmpty | EndsWithEscape | ComponentEmpty | LacksEquals | ValueEmpty | Unsupported(text: string)

  /** The supported attribute types; E is another spelling of EMAILADDRESS. */
  datatype Key = CN | C | L | ST | STREET | O | OU | SERIALNUMBER | DC | UID | EMAILADDRESS | E

  datatype Component = Component(key: Key, value: string)

  // ----- Library string functions

  /** unicode.IsSpace */
  predicate IsSpace(c: char)
  {
    var n := c as int;
    || 9 <= n <= 13 || n == 32 || n == 0x85 || n == 0xA0 || n == 0x1680
    || 0x2000 <= n <= 0x200A || n == 0x2028 || n == 0x2029 || n == 0x202F || n == 0x205F || n == 0x3000
  }

  function TrimLeft(s: string): string { if s != [] && IsSpace(s[0]) then TrimLeft(s[1..]) else s }

  function TrimRight(s: string): string { if s != [] && IsSpace(s[|s| - 1]) then TrimRight(s[..|s| - 1]) else s }

  function Trim(s: string): string { TrimRight(TrimLeft(s)) }

  /** strings.ToUpper on every character whose upper case is an ASCII letter. */
  function ToUpper(s: string): string
  {
    if s == [] then [] else
      var c := s[0];
      [if 'a' <= c <= 'z' then c - 'a' + 'A'
       else if c as int == 0x131 then 'I'
       else if c as int == 0x17F then 'S'
       else c] + ToUpper(s[1..])
  }

  predicate Blank(s: string) { forall i :: 0 <= i < |s| ==> IsSpace(s[i]) }

  /** s is m between blanks, and m neither begins nor ends with a space. */
  ghost predicate Trimmed(s: string, m: string)
  {
    && (m != "" ==> !IsSpace(m[0]) && !IsSpace(m[|m| - 1]))
    && exists left, right :: Blank(left) && Blank(right) && s == left + m + right
  }

  lemma {:induction false} TrimsLeft(s: string) returns (left: string)
    ensures Blank(left) && s == left + TrimLeft(s) && (TrimLeft(s) != "" ==> !IsSpace(TrimLeft(s)[0]))
  {
    if s != "" && IsSpace(s[0]) {
      left := TrimsLeft(s[1..]);
      left := [s[0]] + left;
    } else {
      left := "";
    }
  }

  lemma {:induction false} TrimsRight(s: string) returns (right: string)
    ensures Blank(right) && s == TrimRight(s) + right
    ensures TrimRight(s) != "" ==> !IsSpace(TrimRight(s)[|TrimRight(s)| - 1]) && TrimRight(s)[0] == s[0]
  {
    if s != "" && IsSpace(s[|s| - 1]) {
      right := TrimsRight(s[..|s| - 1]);
      right := right + [s[|s| - 1]];
    } else {
      right := "";
    }
  }

  lemma {:induction false} BlankLeft(left: string, s: string)
    requires Blank(left)
    ensures TrimLeft(left + s) == TrimLeft(s)
  {
    if left == "" {
      assert left + s == s;
    } else {
      assert (left + s)[1..] == left[1..] + s;
      BlankLeft(left[1..], s);
    }
  }

  lemma {:induction false} BlankRight(s: string, right: string)
    requires Blank(right)
    ensures TrimRight(s + right) == TrimRight(s)
  {
    if right == "" {
      assert s + right == s;
    } else {
      assert (s + right)[..|s + right| - 1] == s + right[..|right| - 1];
      BlankRight(s, right[..|right| - 1]);
    }
  }

  lemma TrimmedIsTrim(s: string, m: string)
    requires Trimmed(s, m)
    ensures m == Trim(s)
  {
    var left, right :| Blank(left) && Blank(right) && s == left + m + right;
    assert s == left + (m + right);
    BlankLeft(left, m + right);
    if m == "" {
      assert m + right == right == right + "";
      BlankLeft(right, "");
    } else {
      assert TrimLeft(m + right) == m + right;
      BlankRight(m, right);
    }
  }

  /** Trimming takes off exactly the spaces around a text. */
  lemma TrimIff(s: string, m: string)
    ensures Trimmed(s, m) <==> m == Trim(s)
  {
    var left := TrimsLeft(s);
    var right := TrimsRight(TrimLeft(s));
    assert s == left + Trim(s) + right;
    assert Trimmed(s, Trim(s));
    if Trimmed(s, m) {
      TrimmedIsTrim(s, m);
    }
  }

  /** u is the upper case of c, where that is an ASCII letter, and otherwise c itself. */
  predicate UpperOf(c: char, u: char)
  {
    if 'a' <= c <= 'z' then 'A' <= u <= 'Z' && u as int - 'A' as int == c as int - 'a' as int
    else if c as int == 0x131 then u == 'I'
    else if c as int == 0x17F then u == 'S'
    else u == c
  }

  /** Upper-casing works character by character. */
  lemma {:induction false} ToUpperIff(s: string, u: string)
    ensures u == ToUpper(s) <==> |u| == |s| && forall i :: 0 <= i < |s| ==> UpperOf(s[i], u[i])
  {
    if s != "" && u != "" {
      ToUpperIff(s[1..], u[1..]);
      assert u == [u[0]] + u[1..] && forall i :: 0 < i < |s| ==> s[i] == s[1..][i - 1];
      assert forall i :: 0 < i < |u| ==> u[i] == u[1..][i - 1];
    } else if s != "" {
      assert |ToUpper(s)| > 0;
    }
  }

  /** strings.Cut at the first equals sign. */
  function Cut(s: string): Option<(string, string)>
  {
    if s == [] then None
    else if s[0] == '=' then Some(("", s[1..]))
    else match Cut(s[1..])
      case None => None
      case Some((key, rest)) => Some(([s[0]] + key, rest))
  }

  // ----- Which characters are quoted

  /** The length of the run of backslashes that ends just before index i. */
  ghost function Backslashes(s: string, i: nat): nat
    requires i <= |s|
  {
    if i > 0 && s[i - 1] == '\\' then 1 + Backslashes(s, i - 1) else 0
  }

  /** A character is quoted when an odd run of backslashes precedes it. */
  ghost predicate Quoted(s: string, i: nat)
    requires i <= |s|
  {
    Backslashes(s, i) % 2 == 1
  }

  ghost predicate BareComma(s: string, i: nat)
    requires i < |s|
  {
    s[i] == ',' && !Quoted(s, i)
  }

  /** A piece of a name: no unquoted comma inside it and no backslash left open at its end. */
  ghost predicate Piece(s: string)
  {
    !Quoted(s, |s|) && forall i :: 0 <= i < |s| ==> !BareComma(s, i)
  }

  function Join(pieces: seq<string>): string
    requires pieces != []
  {
    if |pieces| == 1 then pieces[0] else pieces[0] + "," + Join(pieces[1..])
  }

  /** The pieces are what lies between the unquoted commas of s. */
  ghost predicate Splits(s: string, pieces: seq<string>)
  {
    pieces != [] && Join(pieces) == s && forall k :: 0 <= k < |pieces| ==> Piece(pieces[k])
  }

  lemma {:induction false} BackslashesOfPrefix(s: string, t: string, i: nat)
    requires i <= |s| && s <= t
    ensures Backslashes(s, i) == Backslashes(t, i)
  {
    if i > 0 && s[i - 1] == '\\' { BackslashesOfPrefix(s, t, i - 1); }
  }

  lemma {:induction false} BackslashesAfter(s: string, start: nat, i: nat)
    requires start + i <= |s| && (start == 0 || s[start - 1] != '\\')
    ensures Backslashes(s[start..], i) == Backslashes(s, start + i)
  {
    if i > 0 && s[start + i - 1] == '\\' { BackslashesAfter(s, start, i - 1); }
  }

  /** A name splits in at most one way, so the commas that separate are exactly the unquoted ones. */
  lemma {:induction false} SplitIsUnique(s: string, a: seq<string>, b: seq<string>)
    requires Splits(s, a) && Splits(s, b)
    ensures a == b
  {
    FirstPieceNotLonger(s, a, b);
    FirstPieceNotLonger(s, b, a);
    assert a[0] == s[..|a[0]|] == b[0];
    assert a == [a[0]] + a[1..] && b == [b[0]] + b[1..];
    if |a| > 1 {
      assert s[|a[0]| + 1..] == Join(a[1..]) == Join(b[1..]);
      SplitIsUnique(s[|a[0]| + 1..], a[1..], b[1..]);
    }
  }

  lemma FirstPieceNotLonger(s: string, a: seq<string>, b: seq<string>)
    requires Splits(s, a) && Splits(s, b)
    ensures |b[0]| <= |a[0]|
  {
    if |b[0]| > |a[0]| {
      assert a[0] <= s && b[0] <= s;
      BackslashesOfPrefix(a[0], s, |a[0]|);
      BackslashesOfPrefix(b[0], s, |a[0]|);
      assert s[|a[0]|] == ',' == b[0][|a[0]|];
      assert BareComma(b[0], |a[0]|);
    }
  }

  // ----- splitDN

  ghost function TrimAll(pieces: seq<string>): seq<string> { Map(Trim, pieces) }

  function Parts(parts: seq<string>): Result<seq<string>, DnError>
  {
    if "" in parts then Err(ComponentEmpty) else Ok(parts)
  }

  /** What splitDN answers for s, in terms of its pieces. */
  ghost predicate SplitAnswer(s: string, r: Result<seq<string>, DnError>)
  {
    if Trim(s) == "" then r == Err(NameEmpty)
    else if Quoted(s, |s|) then r == Err(EndsWithEscape)
    else exists pieces :: Splits(s, pieces) && r == Parts(TrimAll(pieces))
  }

  /** The text before the scanner's current component. */
  function Consumed(pieces: seq<string>): string
  {
    if pieces == [] then "" else pieces[0] + "," + Consumed(pieces[1..])
  }

  lemma {:induction false} ConsumedAppend(pieces: seq<string>, last: string)
    ensures Consumed(pieces + [last]) == Consumed(pieces) + last + ","
    ensures Join(pieces + [last]) == Consumed(pieces) + last
  {
    if pieces == [] {
      assert pieces + [last] == [last] && [last][1..] == [];
    } else {
      assert (pieces + [last])[1..] == pieces[1..] + [last];
      ConsumedAppend(pieces[1..], last);
    }
  }

  /** Everything from start up to index belongs to the current piece. */
  ghost predicate Scanned(s: string, start: nat, index: nat)
    requires start <= index <= |s|
  {
    && (start == 0 || s[start - 1] == ',')
    && forall i :: start <= i < index ==> !BareComma(s, i)
  }

  lemma PieceScanned(s: string, start: nat, index: nat)
    requires start <= index <= |s| && Scanned(s, start, index) && !Quoted(s, index)
    ensures Piece(s[start..index])
  {
    var piece := s[start..index];
    forall i | 0 <= i <= |piece| ensures Backslashes(piece, i) == Backslashes(s, start + i) {
      BackslashesAfter(s, start, i);
      BackslashesOfPrefix(piece, s[start..], i);
    }
    forall i | 0 <= i < |piece| ensures !BareComma(piece, i) {
      assert !BareComma(s, start + i);
    }
  }

  /** Ending the current piece at an unquoted index extends the split. */
  lemma EndPiece(s: string, start: nat, index: nat, pieces: seq<string>)
    requires start <= index <= |s| && Scanned(s, start, index) && !Quoted(s, index)
    requires s[..start] == Consumed(pieces) && forall k :: 0 <= k < |pieces| ==> Piece(pieces[k])
    ensures forall k :: 0 <= k < |pieces + [s[start..index]]| ==> Piece((pieces + [s[start..index]])[k])
    ensures Join(pieces + [s[start..index]]) == s[..index]
    ensures Consumed(pieces + [s[start..index]]) == s[..index] + ","
    ensures TrimAll(pieces + [s[start..index]]) == TrimAll(pieces) + [Trim(s[start..index])]
  {
    PieceScanned(s, start, index);
    ConsumedAppend(pieces, s[start..index]);
    assert s[..index] == s[..start] + s[start..index];
  }

  lemma QuotedNext(s: string, index: nat)
    requires index < |s|
    ensures Quoted(s, index + 1) <==> s[index] == '\\' && !Quoted(s, index)
  {
  }

  lemma ScanOn(s: string, start: nat, index: nat)
    requires start <= index < |s| && Scanned(s, start, index)
    ensures !BareComma(s, index) ==> Scanned(s, start, index + 1)
    ensures BareComma(s, index) ==> Scanned(s, index + 1, index + 1)
  {
  }

  method SplitDn(value: string) returns (r: Result<seq<string>, DnError>)
    ensures SplitAnswer(value, r)
  {
    assert TrimAll([]) == [] && Scanned(value, 0, 0) && !Quoted(value, 0);
    hide Trim, TrimAll, Piece, Join, Scanned, Quoted;
    if Trim(value) == "" {
      return Err(NameEmpty);
    }
    var parts, start, escaped := [], 0, false;
    ghost var pieces: seq<string> := [];
    for index := 0 to |value|
      invariant start <= index && Scanned(value, start, index)
      invariant escaped == Quoted(value, index)
      invariant value[..start] == Consumed(pieces) && parts == TrimAll(pieces)
      invariant forall k :: 0 <= k < |pieces| ==> Piece(pieces[k])
    {
      QuotedNext(value, index);
      ScanOn(value, start, index);
      if escaped {
        escaped := false;
      } else if value[index] == '\\' {
        escaped := true;
      } else if value[index] == ',' {
        EndPiece(value, start, index, pieces);
        parts := parts + [Trim(value[start..index])];
        pieces := pieces + [value[start..index]];
        start := index + 1;
        assert value[..start] == value[..index] + ",";
      }
    }
    if escaped {
      return Err(EndsWithEscape);
    }
    EndPiece(value, start, |value|, pieces);
    assert value[start..] == value[start..|value|] && value[..|value|] == value;
    parts := parts + [Trim(value[start..])];
    assert Splits(value, pieces + [value[start..]]);
    return Parts(parts);
  }

  // ----- unescapeDNValue

  function Unescape(s: string): Result<string, DnError>
  {
    if s == [] then Ok([])
    else if s[0] != '\\' then Prepend(s[0], Unescape(s[1..]))
    else if |s| == 1 then Err(EndsWithEscape)
    else Prepend(s[1], Unescape(s[2..]))
  }

  function Prepend(c: char, r: Result<string, DnError>): Result<string, DnError>
  {
    if r.Ok? then Ok([c] + r.value) else r
  }

  function PrependAll(s: string, r: Result<string, DnError>): Result<string, DnError>
  {
    if r.Ok? then Ok(s + r.value) else r
  }

  lemma PrependAllStep(s: string, c: char, r: Result<string, DnError>)
    ensures PrependAll(s, Prepend(c, r)) == PrependAll(s + [c], r) && PrependAll("", r) == r
  {
    if r.Ok? {
      assert s + ([c] + r.value) == s + [c] + r.value && "" + r.value == r.value;
    }
  }

  method UnescapeDnValue(value: string) returns (r: Result<string, DnError>)
    ensures r == Unescape(value)
  {
    var result, escaped := "", false;
    PrependAllStep("", ' ', Unescape(value));
    assert value[0..] == value;
    for i := 0 to |value|
      invariant escaped ==> i > 0 && value[i - 1] == '\\'
      invariant Unescape(value) == PrependAll(result, Unescape(value[if escaped then i - 1 else i..]))
    {
      assert value[i..][1..] == value[i + 1..];
      PrependAllStep(result, value[i], Unescape(value[i + 1..]));
      if escaped {
        assert value[i - 1..][2..] == value[i + 1..];
        result := result + [value[i]];
        escaped := false;
      } else if value[i] == '\\' {
        escaped := true;
      } else {
        result := result + [value[i]];
      }
    }
    if escaped {
      return Err(EndsWithEscape);
    }
    assert value[|value|..] == "" && result + "" == result;
    return Ok(result);
  }

  // ----- ParseDistinguishedName

  function KeyText(key: Key): string
  {
    match key
    case CN => "CN" case C => "C" case L => "L" case ST => "ST" case STREET => "STREET" case O => "O"
    case OU => "OU" case SERIALNUMBER => "SERIALNUMBER" case DC => "DC" case UID => "UID"
    case EMAILADDRESS => "EMAILADDRESS" case E => "E"
  }

  function OidOf(key: Key): Oid
  {
    match key
    case CN => "2.5.4.3" case C => "2.5.4.6" case L => "2.5.4.7" case ST => "2.5.4.8"
    case STREET => "2.5.4.9" case O => "2.5.4.10" case OU => "2.5.4.11" case SERIALNUMBER => "2.5.4.5"
    case DC => "0.9.2342.19200300.100.1.25" case UID => "0.9.2342.19200300.100.1.1"
    case EMAILADDRESS => "1.2.840.113549.1.9.1" case E => "1.2.840.113549.1.9.1"
  }

  function FindKey(text: string, keys: seq<Key>): Option<Key>
  {
    if keys == [] then None
    else if KeyText(keys[0]) == text then Some(keys[0])
    else FindKey(text, keys[1..])
  }

  function KeyOf(text: string): Option<Key>
  {
    FindKey(text, [CN, C, L, ST, STREET, O, OU, SERIALNUMBER, DC, UID, EMAILADDRESS, E])
  }

  function ParsePart(part: string): Result<Component, DnError>
  {
    match Cut(part)
    case None => Err(LacksEquals)
    case Some((key, raw)) =>
      match Unescape(Trim(raw))
      case Err(e) => Err(e)
      case Ok(decoded) =>
        if decoded == "" then Err(ValueEmpty)
        else match KeyOf(ToUpper(Trim(key)))
          case None => Err(Unsupported(ToUpper(Trim(key))))
          case Some(k) => Ok(Component(k, decoded))
  }

  function ParseParts(parts: seq<string>): Result<seq<Component>, DnError>
  {
    if parts == [] then Ok([])
    else match ParsePart(parts[0])
      case Err(e) => Err(e)
      case Ok(c) =>
        match ParseParts(parts[1..])
        case Err(e) => Err(e)
        case Ok(rest) => Ok([c] + rest)
  }

  /** pkix.Name: single-valued fields are overwritten, list fields grow. */
  datatype PkixName = PkixName(
    commonName: string, serialNumber: string, country: seq<string>, organization: seq<string>,
    organizationalUnit: seq<string>, locality: seq<string>, province: seq<string>,
    street: seq<string>, extraNames: seq<Attribute>)

  const NoName := PkixName("", "", [], [], [], [], [], [], [])

  function AddNameAttribute(name: PkixName, c: Component): PkixName
  {
    match c.key
    case CN => name.(commonName := c.value)
    case C => name.(country := name.country + [c.value])
    case L => name.(locality := name.locality + [c.value])
    case ST => name.(province := name.province + [c.value])
    case STREET => name.(street := name.street + [c.value])
    case O => name.(organization := name.organization + [c.value])
    case OU => name.(organizationalUnit := name.organizationalUnit + [c.value])
    case SERIALNUMBER => name.(serialNumber := c.value)
    case _ => name.(extraNames := name.extraNames + [Attribute(OidOf(c.key), c.value)])
  }

  function Build(cs: seq<Component>): PkixName
  {
    if cs == [] then NoName else AddNameAttribute(Build(cs[..|cs| - 1]), cs[|cs| - 1])
  }

  lemma {:induction false} ParsePartsStep(parts: seq<string>, part: string)
    ensures ParseParts(parts + [part]) ==
            if ParseParts(parts).Err? then ParseParts(parts)
            else if ParsePart(part).Err? then Err(ParsePart(part).error)
            else Ok(ParseParts(parts).value + [ParsePart(part).value])
  {
    if parts == [] {
      assert [part][1..] == [] && parts + [part] == [part];
      if ParsePart(part).Ok? {
        assert [ParsePart(part).value] + [] == [] + [ParsePart(part).value];
      }
    } else {
      assert (parts + [part])[1..] == parts[1..] + [part];
      ParsePartsStep(parts[1..], part);
      if ParsePart(parts[0]).Ok? && ParseParts(parts[1..]).Ok? && ParsePart(part).Ok? {
        var c, rest, last := ParsePart(parts[0]).value, ParseParts(parts[1..]).value, ParsePart(part).value;
        assert [c] + (rest + [last]) == [c] + rest + [last];
      }
    }
  }

  lemma {:induction false} ParsePartsFails(parts: seq<string>, more: seq<string>)
    requires ParseParts(parts).Err?
    ensures ParseParts(parts + more) == ParseParts(parts)
  {
    assert (parts + more)[1..] == parts[1..] + more;
    if ParsePart(parts[0]).Ok? { ParsePartsFails(parts[1..], more); }
  }

  /** The answer for a name whose pieces are given. */
  ghost function ParseAnswer(parts: Result<seq<string>, DnError>): Result<seq<Component>, DnError>
  {
    match parts case Err(e) => Err(e) case Ok(list) => ParseParts(list)
  }

  lemma {:induction false} CutNone(s: string)
    ensures Cut(s).None? <==> '=' !in s
  {
    if s != "" {
      assert s == [s[0]] + s[1..];
      if s[0] != '=' { CutNone(s[1..]); }
    }
  }

  /** The cut is at the first equals sign. */
  lemma {:induction false} CutIff(s: string, key: string, rest: string)
    ensures Cut(s) == Some((key, rest)) <==> s == key + "=" + rest && '=' !in key
  {
    if s != "" && s[0] != '=' {
      assert s == [s[0]] + s[1..];
      if key != "" {
        CutIff(s[1..], key[1..], rest);
        assert key == [key[0]] + key[1..] && key + "=" + rest == [key[0]] + (key[1..] + "=" + rest);
      }
    } else if s != "" {
      assert s == "=" + s[1..];
      assert key != "" ==> (key + "=" + rest)[0] == key[0] && key[0] in key;
    }
  }

  lemma {:induction false} FoundKeyText(text: string, keys: seq<Key>)
    ensures FindKey(text, keys).Some? ==> KeyText(FindKey(text, keys).value) == text
  {
    if keys != [] && KeyText(keys[0]) != text { FoundKeyText(text, keys[1..]); }
  }

  lemma KeyOfIff(text: string, key: Key)
    ensures KeyOf(text) == Some(key) <==> KeyText(key) == text
  {
    KeyOfText(key);
    FoundKeyText(text, [CN, C, L, ST, STREET, O, OU, SERIALNUMBER, DC, UID, EMAILADDRESS, E]);
    hide FindKey;
  }

  lemma {:induction false} UnescapeError(s: string)
    ensures Unescape(s).Err? ==> Unescape(s).error == EndsWithEscape
  {
    if s != "" && s[0] != '\\' { UnescapeError(s[1..]); } else if |s| > 1 { UnescapeError(s[2..]); }
  }

  /** The part is a key text, the first equals sign and a raw value. */
  ghost predicate Assigns(part: string, text: string, raw: string) { part == text + "=" + raw && '=' !in text }

  /**
   What a part of a name means: a supported key, in any case and spacing, with a non-empty unescaped
   value; or what is wrong first.
   */
  ghost predicate PartAnswer(part: string, r: Result<Component, DnError>)
  {
    match r
    case Err(LacksEquals) => '=' !in part
    case Err(EndsWithEscape) => exists text, raw :: Assigns(part, text, raw) && Unescape(Trim(raw)).Err?
    case Err(ValueEmpty) => exists text, raw :: Assigns(part, text, raw) && Unescape(Trim(raw)) == Ok("")
    case Err(Unsupported(name)) =>
      exists text, raw ::
        && Assigns(part, text, raw) && Unescape(Trim(raw)).Ok? && Unescape(Trim(raw)).value != ""
        && name == ToUpper(Trim(text)) && forall key :: KeyText(key) != name
    case Err(_) => false
    case Ok(c) =>
      exists text, raw ::
        Assigns(part, text, raw) && ToUpper(Trim(text)) == KeyText(c.key) && Unescape(Trim(raw)) == Ok(c.value)
        && c.value != ""
  }

  /** Every part has exactly one answer, and the parser gives it. */
  lemma PartAnswerIff(part: string, r: Result<Component, DnError>)
    ensures PartAnswer(part, r) <==> r == ParsePart(part)
  {
    CutNone(part);
    hide KeyOf, KeyText, Trim, ToUpper, Unescape;
    if Cut(part).Some? {
      var (text, raw) := Cut(part).value;
      CutIff(part, text, raw);
      forall text', raw' | Assigns(part, text', raw') ensures text' == text && raw' == raw {
        CutIff(part, text', raw');
      }
      UnescapeError(Trim(raw));
      forall key ensures KeyOf(ToUpper(Trim(text))) == Some(key) <==> KeyText(key) == ToUpper(Trim(text)) {
        KeyOfIff(ToUpper(Trim(text)), key);
      }
      assert Assigns(part, text, raw);
    }
    hide Cut;
  }

  method ParseComponent(part: string) returns (r: Result<Component, DnError>)
    ensures PartAnswer(part, r) && r == ParsePart(part)
  {
    PartAnswerIff(part, ParsePart(part));
    var cut := Cut(part);
    if cut.None? {
      return Err(LacksEquals);
    }
    var decoded := UnescapeDnValue(Trim(cut.value.1));
    if decoded.Err? {
      return Err(decoded.error);
    }
    if decoded.value == "" {
      return Err(ValueEmpty);
    }
    var key := ToUpper(Trim(cut.value.0));
    if KeyOf(key).None? {
      return Err(Unsupported(key));
    }
    return Ok(Component(KeyOf(key).value, decoded.value));
  }

  /** The name parsed from the components of the unique split of value, or the first error. */
  ghost predicate NameAnswer(value: string, r: Result<PkixName, DnError>)
  {
    exists parts ::
      && SplitAnswer(value, parts)
      && r == match ParseAnswer(parts) case Err(e) => Err(e) case Ok(components) => Ok(Build(components))
  }

  method ParseDistinguishedName(value: string) returns (r: Result<PkixName, DnError>)
    ensures NameAnswer(value, r)
  {
    hide ParsePart, SplitAnswer, AddNameAttribute;
    var split := SplitDn(value);
    if split.Err? {
      return Err(split.error);
    }
    var list, name := split.value, NoName;
    ghost var done: seq<Component> := [];
    for i := 0 to |list|
      invariant ParseParts(list[..i]) == Ok(done) && name == Build(done)
    {
      assert list[..i + 1] == list[..i] + [list[i]] && list == list[..i + 1] + list[i + 1..];
      ParsePartsStep(list[..i], list[i]);
      if ParsePart(list[i]).Err? {
        ParsePartsFails(list[..i + 1], list[i + 1..]);
      }
      var part := ParseComponent(list[i]);
      if part.Err? {
        return Err(part.error);
      }
      name := AddNameAttribute(name, part.value);
      assert (done + [part.value])[..|done|] == done;
      done := done + [part.value];
    }
    assert list[..|list|] == list;
    return Ok(name);
  }

  // ----- Rendering and parsing back

  function EscapeChar(c: char): string { if c == '\\' || c == ',' then ['\\', c] else [c] }

  /** Quote every backslash and comma. */
  function Escape(value: string): string { if value == [] then [] else EscapeChar(value[0]) + Escape(value[1..]) }

  function RenderComponent(c: Component): string { KeyText(c.key) + "=" + Escape(c.value) }

  function RenderName(cs: seq<Component>): string
    requires cs != []
  {
    Join(Map(RenderComponent, cs))
  }

  /** A value that survives trimming: not empty, no white space at either end. */
  predicate Tidy(value: string) { value != "" && !IsSpace(value[0]) && !IsSpace(value[|value| - 1]) }

  lemma {:induction false} EscapeEnds(value: string)
    requires value != ""
    ensures Escape(value) != "" && Escape(value)[|Escape(value)| - 1] == value[|value| - 1]
    ensures Escape(value)[0] == value[0] || Escape(value)[0] == '\\'
  {
    if |value| > 1 { EscapeEnds(value[1..]); }
  }

  lemma {:induction false} UnescapeEscape(value: string)
    ensures Unescape(Escape(value)) == Ok(value)
  {
    if value != "" {
      UnescapeEscape(value[1..]);
      var e := Escape(value);
      if e[0] == '\\' {
        assert e[2..] == Escape(value[1..]);
      } else {
        assert e[1..] == Escape(value[1..]);
      }
      assert [value[0]] + value[1..] == value;
    }
  }

  lemma ExtendPiece(s: string, more: string)
    requires Piece(s)
    requires (|more| == 1 && more[0] != '\\' && more[0] != ',') || (|more| == 2 && more[0] == '\\')
    ensures Piece(s + more)
  {
    var t := s + more;
    forall i | 0 <= i <= |s| ensures Backslashes(s, i) == Backslashes(t, i) { BackslashesOfPrefix(s, t, i); }
    if |more| == 2 {
      assert Backslashes(t, |s| + 1) == 1 + Backslashes(t, |s|);
      assert Quoted(t, |s| + 1);
    }
    assert !Quoted(t, |t|);
    forall i | 0 <= i < |t| ensures !BareComma(t, i) {
      if i < |s| { assert !BareComma(s, i); }
    }
  }

  lemma EscapedChar(prefix: string, c: char)
    requires Piece(prefix)
    ensures Piece(prefix + EscapeChar(c))
  {
    ExtendPiece(prefix, EscapeChar(c));
  }

  lemma EscapeSplit(prefix: string, value: string)
    requires value != ""
    ensures prefix + EscapeChar(value[0]) + Escape(value[1..]) == prefix + Escape(value)
  {
  }

  lemma {:induction false} EscapedPiece(prefix: string, value: string)
    requires Piece(prefix)
    ensures Piece(prefix + Escape(value))
    decreases |value|
  {
    if value == "" {
      assert prefix + Escape(value) == prefix;
    } else {
      hide Piece, Escape, EscapeChar;
      EscapedChar(prefix, value[0]);
      EscapedPiece(prefix + EscapeChar(value[0]), value[1..]);
      EscapeSplit(prefix, value);
    }
  }

  predicate UpperCase(s: string) { forall i :: 0 <= i < |s| ==> 'A' <= s[i] <= 'Z' }

  lemma KeyTextUpperCase(key: Key)
    ensures KeyText(key) != "" && UpperCase(KeyText(key))
  {
  }

  lemma {:induction false} UpperCaseStays(s: string)
    requires UpperCase(s)
    ensures ToUpper(s) == s
  {
    if s != "" {
      UpperCaseStays(s[1..]);
      assert s == [s[0]] + s[1..];
    }
  }

  lemma {:induction false} UpperCasePiece(s: string, n: nat)
    requires UpperCase(s) && n <= |s|
    ensures Piece(s[..n])
  {
    if n == 0 {
      assert s[..n] == "";
    } else {
      UpperCasePiece(s, n - 1);
      ExtendPiece(s[..n - 1], [s[n - 1]]);
      assert s[..n] == s[..n - 1] + [s[n - 1]];
    }
  }

  lemma {:induction false} FindKeyText(key: Key, keys: seq<Key>)
    requires key in keys
    ensures FindKey(KeyText(key), keys) == Some(key)
  {
    if keys[0] != key {
      assert KeyText(keys[0]) != KeyText(key);
      FindKeyText(key, keys[1..]);
    }
  }

  lemma KeyOfText(key: Key)
    ensures KeyOf(KeyText(key)) == Some(key)
  {
    var keys := [CN, C, L, ST, STREET, O, OU, SERIALNUMBER, DC, UID, EMAILADDRESS, E];
    assert key in keys;
    FindKeyText(key, keys);
  }

  lemma RenderedPiece(c: Component)
    ensures Piece(RenderComponent(c))
  {
    var key := KeyText(c.key);
    KeyTextUpperCase(c.key);
    UpperCasePiece(key, |key|);
    assert key[..|key|] == key;
    ExtendPiece(key, "=");
    EscapedPiece(key + "=", c.value);
  }

  lemma RenderedTidy(c: Component)
    requires Tidy(c.value)
    ensures Tidy(RenderComponent(c)) && Tidy(Escape(c.value))
  {
    KeyTextUpperCase(c.key);
    EscapeEnds(c.value);
    var text := RenderComponent(c);
    assert text[0] == KeyText(c.key)[0] && text[|text| - 1] == Escape(c.value)[|Escape(c.value)| - 1];
  }

  lemma TrimTidy(s: string)
    requires Tidy(s)
    ensures Trim(s) == s
  {
  }

  lemma ComponentRoundTrip(c: Component)
    requires Tidy(c.value)
    ensures ParsePart(RenderComponent(c)) == Ok(c)
  {
    var key, value := KeyText(c.key), Escape(c.value);
    KeyTextUpperCase(c.key);
    RenderedTidy(c);
    TrimTidy(value);
    TrimTidy(key);
    CutIff(key + "=" + value, key, value);
    UnescapeEscape(c.value);
    UpperCaseStays(key);
    KeyOfText(c.key);
  }

  /**
   A component is parsed back from any spelling: its key in any case and its value escaped, with spaces
   around both.
   */
  lemma LooseRoundTrip(c: Component, key: string, blanks: seq<string>)
    requires Tidy(c.value) && |blanks| == 4 && forall i :: 0 <= i < 4 ==> Blank(blanks[i])
    requires |key| == |KeyText(c.key)| && forall i :: 0 <= i < |key| ==> UpperOf(key[i], KeyText(c.key)[i])
    ensures ParsePart(blanks[0] + key + blanks[1] + "=" + (blanks[2] + Escape(c.value) + blanks[3])) == Ok(c)
  {
    var text, raw := blanks[0] + key + blanks[1], blanks[2] + Escape(c.value) + blanks[3];
    hide Trim;
    KeyTextUpperCase(c.key);
    ToUpperIff(key, KeyText(c.key));
    RenderedTidy(c);
    assert Trimmed(text, key);
    TrimIff(text, key);
    assert Trimmed(raw, Escape(c.value));
    TrimIff(raw, Escape(c.value));
    CutIff(text + "=" + raw, text, raw);
    UnescapeEscape(c.value);
    KeyOfText(c.key);
  }

  /** The supported attribute types and their object identifiers, as in section 3 of RFC 4514 and in PKCS #9. */
  lemma SupportedAttribute(key: Key)
    ensures (KeyText(key), OidOf(key)) in {
              ("CN", "2.5.4.3"), ("SERIALNUMBER", "2.5.4.5"), ("C", "2.5.4.6"), ("L", "2.5.4.7"), ("ST", "2.5.4.8"),
              ("STREET", "2.5.4.9"), ("O", "2.5.4.10"), ("OU", "2.5.4.11"),
              ("DC", "0.9.2342.19200300.100.1.25"), ("UID", "0.9.2342.19200300.100.1.1"),
              ("EMAILADDRESS", "1.2.840.113549.1.9.1"), ("E", "1.2.840.113549.1.9.1")}
  {
  }

  lemma {:induction false} TidyNotBlank(s: string)
    requires s != "" && !IsSpace(s[0])
    ensures TrimRight(s) != ""
  {
    if IsSpace(s[|s| - 1]) { TidyNotBlank(s[..|s| - 1]); }
  }

  lemma {:induction false} JoinedEndsClosed(pieces: seq<string>)
    requires pieces != [] && forall k :: 0 <= k < |pieces| ==> Piece(pieces[k])
    ensures !Quoted(Join(pieces), |Join(pieces)|) && pieces[0] <= Join(pieces)
  {
    if |pieces| > 1 {
      var rest := Join(pieces[1..]);
      JoinedEndsClosed(pieces[1..]);
      BackslashesAfter(Join(pieces), |pieces[0]| + 1, |rest|);
      assert Join(pieces)[|pieces[0]| + 1..] == rest;
    }
  }

  lemma {:induction false} ParseRendered(cs: seq<Component>)
    requires forall c :: c in cs ==> Tidy(c.value)
    ensures ParseParts(Map(RenderComponent, cs)) == Ok(cs)
  {
    hide ParsePart, RenderComponent, Tidy;
    var parts := Map(RenderComponent, cs);
    if cs != [] {
      assert cs[0] in cs && forall c :: c in cs[1..] ==> c in cs;
      ComponentRoundTrip(cs[0]);
      ParseRendered(cs[1..]);
      assert parts[0] == RenderComponent(cs[0]) && parts[1..] == Map(RenderComponent, cs[1..]);
      assert cs == [cs[0]] + cs[1..];
    }
  }

  /** Rendering with quoted backslashes and commas is parsed back to exactly the same components. */
  lemma NameRoundTrip(cs: seq<Component>, parts: Result<seq<string>, DnError>)
    requires cs != [] && forall c :: c in cs ==> Tidy(c.value)
    requires SplitAnswer(RenderName(cs), parts)
    ensures ParseAnswer(parts) == Ok(cs)
  {
    var pieces := Map(RenderComponent, cs);
    forall k | 0 <= k < |pieces| ensures Piece(pieces[k]) && pieces[k] != "" && Trim(pieces[k]) == pieces[k] {
      RenderedPiece(cs[k]);
      RenderedTidy(cs[k]);
      TrimTidy(pieces[k]);
    }
    JoinedEndsClosed(pieces);
    RenderedTidy(cs[0]);
    TidyNotBlank(RenderName(cs));
    assert Splits(RenderName(cs), pieces);
    var found :| Splits(RenderName(cs), found) && parts == Parts(TrimAll(found));
    SplitIsUnique(RenderName(cs), found, pieces);
    assert TrimAll(pieces) == pieces;
    ParseRendered(cs);
  }

  /** So the parser gives back the name built from exactly those components. */
  lemma ParsedRendering(cs: seq<Component>, r: Result<PkixName, DnError>)
    requires cs != [] && (forall c :: c in cs ==> Tidy(c.value)) && NameAnswer(RenderName(cs), r)
    ensures r == Ok(Build(cs))
  {
    hide SplitAnswer, RenderName, Tidy;
    var parts :| SplitAnswer(RenderName(cs), parts)
                 && r == match ParseAnswer(parts) case Err(e) => Err(e) case Ok(components) => Ok(Build(components));
    NameRoundTrip(cs, parts);
  }

  // ----- What the parsed name still says

  function Group(oid: Oid, values: seq<string>): Name
  {
    if values == [] then [] else [Map(v => Attribute(oid, v), values)]
  }

  function Singles(attributes: seq<Attribute>): Name { Map(a => [a], attributes) }

  function Single(oid: Oid, value: string): Name { if value == "" then [] else Group(oid, [value]) }

  /** The RDNs of one field, in the order pkix.Name.ToRDNSequence writes the fields. */
  function Field(n: PkixName, i: nat): Name
    requires i < 9
  {
    match i
    case 0 => Group(OidOf(C), n.country)
    case 1 => Group(OidOf(O), n.organization)
    case 2 => Group(OidOf(OU), n.organizationalUnit)
    case 3 => Group(OidOf(L), n.locality)
    case 4 => Group(OidOf(ST), n.province)
    case 5 => Group(OidOf(STREET), n.street)
    case 6 => Single(OidOf(CN), n.commonName)
    case 7 => Single(OidOf(SERIALNUMBER), n.serialNumber)
    case 8 => Singles(n.extraNames)
  }

  function FieldsFrom(n: PkixName, i: nat): Name
    requires i <= 9
    decreases 9 - i
  {
    if i == 9 then [] else Field(n, i) + FieldsFrom(n, i + 1)
  }

  function ToRdnSequence(n: PkixName): Name { FieldsFrom(n, 0) }

  function AttributeOf(c: Component): Attribute { Attribute(OidOf(c.key), c.value) }

  /** The field that holds the attributes of a key. */
  function FieldIndex(key: Key): (i: nat)
    ensures i < 9
  {
    match key
    case C => 0 case O => 1 case OU => 2 case L => 3 case ST => 4 case STREET => 5
    case CN => 6 case SERIALNUMBER => 7 case _ => 8
  }

  /** How often an attribute occurs in a name, or how many attributes it has. */
  ghost function Tally(x: Option<Attribute>, name: Name): nat { TallyList(x, Flatten(name)) }

  ghost function TallyList(x: Option<Attribute>, s: seq<Attribute>): nat
  {
    if x.None? then |s| else multiset(s)[x.value]
  }

  lemma TallyAppend(x: Option<Attribute>, a: Name, b: Name)
    ensures Tally(x, a + b) == Tally(x, a) + Tally(x, b)
  {
    FlattenAppend(a, b);
  }

  /** Names that differ in one field differ in their tallies by that field. */
  lemma {:induction false} ChangedField(x: Option<Attribute>, n: PkixName, m: PkixName, k: nat, i: nat)
    requires i <= 9 && k < 9 && forall j :: 0 <= j < 9 && j != k ==> Field(n, j) == Field(m, j)
    ensures Tally(x, FieldsFrom(m, i)) + (if i <= k then Tally(x, Field(n, k)) else 0) ==
            Tally(x, FieldsFrom(n, i)) + (if i <= k then Tally(x, Field(m, k)) else 0)
    decreases 9 - i
  {
    hide Tally, Field;
    if i < 9 {
      TallyAppend(x, Field(n, i), FieldsFrom(n, i + 1));
      TallyAppend(x, Field(m, i), FieldsFrom(m, i + 1));
      ChangedField(x, n, m, k, i + 1);
    }
  }

  lemma TallyOne(x: Option<Attribute>, rdn: seq<Attribute>)
    ensures Tally(x, [rdn]) == TallyList(x, rdn)
  {
    assert [rdn][1..] == [] && Flatten([rdn]) == rdn;
  }

  lemma GroupTally(x: Option<Attribute>, oid: Oid, values: seq<string>, v: string)
    ensures Tally(x, Group(oid, values + [v])) == Tally(x, Group(oid, values)) + TallyList(x, [Attribute(oid, v)])
  {
    var f := (v: string) => Attribute(oid, v);
    assert Map(f, values + [v]) == Map(f, values) + [Attribute(oid, v)];
    TallyOne(x, Map(f, values + [v]));
    TallyOne(x, Map(f, values));
    assert values == [] ==> Map(f, values) == [];
  }

  lemma SingleTally(x: Option<Attribute>, oid: Oid, v: string)
    ensures Tally(x, Single(oid, v)) == if v == "" then 0 else TallyList(x, [Attribute(oid, v)])
  {
    if v != "" {
      GroupTally(x, oid, [], v);
      assert [] + [v] == [v];
    }
  }

  lemma SinglesTally(x: Option<Attribute>, attributes: seq<Attribute>, a: Attribute)
    ensures Tally(x, Singles(attributes + [a])) == Tally(x, Singles(attributes)) + TallyList(x, [a])
  {
    assert Singles(attributes + [a]) == Singles(attributes) + [[a]];
    TallyAppend(x, Singles(attributes), [[a]]);
    TallyOne(x, [a]);
  }

  predicate SingleField(key: Key) { key.CN? || key.SERIALNUMBER? }

  /** Adding a component to a field that is a list keeps what was there. */
  lemma AddToList(x: Option<Attribute>, n: PkixName, c: Component)
    requires !SingleField(c.key)
    ensures var k := FieldIndex(c.key);
            Tally(x, Field(AddNameAttribute(n, c), k)) == Tally(x, Field(n, k)) + TallyList(x, [AttributeOf(c)])
  {
    hide Tally, TallyList, Group, Singles, OidOf;
    var oid := OidOf(c.key);
    if c.key.C? { GroupTally(x, oid, n.country, c.value); }
    else if c.key.O? { GroupTally(x, oid, n.organization, c.value); }
    else if c.key.OU? { GroupTally(x, oid, n.organizationalUnit, c.value); }
    else if c.key.L? { GroupTally(x, oid, n.locality, c.value); }
    else if c.key.ST? { GroupTally(x, oid, n.province, c.value); }
    else if c.key.STREET? { GroupTally(x, oid, n.street, c.value); }
    else { SinglesTally(x, n.extraNames, AttributeOf(c)); }
  }

  /** What adding c overwrites: the previous common name or serial number. */
  function Overwritten(n: PkixName, c: Component): string
  {
    if c.key.CN? then n.commonName else if c.key.SERIALNUMBER? then n.serialNumber else ""
  }

  lemma AddTally(x: Option<Attribute>, n: PkixName, c: Component)
    requires c.value != ""
    ensures Tally(x, ToRdnSequence(AddNameAttribute(n, c))) +
            (if Overwritten(n, c) == "" then 0 else TallyList(x, [Attribute(OidOf(c.key), Overwritten(n, c))])) ==
            Tally(x, ToRdnSequence(n)) + TallyList(x, [AttributeOf(c)])
  {
    hide Tally, TallyList, Group, Single, Singles, OidOf;
    ChangedField(x, n, AddNameAttribute(n, c), FieldIndex(c.key), 0);
    if SingleField(c.key) {
      SingleTally(x, OidOf(c.key), Overwritten(n, c));
      SingleTally(x, OidOf(c.key), c.value);
    } else {
      AddToList(x, n, c);
    }
  }

  /** The parser refuses an empty value, so parsed components have none. */
  predicate NonEmpty(cs: seq<Component>) { forall c :: c in cs ==> c.value != "" }

  function Count(key: Key, cs: seq<Component>): nat
  {
    if cs == [] then 0 else Count(key, cs[..|cs| - 1]) + if cs[|cs| - 1].key == key then 1 else 0
  }

  function Excess(n: nat): nat { if n == 0 then 0 else n - 1 }

  /** The attributes the components name. */
  function Named(cs: seq<Component>): seq<Attribute> { Map(AttributeOf, cs) }

  lemma {:induction false} BuildSingles(cs: seq<Component>)
    requires NonEmpty(cs)
    ensures Build(cs).commonName != "" <==> Count(CN, cs) > 0
    ensures Build(cs).serialNumber != "" <==> Count(SERIALNUMBER, cs) > 0
  {
    if cs != [] {
      BuildSingles(cs[..|cs| - 1]);
      assert cs[|cs| - 1] in cs;
    }
  }

  /** Each repeated CN or SERIALNUMBER costs one attribute; nothing else does. */
  lemma {:induction false} BuildSize(cs: seq<Component>)
    requires NonEmpty(cs)
    ensures Tally(None, ToRdnSequence(Build(cs))) + Excess(Count(CN, cs)) + Excess(Count(SERIALNUMBER, cs)) == |cs|
  {
    if cs == [] {
      NoNameEmpty(0);
    } else {
      var init, c := cs[..|cs| - 1], cs[|cs| - 1];
      BuildSize(init);
      BuildSingles(init);
      assert c in cs;
      AddTally(None, Build(init), c);
    }
  }

  lemma NamedAppend(a: Attribute, cs: seq<Component>, c: Component)
    ensures multiset(Named(cs + [c]))[a] == multiset(Named(cs))[a] + TallyList(Some(a), [AttributeOf(c)])
  {
    assert Named(cs + [c]) == Named(cs) + [AttributeOf(c)];
  }

  lemma KeepsOneMore(a: Attribute, cs: seq<Component>, c: Component)
    requires NonEmpty(cs) && c.value != "" && Count(CN, cs + [c]) <= 1 && Count(SERIALNUMBER, cs + [c]) <= 1
    requires Tally(Some(a), ToRdnSequence(Build(cs))) == multiset(Named(cs))[a]
    ensures Tally(Some(a), ToRdnSequence(Build(cs + [c]))) == multiset(Named(cs + [c]))[a]
  {
    hide Tally, TallyList, ToRdnSequence, Named, AddNameAttribute;
    assert (cs + [c])[..|cs|] == cs;
    BuildSingles(cs);
    AddTally(Some(a), Build(cs), c);
    NamedAppend(a, cs, c);
  }

  lemma {:induction false} BuildKeeps(a: Attribute, cs: seq<Component>)
    requires NonEmpty(cs) && Count(CN, cs) <= 1 && Count(SERIALNUMBER, cs) <= 1
    ensures Tally(Some(a), ToRdnSequence(Build(cs))) == multiset(Named(cs))[a]
  {
    if cs == [] {
      NoNameEmpty(0);
      assert Named(cs) == [];
    } else {
      hide Tally, ToRdnSequence, Build, Named;
      var init, c := cs[..|cs| - 1], cs[|cs| - 1];
      assert cs == init + [c] && c in cs;
      BuildKeeps(a, init);
      KeepsOneMore(a, init, c);
    }
  }

  lemma {:induction false} NoNameEmpty(i: nat)
    requires i <= 9
    ensures FieldsFrom(NoName, i) == []
    decreases 9 - i
  {
    if i < 9 { NoNameEmpty(i + 1); }
  }

  /**
   The configured recipient keeps every component exactly when neither CN nor SERIALNUMBER is
   repeated: those two are single fields, so a later one replaces an earlier one.
   */
  lemma ParsedNameKeepsComponentsIff(cs: seq<Component>)
    requires NonEmpty(cs)
    ensures multiset(Flatten(ToRdnSequence(Build(cs)))) == multiset(Named(cs)) <==>
            Count(CN, cs) <= 1 && Count(SERIALNUMBER, cs) <= 1
  {
    var flat := Flatten(ToRdnSequence(Build(cs)));
    BuildSize(cs);
    if Count(CN, cs) <= 1 && Count(SERIALNUMBER, cs) <= 1 {
      forall a ensures multiset(flat)[a] == multiset(Named(cs))[a] { BuildKeeps(a, cs); }
      assert multiset(flat) == multiset(Named(cs));
    } else {
      assert |multiset(flat)| == |flat| < |cs| == |multiset(Named(cs))|;
    }
  }

  /** CN=a,CN=b addresses only b, so a response whose sender is named CN=a and CN=b is refused. */
  lemma RepeatedCommonNameIsLost(sender: Name)
    requires Flatten(sender) == Named([Component(CN, "a"), Component(CN, "b")])
    ensures !SenderMatchesRecipient(sender, ToRdnSequence(Build([Component(CN, "a"), Component(CN, "b")])))
  {
    var cs := [Component(CN, "a"), Component(CN, "b")];
    assert cs[..1] == [cs[0]] && cs[..1][..0] == [];
    assert Count(CN, cs) == 2;
    ParsedNameKeepsComponentsIff(cs);
    BuildSize(cs);
    SenderMatchesRecipientIff(sender, ToRdnSequence(Build(cs)));
  }

  /** A configured recipient accepts exactly the senders with its components, in any order and grouping. */
  lemma ConfiguredRecipientAccepts(cs: seq<Component>, sender: Name)
    requires cs != [] && NonEmpty(cs) && Count(CN, cs) <= 1 && Count(SERIALNUMBER, cs) <= 1
    ensures SenderMatchesRecipient(sender, ToRdnSequence(Build(cs))) <==>
            multiset(Flatten(sender)) == multiset(Named(cs))
  {
    var recipient := ToRdnSequence(Build(cs));
    ParsedNameKeepsComponentsIff(cs);
    SenderMatchesRecipientIff(sender, recipient);
    assert |multiset(Named(cs))| == |cs| > 0;
    assert sender == [] ==> multiset(Flatten(sender)) == multiset{};
    assert recipient == [] ==> multiset(Flatten(recipient)) == multiset{};
  }
}
