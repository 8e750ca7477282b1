/**
 A path search that lists exactly the issuer paths, so that what is proved for sound verifiers holds
 of at least one.
 */
module Paths {
  import opened Certificates

  function Each(c: Certificate, tails: seq<Path>): seq<Path>
  {
    if tails == [] then [] else [[c] + tails[0]] + Each(c, tails[1..])
  }

  lemma {:induction false} EachIff(c: Certificate, tails: seq<Path>, p: Path)
    ensures p in Each(c, tails) <==> p != [] && p[0] == c && p[1..] in tails
  {
    if tails != [] {
      EachIff(c, tails[1..], p);
      assert p != [] && p[0] == c && p[1..] == tails[0] ==> p == [c] + tails[0];
    }
  }

  function Prefixed(heads: seq<Certificate>, tails: seq<Path>): seq<Path>
  {
    if heads == [] then [] else Each(heads[0], tails) + Prefixed(heads[1..], tails)
  }

  lemma {:induction false} PrefixedIff(heads: seq<Certificate>, tails: seq<Path>, p: Path)
    ensures p in Prefixed(heads, tails) <==> p != [] && p[0] in heads && p[1..] in tails
  {
    if heads != [] {
      hide Each;
      EachIff(heads[0], tails, p);
      PrefixedIff(heads[1..], tails, p);
    }
  }

  /** All sequences of a length over some certificates. */
  function Sequences(n: nat, over: seq<Certificate>): seq<Path>
  {
    if n == 0 then [[]] else Prefixed(over, Sequences(n - 1, over))
  }

  ghost predicate Over(p: Path, over: seq<Certificate>) { forall i :: 0 <= i < |p| ==> p[i] in over }

  lemma OverTail(p: Path, over: seq<Certificate>)
    requires p != []
    ensures Over(p, over) <==> p[0] in over && Over(p[1..], over)
  {
    if p[0] in over && Over(p[1..], over) {
      forall i | 0 <= i < |p| ensures p[i] in over {
        assert i == 0 || p[i] == p[1..][i - 1];
      }
    }
  }

  lemma {:induction false} SequencesIff(n: nat, over: seq<Certificate>, p: Path)
    ensures p in Sequences(n, over) <==> |p| == n && Over(p, over)
  {
    if n > 0 {
      hide Prefixed;
      PrefixedIff(over, Sequences(n - 1, over), p);
      if p != [] {
        SequencesIff(n - 1, over, p[1..]);
        OverTail(p, over);
      }
    }
  }

  function UpTo(n: nat, over: seq<Certificate>): seq<Path>
  {
    Sequences(n, over) + if n == 0 then [] else UpTo(n - 1, over)
  }

  lemma {:induction false} UpToIff(n: nat, over: seq<Certificate>, p: Path)
    ensures p in UpTo(n, over) <==> |p| <= n && Over(p, over)
  {
    hide Sequences, Over;
    SequencesIff(n, over, p);
    if n > 0 { UpToIff(n - 1, over, p); }
  }

  function OnlyValid(leaf: Certificate, roots: seq<Certificate>, pool: seq<Certificate>, now: int,
                     paths: seq<Path>): (r: seq<Path>)
    ensures forall p :: p in r <==> p in paths && ValidPath(leaf, roots, pool, now, p)
  {
    if paths == [] then []
    else (if ValidPath(leaf, roots, pool, now, paths[0]) then [paths[0]]
          else []) + OnlyValid(leaf, roots, pool, now, paths[1..])
  }

  function Search(leaf: Certificate, roots: seq<Certificate>, pool: seq<Certificate>, now: int): seq<Path>
  {
    OnlyValid(leaf, roots, pool, now, UpTo(|pool| + 2, [leaf] + pool + roots))
  }

  lemma {:induction false} DistinctFits(s: seq<Certificate>, pool: seq<Certificate>)
    requires forall i, j :: 0 <= i < j < |s| ==> s[i] != s[j]
    requires forall i :: 0 <= i < |s| ==> s[i] in pool
    ensures |s| <= |pool|
  {
    if s != [] {
      var k :| 0 <= k < |pool| && pool[k] == s[0];
      var rest := pool[..k] + pool[k + 1..];
      forall i | 0 <= i < |s[1..]| ensures s[1..][i] in rest {
        assert s[1..][i] == s[i + 1] != s[0];
        var m :| 0 <= m < |pool| && pool[m] == s[i + 1];
        assert rest[if m < k then m else m - 1] == s[i + 1];
      }
      DistinctFits(s[1..], rest);
    }
  }

  lemma ValidPathFits(leaf: Certificate, roots: seq<Certificate>, pool: seq<Certificate>, now: int, path: Path)
    requires ValidPath(leaf, roots, pool, now, path)
    ensures path in UpTo(|pool| + 2, [leaf] + pool + roots)
  {
    PathIsShort(leaf, roots, pool, now, path);
    hide ValidPath, UpTo, Over;
    UpToIff(|pool| + 2, [leaf] + pool + roots, path);
  }

  lemma PathIsShort(leaf: Certificate, roots: seq<Certificate>, pool: seq<Certificate>, now: int, path: Path)
    requires ValidPath(leaf, roots, pool, now, path)
    ensures |path| <= |pool| + 2 && Over(path, [leaf] + pool + roots)
  {
    forall i | 0 <= i < |path| ensures path[i] in [leaf] + pool + roots {
      assert i == 0 || i == |path| - 1 || path[i] in pool;
    }
    if |path| > 2 {
      DistinctFits(path[1..|path| - 1], pool);
    }
  }

  /** There is a sound verifier. */
  lemma SearchIsSound()
    ensures Sound(Search)
  {
    forall leaf, roots, pool, now ensures Lists(leaf, roots, pool, now, Search(leaf, roots, pool, now)) {
      forall path | ValidPath(leaf, roots, pool, now, path) ensures path in Search(leaf, roots, pool, now) {
        ValidPathFits(leaf, roots, pool, now, path);
      }
    }
  }
}
