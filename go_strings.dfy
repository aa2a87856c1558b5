/** The functions of Go's `strings` package that the adapter and the static
    file filter rely on, on strings as sequences of characters. Each one is
    characterised by its contract or by lemmas against an independent
    definition (`OccursAt`, `Split`/`Join`). */
module GoStrings {

  /** `pat` occurs in `s` starting at position `i`. */
  predicate OccursAt(s: string, pat: string, i: int)
  {
    0 <= i && i + |pat| <= |s| && s[i..i + |pat|] == pat
  }

  /** An occurrence of `pat` at position `j >= 1` of `s` is an occurrence at
      `j - 1` of `s` without its first character. */
  lemma OccursAtTail(s: string, pat: string)
    requires |s| > 0
    ensures forall j :: 1 <= j ==> (OccursAt(s, pat, j) <==> OccursAt(s[1..], pat, j - 1))
  {
    forall j | 1 <= j
      ensures OccursAt(s, pat, j) <==> OccursAt(s[1..], pat, j - 1)
    {
      if j + |pat| <= |s| {
        assert s[1..][j - 1..j - 1 + |pat|] == s[j..j + |pat|];
      }
    }
  }

  /** strings.Index: the position of the first occurrence of `pat` in `s`
      (see IndexSpec), or -1 when there is none. A found occurrence lies
      inside `s`. */
  function Index(s: string, pat: string): (r: int)
    ensures -1 <= r && (r >= 0 ==> r + |pat| <= |s|)
    decreases |s|
  {
    if |s| < |pat| then -1
    else if s[..|pat|] == pat then 0
    else
      var k := Index(s[1..], pat);
      if k < 0 then -1 else k + 1
  }

  /** An occurrence Index reports is one. */
  lemma {:induction false} IndexFound(s: string, pat: string)
    ensures Index(s, pat) >= 0 ==> OccursAt(s, pat, Index(s, pat))
    decreases |s|
  {
    if |s| >= |pat| && s[..|pat|] != pat {
      IndexFound(s[1..], pat);
      var k := Index(s[1..], pat);
      if k >= 0 {
        assert s[1..][k..k + |pat|] == s[k + 1..k + 1 + |pat|];
      }
    }
  }

  /** Index finds an occurrence, and no occurrence lies before it; when it
      reports -1 there is no occurrence at all. */
  lemma {:induction false} IndexSpec(s: string, pat: string)
    ensures Index(s, pat) >= 0 ==> OccursAt(s, pat, Index(s, pat))
    ensures forall j :: 0 <= j && (Index(s, pat) < 0 || j < Index(s, pat)) ==> !OccursAt(s, pat, j)
    decreases |s|
  {
    if |s| >= |pat| && s[..|pat|] != pat {
      IndexSpec(s[1..], pat);
      OccursAtTail(s, pat);
      assert !OccursAt(s, pat, 0);
    }
  }

  /** strings.Contains. */
  predicate Contains(s: string, pat: string)
  {
    Index(s, pat) >= 0
  }

  /** strings.HasPrefix. */
  predicate HasPrefix(s: string, prefix: string)
  {
    |prefix| <= |s| && s[..|prefix|] == prefix
  }

  /** `pat` does not occur anywhere in `s`. */
  ghost predicate Absent(s: string, pat: string)
  {
    forall j :: !OccursAt(s, pat, j)
  }

  /** `i` is the leftmost occurrence of `pat` in `s`. */
  predicate FirstOccurrence(s: string, pat: string, i: int)
  {
    OccursAt(s, pat, i) && forall j :: 0 <= j < i ==> !OccursAt(s, pat, j)
  }

  /** Index finds exactly the leftmost occurrence, and reports -1 exactly
      when there is none. */
  lemma IndexIsFirst(s: string, pat: string)
    ensures Index(s, pat) < 0 <==> Absent(s, pat)
    ensures forall i :: FirstOccurrence(s, pat, i) ==> Index(s, pat) == i
  {
    var r := Index(s, pat);
    IndexSpec(s, pat);
    if r < 0 {
      forall j ensures !OccursAt(s, pat, j) {
        if j < 0 { }
      }
    }
    forall i | FirstOccurrence(s, pat, i) ensures r == i {
      assert OccursAt(s, pat, i);
    }
  }

  /** An occurrence of `p + q` is also an occurrence of `p`. */
  lemma OccursAtPrefix(s: string, p: string, q: string, i: int)
    requires OccursAt(s, p + q, i)
    ensures OccursAt(s, p, i)
  {
    assert s[i..i + |p|] == (p + q)[..|p|];
  }

  /** An occurrence inside a prefix of `s` is an occurrence in `s`. */
  lemma OccursAtInPrefix(s: string, pat: string, n: int, i: int)
    requires 0 <= n <= |s| && OccursAt(s[..n], pat, i)
    ensures OccursAt(s, pat, i)
  {
    assert s[..n][i..i + |pat|] == s[i..i + |pat|];
  }

  /** strings.Replace(s, pat, rep, 1). */
  function ReplaceFirst(s: string, pat: string, rep: string): string
  {
    var i := Index(s, pat);
    if i < 0 then s else s[..i] + rep + s[i + |pat|..]
  }

  /** Only the leftmost occurrence of `pat` is replaced; with no occurrence
      `s` comes back unchanged. */
  lemma ReplaceFirstSpec(s: string, pat: string, rep: string)
    ensures Absent(s, pat) ==> ReplaceFirst(s, pat, rep) == s
    ensures forall i :: FirstOccurrence(s, pat, i) ==> ReplaceFirst(s, pat, rep) == s[..i] + rep + s[i + |pat|..]
  {
    IndexIsFirst(s, pat);
  }

  /** strings.ReplaceAll for a non-empty `pat`: scanning left to right,
      every non-overlapping occurrence of `pat` becomes `rep`. */
  function ReplaceAll(s: string, pat: string, rep: string): (r: string)
    requires pat != ""
    decreases |s|
  {
    var i := Index(s, pat);
    if i < 0 then s else s[..i] + rep + ReplaceAll(s[i + |pat|..], pat, rep)
  }

  /** strings.Split for a non-empty separator: the pieces of `s` between the
      non-overlapping occurrences of `sep`, found left to right. */
  function Split(s: string, sep: string): (parts: seq<string>)
    requires sep != ""
    ensures |parts| >= 1
    decreases |s|
  {
    var i := Index(s, sep);
    if i < 0 then [s] else [s[..i]] + Split(s[i + |sep|..], sep)
  }

  /** strings.Join: the parts with `sep` between consecutive ones. */
  function Join(parts: seq<string>, sep: string): string
  {
    if |parts| == 0 then ""
    else if |parts| == 1 then parts[0]
    else parts[0] + sep + Join(parts[1..], sep)
  }

  lemma JoinCons(first: string, parts: seq<string>, sep: string)
    requires |parts| >= 1
    ensures Join([first] + parts, sep) == first + sep + Join(parts, sep)
  {
    assert ([first] + parts)[1..] == parts;
  }

  /** Splitting at `sep` and joining again with `sep` gives back `s`. */
  lemma {:induction false} JoinSplit(s: string, sep: string)
    requires sep != ""
    ensures Join(Split(s, sep), sep) == s
    decreases |s|
  {
    var i := Index(s, sep);
    if i >= 0 {
      IndexFound(s, sep);
      var rest := s[i + |sep|..];
      JoinSplit(rest, sep);
      var parts := Split(rest, sep);
      assert Split(s, sep) == [s[..i]] + parts;
      JoinCons(s[..i], parts, sep);
      assert s == s[..i] + sep + rest;
    }
  }

  /** No piece produced by `Split` contains the separator. */
  lemma {:induction false} SplitPiecesFree(s: string, sep: string)
    requires sep != ""
    ensures forall k :: 0 <= k < |Split(s, sep)| ==> !Contains(Split(s, sep)[k], sep)
    decreases |s|
  {
    var i := Index(s, sep);
    if i >= 0 {
      IndexSpec(s, sep);
      var rest := s[i + |sep|..];
      SplitPiecesFree(rest, sep);
      var head := s[..i];
      if Contains(head, sep) {
        var j := Index(head, sep);
        IndexFound(head, sep);
        OccursAtInPrefix(s, sep, i, j);
        assert false;
      }
    } else {
      IndexSpec(s, sep);
    }
  }

  /** ReplaceAll equals splitting at `pat` and joining with `rep`: only the
      non-overlapping occurrences of `pat`, found left to right, change; the
      text between them is kept as it is. */
  lemma {:induction false} ReplaceAllIsJoinSplit(s: string, pat: string, rep: string)
    requires pat != ""
    ensures ReplaceAll(s, pat, rep) == Join(Split(s, pat), rep)
    decreases |s|
  {
    var i := Index(s, pat);
    if i >= 0 {
      var rest := s[i + |pat|..];
      ReplaceAllIsJoinSplit(rest, pat, rep);
      var parts := Split(rest, pat);
      assert Split(s, pat) == [s[..i]] + parts;
      JoinCons(s[..i], parts, rep);
    }
  }

  /** Replacing a token by itself changes nothing. */
  lemma ReplaceAllSelf(s: string, pat: string)
    requires pat != ""
    ensures ReplaceAll(s, pat, pat) == s
  {
    ReplaceAllIsJoinSplit(s, pat, pat);
    JoinSplit(s, pat);
  }

  /** When `pat` does not occur in `s`, ReplaceAll leaves `s` unchanged. */
  lemma ReplaceAllAbsent(s: string, pat: string, rep: string)
    requires pat != ""
    requires Absent(s, pat)
    ensures ReplaceAll(s, pat, rep) == s
  {
    IndexIsFirst(s, pat);
  }

  /** A string that is exactly the token becomes exactly the replacement. */
  lemma ReplaceAllWhole(pat: string, rep: string)
    requires pat != ""
    ensures ReplaceAll(pat, pat, rep) == rep
  {
    assert pat[..|pat|] == pat;
    assert Index(pat, pat) == 0;
    assert pat[|pat|..] == [];
  }
}
