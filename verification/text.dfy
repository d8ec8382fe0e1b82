/** The string primitives the panels rely on: `strings.Trim(s, " ")` as used by
    ReadLine, and `sort.Strings` as used by SortKeys. Strings are sequences of
    Unicode scalar values; comparing them element by element orders them as
    Go's byte-wise comparison of their UTF-8 encodings does. */
module Text {

  predicate AllSpaces(s: string)
  {
    forall i :: 0 <= i < |s| ==> s[i] == ' '
  }

  /** Neither the first nor the last character is a space. */
  predicate NoEdgeSpaces(s: string)
  {
    |s| == 0 || (s[0] != ' ' && s[|s| - 1] != ' ')
  }

  /** `s` is `r` surrounded by runs of spaces, `r` starting at offset `i`. */
  predicate PaddedAt(s: string, r: string, i: int)
  {
    0 <= i && i + |r| <= |s| && s[i..i + |r|] == r && AllSpaces(s[..i]) && AllSpaces(s[i + |r|..])
  }

  /** `r` is `s` with its leading and trailing spaces removed. */
  predicate TrimOf(s: string, r: string)
  {
    NoEdgeSpaces(r) && exists i :: 0 <= i <= |s| && PaddedAt(s, r, i)
  }

  /** Drops the leading spaces. */
  function TrimLeft(s: string): (r: string)
    ensures |r| <= |s| && r == s[|s| - |r|..]
    ensures AllSpaces(s[..|s| - |r|])
    ensures |r| == 0 || r[0] != ' '
  {
    if |s| > 0 && s[0] == ' ' then
      var r := TrimLeft(s[1..]);
      assert s[..|s| - |r|] == [' '] + s[1..][..|s| - 1 - |r|];
      r
    else s
  }

  /** Drops the trailing spaces. */
  function TrimRight(s: string): (r: string)
    ensures |r| <= |s| && r == s[..|r|]
    ensures AllSpaces(s[|r|..])
    ensures |r| == 0 || r[|r| - 1] != ' '
  {
    if |s| > 0 && s[|s| - 1] == ' ' then
      var r := TrimRight(s[..|s| - 1]);
      assert s[|r|..] == s[..|s| - 1][|r|..] + [' '];
      r
    else s
  }

  /** `strings.Trim(s, " ")`: the text of `s` between its leading and
      trailing runs of spaces. */
  function Trim(s: string): string
  {
    TrimRight(TrimLeft(s))
  }

  /** Trim removes exactly the surrounding spaces. */
  lemma {:induction false} TrimIsTrimOf(s: string)
    ensures TrimOf(s, Trim(s))
  {
    TrimSplit(s);
  }

  /** The leading run removed by TrimLeft and the trailing run removed by
      TrimRight are the padding around the trimmed text. */
  lemma {:induction false} TrimSplit(s: string)
    ensures NoEdgeSpaces(TrimRight(TrimLeft(s)))
    ensures PaddedAt(s, TrimRight(TrimLeft(s)), |s| - |TrimLeft(s)|)
  {
    var l := TrimLeft(s);
    var r := TrimRight(l);
    PaddingAround(s, l, r);
    if |r| > 0 {
      assert r[0] == l[0];
    }
  }

  /** A space-free-edged prefix `r` of a suffix `l` of `s`, with spaces
      before `l` and after `r`, is `s` padded. */
  lemma PaddingAround(s: string, l: string, r: string)
    requires |l| <= |s| && l == s[|s| - |l|..] && AllSpaces(s[..|s| - |l|])
    requires |r| <= |l| && r == l[..|r|] && AllSpaces(l[|r|..])
    ensures PaddedAt(s, r, |s| - |l|)
  {
    var i := |s| - |l|;
    assert s[i + |r|..] == l[|r|..];
    assert s[i..i + |r|] == l[..|r|];
  }

  /** Trimming yields the empty string exactly for a line of spaces. */
  lemma TrimEmptyIffBlank(s: string)
    ensures Trim(s) == [] <==> AllSpaces(s)
  {
    var r := Trim(s);
    TrimIsTrimOf(s);
    var i :| 0 <= i <= |s| && PaddedAt(s, r, i);
    if r == [] {
      forall j | 0 <= j < |s|
        ensures s[j] == ' '
      {
        if j < i {
          assert s[..i][j] == s[j];
        } else {
          assert s[i..][j - i] == s[j];
        }
      }
    }
    if r != [] {
      assert r[0] == s[i..i + |r|][0] == s[i];
      assert s[i] != ' ';
    }
  }

  /** Trimming an already trimmed string changes nothing. */
  lemma TrimIdempotent(s: string)
    ensures Trim(Trim(s)) == Trim(s)
  {
    var r := Trim(s);
    assert TrimLeft(r) == r;
    assert TrimRight(r) == r;
  }

  /** Go's `<=` on strings: lexicographic, a proper prefix sorting first. */
  predicate LexLe(a: string, b: string)
  {
    |a| == 0 || (|b| > 0 && (a[0] < b[0] || (a[0] == b[0] && LexLe(a[1..], b[1..]))))
  }

  lemma {:induction false} LexLeReflexive(a: string)
    ensures LexLe(a, a)
  {
    if |a| > 0 {
      LexLeReflexive(a[1..]);
    }
  }

  lemma {:induction false} LexLeTotal(a: string, b: string)
    ensures LexLe(a, b) || LexLe(b, a)
  {
    if |a| > 0 && |b| > 0 && a[0] == b[0] {
      LexLeTotal(a[1..], b[1..]);
    }
  }

  lemma {:induction false} LexLeAntisymmetric(a: string, b: string)
    requires LexLe(a, b) && LexLe(b, a)
    ensures a == b
  {
    if |a| > 0 && |b| > 0 {
      LexLeAntisymmetric(a[1..], b[1..]);
      assert a == [a[0]] + a[1..];
      assert b == [b[0]] + b[1..];
    }
  }

  lemma {:induction false} LexLeTransitive(a: string, b: string, c: string)
    requires LexLe(a, b) && LexLe(b, c)
    ensures LexLe(a, c)
  {
    if |a| > 0 && |b| > 0 && |c| > 0 && a[0] == b[0] == c[0] {
      LexLeTransitive(a[1..], b[1..], c[1..]);
    }
  }

  predicate Sorted(s: seq<string>)
  {
    forall i, j :: 0 <= i < j < |s| ==> LexLe(s[i], s[j])
  }

  /** Inserts `x` into a sorted sequence, before the first element not below it. */
  function Insert(x: string, s: seq<string>): (r: seq<string>)
    requires Sorted(s)
    ensures Sorted(r)
    ensures multiset(r) == multiset(s) + multiset{x}
  {
    if |s| == 0 then [x]
    else if LexLe(x, s[0]) then
      assert forall j :: 0 < j < |s| ==> LexLe(x, s[j]) by {
        forall j | 0 < j < |s| ensures LexLe(x, s[j]) {
          LexLeTransitive(x, s[0], s[j]);
        }
      }
      [x] + s
    else
      var t := Insert(x, s[1..]);
      assert s == [s[0]] + s[1..];
      assert forall k :: 0 <= k < |t| ==> LexLe(s[0], t[k]) by {
        forall k | 0 <= k < |t| ensures LexLe(s[0], t[k]) {
          assert t[k] in multiset(t);
          if t[k] == x {
            LexLeTotal(x, s[0]);
          } else {
            assert t[k] in multiset(s[1..]);
            var j :| 0 <= j < |s[1..]| && s[1..][j] == t[k];
            assert s[j + 1] == t[k];
          }
        }
      }
      [s[0]] + t
  }

  /** `sort.Strings`: the keys in ascending order. */
  function SortKeys(keys: seq<string>): (r: seq<string>)
    ensures Sorted(r)
    ensures multiset(r) == multiset(keys)
  {
    if |keys| == 0 then []
    else
      assert keys == [keys[0]] + keys[1..];
      Insert(keys[0], SortKeys(keys[1..]))
  }

  /** The head of a sorted sequence is at or below each of its elements. */
  lemma SortedHeadLe(s: seq<string>, x: string)
    requires Sorted(s) && x in s
    ensures LexLe(s[0], x)
  {
    var j :| 0 <= j < |s| && s[j] == x;
    if j == 0 {
      LexLeReflexive(x);
    }
  }

  /** A multiset has exactly one sorted arrangement. */
  lemma {:induction false} SortedUnique(s: seq<string>, t: seq<string>)
    requires Sorted(s) && Sorted(t)
    requires multiset(s) == multiset(t)
    ensures s == t
  {
    if |s| == 0 {
      assert |multiset(t)| == 0;
    } else {
      assert |t| == |multiset(t)| == |s| > 0;
      assert s[0] in multiset(t) && t[0] in multiset(s);
      SortedHeadLe(t, s[0]);
      SortedHeadLe(s, t[0]);
      LexLeAntisymmetric(s[0], t[0]);
      var s', t' := s[1..], t[1..];
      assert s == [s[0]] + s';
      assert t == [t[0]] + t';
      assert multiset(s') == multiset(s) - multiset{s[0]};
      assert multiset(t') == multiset(t) - multiset{t[0]};
      assert Sorted(s') && Sorted(t');
      SortedUnique(s', t');
    }
  }

  /** SortKeys returns the one sorted permutation of its input, so sorting
      an already sorted sequence returns it unchanged. */
  lemma SortKeysIsTheSortedPermutation(keys: seq<string>, t: seq<string>)
    requires Sorted(t) && multiset(t) == multiset(keys)
    ensures SortKeys(keys) == t
  {
    SortedUnique(SortKeys(keys), t);
  }
}
