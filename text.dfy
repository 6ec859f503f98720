/** The std::string operations that `Update` uses to normalise a URL
    (`find`, `replace`, `substr`), and libobs's `astrcmpi_n`. Strings are
    sequences of characters; the end of the sequence plays the part of the
    terminating NUL of a C string. */
module Text {
  import opened Wrappers

  /** `pat` occurs in `s` starting at index `i`. */
  predicate OccursAt(s: string, pat: string, i: int) {
    0 <= i && i + |pat| <= |s| && s[i..i + |pat|] == pat
  }

  predicate Contains(s: string, pat: string) {
    exists i :: 0 <= i <= |s| && OccursAt(s, pat, i)
  }

  /** `s.find(pat, from)`: the first occurrence at or after `from`; None is npos. */
  function FindFrom(s: string, pat: string, from: nat): (r: Option<nat>)
    ensures r.Some? ==> from <= r.value && OccursAt(s, pat, r.value)
    ensures r.Some? ==> forall j :: from <= j < r.value ==> !OccursAt(s, pat, j)
    ensures r.None? ==> forall j :: from <= j ==> !OccursAt(s, pat, j)
    decreases |s| - from
  {
    if from + |pat| > |s| then None
    else if s[from..from + |pat|] == pat then Some(from)
    else FindFrom(s, pat, from + 1)
  }

  /** `s.find(pat)`: npos exactly when `pat` does not occur, otherwise the first occurrence. */
  function Find(s: string, pat: string): (r: Option<nat>)
    ensures r.None? <==> !Contains(s, pat)
    ensures r.Some? ==> OccursAt(s, pat, r.value)
    ensures r.Some? ==> forall j :: 0 <= j < r.value ==> !OccursAt(s, pat, j)
  {
    FindFrom(s, pat, 0)
  }

  /** `s.replace(i, n, rep)` for a range that lies inside `s`. */
  function ReplaceAt(s: string, i: nat, n: nat, rep: string): (r: string)
    requires i + n <= |s|
    ensures |r| == |s| - n + |rep|
    ensures r[..i] == s[..i] && r[i..i + |rep|] == rep && r[i + |rep|..] == s[i + n..]
  {
    s[..i] + rep + s[i + n..]
  }

  /** The result of `while (s.find(pat) != npos) s.replace(s.find(pat), |pat|, rep);`.
      The loop ends because each step makes the string shorter. */
  function ReplaceEvery(s: string, pat: string, rep: string): (r: string)
    requires |rep| < |pat|
    ensures !Contains(r, pat)
    decreases |s|
  {
    match Find(s, pat)
    case None => s
    case Some(i) => ReplaceEvery(ReplaceAt(s, i, |pat|, rep), pat, rep)
  }

  /** The replacement loop itself. */
  method ReplaceAll(s: string, pat: string, rep: string) returns (r: string)
    requires |rep| < |pat|
    ensures r == ReplaceEvery(s, pat, rep)
  {
    r := s;
    while Find(r, pat).Some?
      invariant ReplaceEvery(r, pat, rep) == ReplaceEvery(s, pat, rep)
      decreases |r|
    {
      var i := Find(r, pat).value;
      r := ReplaceAt(r, i, |pat|, rep);
    }
  }

  /** No character of `rep` appears in `q`. */
  predicate Disjoint(rep: string, q: string) {
    forall k :: 0 <= k < |rep| ==> rep[k] !in q
  }

  /** Writing `rep` into a string cannot create an occurrence of a `q` that
      shares no character with `rep`. */
  lemma ReplaceAtPreservesAbsence(s: string, i: nat, n: nat, rep: string, q: string)
    requires i + n <= |s|
    requires q != [] && !Contains(s, q) && rep != [] && Disjoint(rep, q)
    ensures !Contains(ReplaceAt(s, i, n, rep), q)
  {
    var t := ReplaceAt(s, i, n, rep);
    forall j | 0 <= j <= |t|
      ensures !OccursAt(t, q, j)
    {
      if j + |q| > |t| {
      } else if j + |q| <= i {
        assert t[j..j + |q|] == s[j..j + |q|];
        assert !OccursAt(s, q, j);
      } else if i + |rep| <= j {
        var j' := j - |rep| + n;
        var d := j - (i + |rep|);
        assert t[j..j + |q|] == t[i + |rep|..][d..d + |q|];
        assert s[j'..j' + |q|] == s[i + n..][d..d + |q|];
        assert !OccursAt(s, q, j');
      } else {
        // The window overlaps the written `rep`, whose characters are not in `q`.
        var k := if j <= i then i else j;
        assert t[k] == rep[k - i] && rep[k - i] !in q;
        assert t[j..j + |q|][k - j] != q[k - j];
      }
    }
  }

  /** The replacement loop for `pat` keeps out a `q` that `rep` cannot form. */
  lemma {:induction false} ReplaceEveryPreservesAbsence(s: string, pat: string, rep: string, q: string)
    requires |rep| < |pat|
    requires q != [] && !Contains(s, q) && rep != [] && Disjoint(rep, q)
    ensures !Contains(ReplaceEvery(s, pat, rep), q)
    decreases |s|
  {
    match Find(s, pat)
    case None =>
    case Some(i) =>
      ReplaceAtPreservesAbsence(s, i, |pat|, rep, q);
      ReplaceEveryPreservesAbsence(ReplaceAt(s, i, |pat|, rep), pat, rep, q);
  }

  /** C `toupper` in the "C" locale. */
  function Upper(c: char): (u: char)
    ensures 'a' <= c <= 'z' ==> u as int == c as int - 32
    ensures !('a' <= c <= 'z') ==> u == c
  {
    if 'a' <= c <= 'z' then (c as int - 32) as char else c
  }

  /** The character a C string pointer reads at the start of `s`. */
  function Head(s: string): char {
    if s == [] then '\0' else s[0]
  }

  /** `astrcmpi_n(a, b, n) == 0`: the first `n` characters agree up to case,
      where a C string stops at its first NUL. */
  function EqualIgnoreCaseN(a: string, b: string, n: nat): (r: bool)
    ensures a == b ==> r
    ensures n > 0 && Upper(Head(a)) != Upper(Head(b)) ==> !r
    decreases n
  {
    if n == 0 then true
    else if Upper(Head(a)) != Upper(Head(b)) then false
    else if Head(a) == '\0' || Head(b) == '\0' then true
    else EqualIgnoreCaseN(a[1..], b[1..], n - 1)
  }

  /** `s` begins with `prefix`, ignoring case. */
  predicate StartsWithIgnoreCase(s: string, prefix: string) {
    |prefix| <= |s| && forall i :: 0 <= i < |prefix| ==> Upper(s[i]) == Upper(prefix[i])
  }

  predicate NoNul(s: string) {
    forall i :: 0 <= i < |s| ==> s[i] != '\0'
  }

  /** Comparing `|prefix|` characters with `astrcmpi_n` tests exactly for a
      case-insensitive prefix, provided the prefix holds no NUL. */
  lemma {:induction false} EqualIgnoreCaseNIsPrefixTest(s: string, prefix: string)
    requires NoNul(prefix)
    ensures EqualIgnoreCaseN(s, prefix, |prefix|) <==> StartsWithIgnoreCase(s, prefix)
    decreases |prefix|
  {
    if prefix != [] {
      assert Upper(prefix[0]) != '\0';
      if s != [] && Upper(s[0]) == Upper(prefix[0]) {
        EqualIgnoreCaseNIsPrefixTest(s[1..], prefix[1..]);
        if StartsWithIgnoreCase(s[1..], prefix[1..]) {
          forall i | 0 <= i < |prefix|
            ensures Upper(s[i]) == Upper(prefix[i])
          {
            if i > 0 {
              assert s[i] == s[1..][i - 1] && prefix[i] == prefix[1..][i - 1];
            }
          }
        }
        if StartsWithIgnoreCase(s, prefix) {
          forall i | 0 <= i < |prefix| - 1
            ensures Upper(s[1..][i]) == Upper(prefix[1..][i])
          {
            assert s[1..][i] == s[i + 1];
          }
        }
      }
    }
  }
}
