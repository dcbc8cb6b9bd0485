/** The pieces of Python's string and POSIX path library that the server relies
    on: substring test (`pat in s`), `str(n)` for a natural number,
    `os.path.basename` and `os.path.join` with two arguments. */
module Text {

  /** `pat` occurs in `s` starting at index `i`. */
  ghost predicate OccursAt(s: string, pat: string, i: int)
  {
    0 <= i && i + |pat| <= |s| && s[i..i + |pat|] == pat
  }

  /** Python's `pat in s` for two strings. */
  function Contains(s: string, pat: string): (b: bool)
    ensures b <==> exists i :: OccursAt(s, pat, i)
    decreases |s|
  {
    if |s| < |pat| then false
    else if s[..|pat|] == pat then (assert OccursAt(s, pat, 0); true)
    else
      var rest := Contains(s[1..], pat);
      assert !OccursAt(s, pat, 0) by {
        assert s[0..|pat|] == s[..|pat|];
      }
      assert forall i :: OccursAt(s, pat, i) ==> OccursAt(s[1..], pat, i - 1) by {
        forall i | OccursAt(s, pat, i) ensures OccursAt(s[1..], pat, i - 1) {
          OccursShift(s, pat, i);
        }
      }
      assert rest ==> exists i :: OccursAt(s, pat, i) by {
        if rest {
          var j :| OccursAt(s[1..], pat, j);
          OccursShift(s, pat, j + 1);
        }
      }
      rest
  }

  /** An occurrence at `i >= 1` in `s` is an occurrence at `i - 1` in `s[1..]`. */
  lemma OccursShift(s: string, pat: string, i: int)
    requires |s| > 0 && 1 <= i
    ensures OccursAt(s, pat, i) <==> OccursAt(s[1..], pat, i - 1)
  {
    if i + |pat| <= |s| {
      assert s[1..][i - 1..i - 1 + |pat|] == s[i..i + |pat|];
    }
  }

  predicate IsDigit(c: char)
  {
    '0' <= c <= '9'
  }

  function DigitChar(d: nat): (c: char)
    requires d < 10
    ensures IsDigit(c) && (c as int) - ('0' as int) == d
  {
    ['0', '1', '2', '3', '4', '5', '6', '7', '8', '9'][d]
  }

  /** `str(n)` for a natural number: its decimal digits, most significant first. */
  function NatToString(n: nat): (s: string)
    ensures |s| >= 1
    ensures forall i :: 0 <= i < |s| ==> IsDigit(s[i])
    ensures |s| > 1 ==> s[0] != '0'
    decreases n
  {
    if n < 10 then [DigitChar(n)] else NatToString(n / 10) + [DigitChar(n % 10)]
  }

  /** The number a string of decimal digits denotes (Python's `int(s)` on such a string). */
  function DecimalValue(s: string): nat
    requires forall i :: 0 <= i < |s| ==> IsDigit(s[i])
  {
    if s == [] then 0
    else
      assert IsDigit(s[|s| - 1]);
      DecimalValue(s[..|s| - 1]) * 10 + ((s[|s| - 1] as int) - ('0' as int))
  }

  /** Rendering a number and reading it back gives the number: `int(str(n)) == n`. */
  lemma {:induction false} DecimalRoundTrip(n: nat)
    ensures DecimalValue(NatToString(n)) == n
    decreases n
  {
    if n >= 10 {
      DecimalRoundTrip(n / 10);
      var s := NatToString(n);
      assert s[..|s| - 1] == NatToString(n / 10);
    }
  }

  /** `os.path.basename(p)`: the text after the last '/', or all of `p` if it has none. */
  function Basename(p: string): (r: string)
    ensures '/' !in r
  {
    if p == [] || p[|p| - 1] == '/' then []
    else Basename(p[..|p| - 1]) + [p[|p| - 1]]
  }

  /** The basename is the part of the path after its last '/': a suffix of the
      path, preceded by a '/' whenever it is not the whole path. */
  lemma {:induction false} BasenameSuffix(p: string)
    ensures var r := Basename(p);
      && |r| <= |p| && r == p[|p| - |r|..]
      && (|r| < |p| ==> p[|p| - |r| - 1] == '/')
  {
    if p != [] && p[|p| - 1] != '/' {
      var init := p[..|p| - 1];
      BasenameSuffix(init);
      var r0 := Basename(init);
      assert Basename(p) == r0 + [p[|p| - 1]];
      assert init[|init| - |r0|..] + [p[|p| - 1]] == p[|p| - |r0| - 1..];
    }
  }

  /** `os.path.join(a, b)` on POSIX. */
  function PathJoin(a: string, b: string): string
  {
    if |b| > 0 && b[0] == '/' then b else DirPrefix(a) + b
  }

  /** What `os.path.join` puts in front of a relative second argument: the directory,
      followed by a '/' unless it is empty or already ends in one. */
  function DirPrefix(a: string): (d: string)
    ensures |a| <= |d| && d[..|a|] == a
    ensures d == [] || d[|d| - 1] == '/'
  {
    if a == [] || a[|a| - 1] == '/' then a else a + "/"
  }

  /** When everything after position `k` is free of '/', the basename of `q` is the
      basename of its first `k` characters followed by the rest. */
  lemma {:induction false} BasenameOfSuffix(q: string, k: nat)
    requires k <= |q| && '/' !in q[k..]
    ensures Basename(q) == Basename(q[..k]) + q[k..]
    decreases |q| - k
  {
    var n := |q|;
    if k == n {
      assert q[..k] == q;
    } else {
      var init := q[..n - 1];
      assert q[n - 1] in q[k..];
      assert Basename(q) == Basename(init) + [q[n - 1]];
      assert init[k..] == q[k..n - 1];
      assert '/' !in init[k..] by {
        forall c | c in init[k..] ensures c != '/' {
          assert c in q[k..];
        }
      }
      BasenameOfSuffix(init, k);
      assert init[..k] == q[..k];
      assert q[k..] == init[k..] + [q[n - 1]];
    }
  }

  /** The basename of a path that ends in a slash-free name is that name appended
      to the basename of the rest. */
  lemma BasenameAppend(p: string, name: string)
    requires '/' !in name
    ensures Basename(p + name) == Basename(p) + name
  {
    var q := p + name;
    assert q[..|p|] == p && q[|p|..] == name;
    BasenameOfSuffix(q, |p|);
  }

  /** Joining a directory and a plain file name (non-empty, no '/') yields a path that
      starts with the directory and whose basename is exactly that file name. */
  lemma JoinPlainName(dir: string, name: string)
    requires name != [] && '/' !in name
    ensures Basename(PathJoin(dir, name)) == name
    ensures PathJoin(dir, name)[..|dir|] == dir
  {
    var d := DirPrefix(dir);
    assert name[0] != '/' by {
      assert name[0] in name;
    }
    assert PathJoin(dir, name) == d + name;
    JoinBasename(d, name);
    assert (d + name)[..|dir|] == d[..|dir|];
  }

  /** The basename of a directory prefix followed by a plain name is the name. */
  lemma JoinBasename(d: string, name: string)
    requires '/' !in name
    requires d == [] || d[|d| - 1] == '/'
    ensures Basename(d + name) == name
  {
    assert Basename(d) == [];
    BasenameAppend(d, name);
  }
}
