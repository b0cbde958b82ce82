/**
 * The few pieces of Python string, list and path semantics that the converter and the
 * solvers rely on: `str.replace` of one character, `str.split`, `sep.join`, negative
 * slicing `s[:-k]`, negative indexing, `posixpath.join` of two components and `str(n)`
 * for a natural number.
 */
module PyText {
  import opened Wrappers

  /** `s.replace(from, to)` for single characters. */
  function ReplaceChar(s: string, from: char, to: char): (r: string)
    ensures |r| == |s|
    ensures forall k :: 0 <= k < |s| ==> r[k] == (if s[k] == from then to else s[k])
    ensures from != to ==> from !in r
  {
    if |s| == 0 then ""
    else [if s[0] == from then to else s[0]] + ReplaceChar(s[1..], from, to)
  }

  /** `s.split(sep)`: the maximal runs between separators; never an empty list. */
  function Split(s: string, sep: char): (parts: seq<string>)
    ensures |parts| >= 1
    ensures forall k :: 0 <= k < |parts| ==> sep !in parts[k]
    decreases |s|
  {
    if |s| == 0 then [""]
    else
      var rest := Split(s[1..], sep);
      if s[0] == sep then [""] + rest
      else [[s[0]] + rest[0]] + rest[1..]
  }

  /** `sep.join(parts)`. */
  function Join(sep: string, parts: seq<string>): string
  {
    if |parts| == 0 then ""
    else if |parts| == 1 then parts[0]
    else parts[0] + sep + Join(sep, parts[1..])
  }

  /** Rejoining the components of a split gives back the original string. */
  lemma {:induction false} JoinSplit(s: string, sep: char)
    ensures Join([sep], Split(s, sep)) == s
    decreases |s|
  {
    if |s| > 0 {
      var rest := Split(s[1..], sep);
      JoinSplit(s[1..], sep);
      if s[0] == sep {
        assert Split(s, sep) == [""] + rest;
        assert ([""] + rest)[1..] == rest;
      } else {
        var parts := [[s[0]] + rest[0]] + rest[1..];
        assert Split(s, sep) == parts;
        if |rest| > 1 {
          assert parts[1..] == rest[1..];
          assert Join([sep], rest) == rest[0] + [sep] + Join([sep], rest[1..]);
        }
      }
    }
  }

  /** A string without the separator splits into itself alone. */
  lemma {:induction false} SplitWithoutSeparator(s: string, sep: char)
    requires sep !in s
    ensures Split(s, sep) == [s]
    decreases |s|
  {
    if |s| > 0 {
      assert sep !in s[1..];
      SplitWithoutSeparator(s[1..], sep);
      assert s[0] != sep;
      assert [s[0]] + s[1..] == s;
    }
  }

  /** One step of `Split`: the first character either ends the first component or joins it. */
  lemma SplitCons(c: char, t: string, sep: char)
    ensures Split([c] + t, sep)
         == if c == sep then [""] + Split(t, sep) else [[c] + Split(t, sep)[0]] + Split(t, sep)[1..]
  {
    assert ([c] + t)[1..] == t;
  }

  /** A prefix `x` without the separator is glued to the first component of what follows it. */
  lemma {:induction false} SplitAfterPlain(x: string, z: string, sep: char)
    requires sep !in x
    ensures Split(x + z, sep) == [x + Split(z, sep)[0]] + Split(z, sep)[1..]
    decreases |x|
  {
    if |x| == 0 {
      var parts := Split(z, sep);
      assert x + z == z && x + parts[0] == parts[0];
      assert [parts[0]] + parts[1..] == parts;
    } else {
      var c, t := x[0], x[1..];
      assert x == [c] + t;
      assert x + z == [c] + (t + z);
      assert sep !in t && c != sep;
      var rz := Split(z, sep);
      SplitAfterPlain(t, z, sep);
      var rt := Split(t + z, sep);
      assert rt[0] == t + rz[0] && rt[1..] == rz[1..];
      SplitCons(c, t + z, sep);
      assert Split(x + z, sep) == [[c] + rt[0]] + rt[1..];
      assert [c] + (t + rz[0]) == x + rz[0];
    }
  }

  /** Python's `s[:-k]`; note that `s[:-0]` is `s[:0]`, the empty slice. */
  function SliceToNeg<T>(s: seq<T>, k: nat): (r: seq<T>)
    ensures |r| == if 0 < k <= |s| then |s| - k else 0
    ensures r == s[..|r|]
  {
    if k == 0 || k > |s| then [] else s[..|s| - k]
  }

  /** Python's `l[-3]`, which raises IndexError on a list of fewer than three elements. */
  function ThirdFromLast<T>(l: seq<T>): (r: Option<T>)
    ensures r.Some? <==> |l| >= 3
    ensures r.Some? ==> r.value == l[|l| - 3]
  {
    if |l| >= 3 then Some(l[|l| - 3]) else None
  }

  /** Python's `l[-2:]`: the last two elements, or the whole list when it is shorter. */
  function LastTwo<T>(l: seq<T>): (r: seq<T>)
    ensures |r| == if |l| >= 2 then 2 else |l|
    ensures l == l[..|l| - |r|] + r
  {
    if |l| >= 2 then l[|l| - 2..] else l
  }

  /** `posixpath.join(a, b)`: an absolute `b` replaces `a`; no `/` is added after an empty or `/`-terminated `a`. */
  function PathJoin(a: string, b: string): (r: string)
    ensures |b| > 0 && b[0] == '/' ==> r == b
    ensures !(|b| > 0 && b[0] == '/') && a != "" && a[|a| - 1] != '/' ==> r == a + "/" + b
    ensures !(|b| > 0 && b[0] == '/') && (a == "" || a[|a| - 1] == '/') ==> r == a + b
  {
    if |b| > 0 && b[0] == '/' then b
    else if a == "" || a[|a| - 1] == '/' then a + b
    else a + "/" + b
  }

  /** Joining two components, neither containing `/`, the first non-empty, gives exactly those two components back. */
  lemma PathJoinComponents(a: string, b: string)
    requires a != "" && '/' !in a && '/' !in b
    ensures Split(PathJoin(a, b), '/') == [a, b]
  {
    assert PathJoin(a, b) == a + (['/'] + b);
    SplitAfterPlain(a, ['/'] + b, '/');
    SplitCons('/', b, '/');
    SplitWithoutSeparator(b, '/');
    assert Split(['/'] + b, '/') == ["", b];
    assert a + "" == a;
  }

  function DigitChar(d: nat): (c: char)
    requires d < 10
    ensures '0' <= c <= '9'
  {
    (48 + d) as char
  }

  /** `str(n)` for a natural number: its decimal digits, most significant first. */
  function NatToString(n: nat): (s: string)
    ensures |s| >= 1
    ensures |s| == 1 <==> n < 10
    ensures forall k :: 0 <= k < |s| ==> '0' <= s[k] <= '9'
    decreases n
  {
    if n < 10 then [DigitChar(n)] else NatToString(n / 10) + [DigitChar(n % 10)]
  }

  /** Distinct numbers print differently. */
  lemma {:induction false} NatToStringInjective(a: nat, b: nat)
    requires NatToString(a) == NatToString(b)
    ensures a == b
    decreases a
  {
    var s := NatToString(a);
    if a >= 10 && b >= 10 {
      assert s[|s| - 1] == DigitChar(a % 10) == DigitChar(b % 10);
      assert s[..|s| - 1] == NatToString(a / 10) == NatToString(b / 10);
      NatToStringInjective(a / 10, b / 10);
    }
  }

  /** Two strings framed by the same prefix and suffix are equal only when their middles are. */
  lemma FramedInjective(pre: string, x: string, y: string, post: string)
    requires pre + x + post == pre + y + post
    ensures x == y
  {
    var s := pre + x + post;
    assert |x| == |y|;
    assert x == s[|pre|..|pre| + |x|];
    assert y == (pre + y + post)[|pre|..|pre| + |y|];
  }
}
