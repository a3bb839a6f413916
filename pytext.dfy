/** Python's built-in string and list operations that the core relies on:
    `sep.join`, `str.split()`, `str.strip()`, `in` on strings, `str.replace`,
    and slicing/indexing/`list.insert` with negative and out-of-range indices.
    Python's notion of whitespace (`str.isspace`) is a parameter `sp`. */
module PyText {
  import opened Wrappers

  // ---------------------------------------------------------------------------
  // Indices, slices and insertion with Python's normalisation rules
  // ---------------------------------------------------------------------------

  /** A slice bound `a` on a sequence of length `n`: negative bounds count from
      the end, and bounds are clamped to `0..n`. */
  function PyNorm(n: nat, a: int): (r: nat)
    ensures r <= n
  {
    if a < 0 then (if n + a < 0 then 0 else n + a) else if a > n then n else a
  }

  /** `s[a:b]` */
  function PySlice<T>(s: seq<T>, a: int, b: int): seq<T>
  {
    var i := PyNorm(|s|, a);
    var j := PyNorm(|s|, b);
    if i <= j then s[i..j] else []
  }

  /** `s[a:]` */
  function PySliceFrom<T>(s: seq<T>, a: int): seq<T>
  {
    s[PyNorm(|s|, a)..]
  }

  /** `s[:b]` */
  function PySliceTo<T>(s: seq<T>, b: int): seq<T>
  {
    s[..PyNorm(|s|, b)]
  }

  /** `s.insert(idx, x)`, as a new value */
  function PyInsert<T>(s: seq<T>, idx: int, x: T): (r: seq<T>)
    ensures |r| == |s| + 1
    ensures 0 <= idx <= |s| ==> r[idx] == x && r[..idx] == s[..idx] && r[idx + 1..] == s[idx..]
  {
    var i := PyNorm(|s|, idx);
    s[..i] + [x] + s[i..]
  }

  /** `s[a]`, or None where Python raises IndexError */
  function PyIndex<T>(s: seq<T>, a: int): (r: Option<T>)
    ensures r.Some? <==> -(|s| as int) <= a < |s|
    ensures 0 <= a < |s| ==> r == Some(s[a])
    ensures -(|s| as int) <= a < 0 ==> r == Some(s[|s| + a])
  {
    if 0 <= a < |s| then Some(s[a])
    else if -(|s| as int) <= a < 0 then Some(s[|s| + a])
    else None
  }

  // ---------------------------------------------------------------------------
  // `sep.join(parts)`
  // ---------------------------------------------------------------------------

  function Join(parts: seq<string>, sep: string): string
    decreases |parts|
  {
    if |parts| == 0 then ""
    else if |parts| == 1 then parts[0]
    else parts[0] + sep + Join(parts[1..], sep)
  }

  /** Appending one more part adds exactly one separator. */
  lemma {:induction false} JoinSnoc(parts: seq<string>, x: string, sep: string)
    requires |parts| > 0
    ensures Join(parts + [x], sep) == Join(parts, sep) + sep + x
    decreases |parts|
  {
    if |parts| == 1 {
      assert parts + [x] == [parts[0], x];
      assert ([parts[0], x])[1..] == [x];
    } else {
      assert (parts + [x])[1..] == parts[1..] + [x];
      JoinSnoc(parts[1..], x, sep);
    }
  }

  /** The joined text is the parts and the separators, nothing else. */
  lemma {:induction false} JoinLength(parts: seq<string>, sep: string)
    requires |parts| > 0
    ensures |Join(parts, sep)| == SumLengths(parts) + (|parts| - 1) * |sep|
    decreases |parts|
  {
    if |parts| > 1 {
      JoinLength(parts[1..], sep);
    }
  }

  function SumLengths(parts: seq<string>): nat
  {
    if parts == [] then 0 else |parts[0]| + SumLengths(parts[1..])
  }

  // ---------------------------------------------------------------------------
  // Whitespace: `str.split()` and `str.strip()`
  // ---------------------------------------------------------------------------

  predicate IsBlank(s: string, sp: char -> bool)
  {
    forall i :: 0 <= i < |s| ==> sp(s[i])
  }

  predicate NoSpace(s: string, sp: char -> bool)
  {
    forall i :: 0 <= i < |s| ==> !sp(s[i])
  }

  /** The characters of `s` that are not whitespace, in order. */
  function NonSpace(s: string, sp: char -> bool): string
  {
    if s == [] then [] else (if sp(s[0]) then [] else [s[0]]) + NonSpace(s[1..], sp)
  }

  /** Length of the leading run of non-whitespace characters. */
  function WordLen(s: string, sp: char -> bool): (n: nat)
    requires s != [] && !sp(s[0])
    ensures 0 < n <= |s|
    ensures NoSpace(s[..n], sp)
    ensures n < |s| ==> sp(s[n])
  {
    if |s| == 1 || sp(s[1]) then 1 else 1 + WordLen(s[1..], sp)
  }

  /** `s.split()`: the maximal runs of non-whitespace characters. */
  function SplitWs(s: string, sp: char -> bool): seq<string>
    decreases |s|
  {
    if s == [] then []
    else if sp(s[0]) then SplitWs(s[1..], sp)
    else
      var n := WordLen(s, sp);
      [s[..n]] + SplitWs(s[n..], sp)
  }

  /** A word as `split()` returns it: non-empty, with no whitespace. */
  predicate GoodWord(w: string, sp: char -> bool)
  {
    w != [] && NoSpace(w, sp)
  }

  /** Every word `split()` returns is non-empty and holds no whitespace, the
      result is empty exactly for blank text, and the words concatenated are
      the text with its whitespace removed. */
  lemma {:induction false} SplitWsProperties(s: string, sp: char -> bool)
    ensures forall w :: w in SplitWs(s, sp) ==> GoodWord(w, sp)
    ensures SplitWs(s, sp) == [] <==> IsBlank(s, sp)
    ensures Concat(SplitWs(s, sp)) == NonSpace(s, sp)
    decreases |s|
  {
    if s == [] {
    } else if sp(s[0]) {
      SplitWsProperties(s[1..], sp);
      assert IsBlank(s, sp) <==> IsBlank(s[1..], sp) by {
        if IsBlank(s[1..], sp) {
          forall i | 0 <= i < |s| ensures sp(s[i]) {
            if i > 0 { assert s[i] == s[1..][i - 1]; }
          }
        }
      }
      assert NonSpace(s, sp) == NonSpace(s[1..], sp);
    } else {
      var n := WordLen(s, sp);
      SplitWsProperties(s[n..], sp);
      NonSpacePrefix(s, n, sp);
      assert SplitWs(s, sp) == [s[..n]] + SplitWs(s[n..], sp);
      assert Concat(SplitWs(s, sp)) == s[..n] + Concat(SplitWs(s[n..], sp));
      assert !IsBlank(s, sp);
    }
  }

  /** A slice of text without whitespace has none either. */
  lemma {:induction false} NoSpaceSlice(x: string, i: nat, j: nat, sp: char -> bool)
    requires i <= j <= |x| && NoSpace(x, sp)
    ensures NoSpace(x[i..j], sp)
  {
    forall k | 0 <= k < j - i ensures !sp(x[i..j][k]) {
      assert x[i..j][k] == x[i + k];
    }
  }

  /** A non-whitespace prefix survives NonSpace unchanged. */
  lemma {:induction false} NonSpacePrefix(s: string, n: nat, sp: char -> bool)
    requires n <= |s| && NoSpace(s[..n], sp)
    ensures NonSpace(s, sp) == s[..n] + NonSpace(s[n..], sp)
    decreases n
  {
    if n > 0 {
      assert !sp(s[..n][0]);
      NoSpaceSlice(s[..n], 1, n, sp);
      assert s[..n][1..n] == s[1..][..n - 1];
      NonSpacePrefix(s[1..], n - 1, sp);
      assert s[1..][n - 1..] == s[n..];
      assert s[..n] == [s[0]] + s[1..][..n - 1];
    }
  }

  /** NonSpace distributes over concatenation. */
  lemma {:induction false} NonSpaceAppend(a: string, b: string, sp: char -> bool)
    ensures NonSpace(a + b, sp) == NonSpace(a, sp) + NonSpace(b, sp)
    decreases |a|
  {
    if a != [] {
      var h := if sp(a[0]) then [] else [a[0]];
      assert (a + b)[0] == a[0];
      assert (a + b)[1..] == a[1..] + b;
      assert NonSpace(a + b, sp) == h + NonSpace(a[1..] + b, sp);
      NonSpaceAppend(a[1..], b, sp);
      assert NonSpace(a, sp) == h + NonSpace(a[1..], sp);
    } else {
      assert a + b == b;
    }
  }

  /** Blank text has no non-whitespace characters. */
  lemma {:induction false} NonSpaceBlank(s: string, sp: char -> bool)
    requires IsBlank(s, sp)
    ensures NonSpace(s, sp) == []
    decreases |s|
  {
    if s != [] {
      assert IsBlank(s[1..], sp) by {
        forall i | 0 <= i < |s| - 1 ensures sp(s[1..][i]) { assert s[1..][i] == s[i + 1]; }
      }
      NonSpaceBlank(s[1..], sp);
    }
  }

  function Concat(parts: seq<string>): string
  {
    if parts == [] then "" else parts[0] + Concat(parts[1..])
  }

  /** Concatenating one more part appends it. */
  lemma {:induction false} ConcatSnoc(parts: seq<string>, x: string)
    ensures Concat(parts + [x]) == Concat(parts) + x
    decreases |parts|
  {
    if parts == [] {
      assert [x][1..] == [];
    } else {
      assert (parts + [x])[1..] == parts[1..] + [x];
      ConcatSnoc(parts[1..], x);
    }
  }

  /** `split()` undoes `" ".join` of non-empty words without whitespace. */
  lemma {:induction false} SplitJoin(words: seq<string>, sp: char -> bool)
    requires sp(' ')
    requires forall w :: w in words ==> GoodWord(w, sp)
    ensures SplitWs(Join(words, " "), sp) == words
    decreases |words|
  {
    if |words| == 1 {
      SplitWord(words[0], [], sp);
      assert words[0] + [] == words[0];
    } else if |words| > 1 {
      var w := words[0];
      var rest := Join(words[1..], " ");
      SplitJoin(words[1..], sp);
      assert SplitWs([' '] + rest, sp) == SplitWs(rest, sp) by {
        assert ([' '] + rest)[1..] == rest;
      }
      assert Join(words, " ") == w + ([' '] + rest);
      SplitWord(w, [' '] + rest, sp);
    }
  }

  /** A word followed by text that is empty or starts with whitespace splits off whole. */
  lemma {:induction false} SplitWord(w: string, t: string, sp: char -> bool)
    requires GoodWord(w, sp)
    requires t == [] || sp(t[0])
    ensures SplitWs(w + t, sp) == [w] + SplitWs(t, sp)
  {
    var s := w + t;
    var n := WordLen(s, sp);
    assert forall i :: 0 <= i < |w| ==> s[i] == w[i];
    assert t != [] ==> s[|w|] == t[0];
    assert n == |w|;
    assert s[..n] == w;
    assert s[n..] == t;
  }

  /** `s.lstrip()` */
  function LStrip(s: string, sp: char -> bool): (r: string)
    ensures |r| <= |s| && r == s[|s| - |r|..]
    ensures IsBlank(s[..|s| - |r|], sp)
    ensures r != [] ==> !sp(r[0])
    decreases |s|
  {
    if s != [] && sp(s[0]) then
      var r := LStrip(s[1..], sp);
      assert s[..|s| - |r|] == [s[0]] + s[1..][..|s[1..]| - |r|];
      r
    else s
  }

  /** `s.rstrip()` */
  function RStrip(s: string, sp: char -> bool): (r: string)
    ensures |r| <= |s| && r == s[..|r|]
    ensures IsBlank(s[|r|..], sp)
    ensures r != [] ==> !sp(r[|r| - 1])
    decreases |s|
  {
    if s != [] && sp(s[|s| - 1]) then
      var p := s[..|s| - 1];
      var r := RStrip(p, sp);
      assert r == s[..|r|] by {
        assert p[..|r|] == s[..|r|];
      }
      assert IsBlank(s[|r|..], sp) by {
        var tail := s[|r|..];
        assert tail == p[|r|..] + [s[|s| - 1]];
        forall i | 0 <= i < |tail| ensures sp(tail[i]) {
          if i < |tail| - 1 {
            assert tail[i] == p[|r|..][i];
          }
        }
      }
      r
    else s
  }

  /** `s.strip()`: the text with leading and trailing whitespace removed. */
  function Strip(s: string, sp: char -> bool): (r: string)
  {
    RStrip(LStrip(s, sp), sp)
  }

  /** Text that neither starts nor ends with whitespace is its own strip. */
  lemma {:induction false} StripUnchanged(s: string, sp: char -> bool)
    requires s != [] ==> !sp(s[0]) && !sp(s[|s| - 1])
    ensures Strip(s, sp) == s
  {
  }

  /** Where the stripped text starts inside the original. */
  function StripStart(s: string, sp: char -> bool): nat
  {
    |s| - |LStrip(s, sp)|
  }

  /** Where the stripped text ends inside the original. */
  function StripEnd(s: string, sp: char -> bool): nat
  {
    StripStart(s, sp) + |Strip(s, sp)|
  }

  /** The stripped text is a slice of the original with only whitespace cut off
      on either side. */
  lemma {:induction false} StripSlice(s: string, sp: char -> bool)
    ensures StripEnd(s, sp) <= |s|
    ensures Strip(s, sp) == s[StripStart(s, sp)..StripEnd(s, sp)]
    ensures IsBlank(s[..StripStart(s, sp)], sp) && IsBlank(s[StripEnd(s, sp)..], sp)
  {
    StripSliceText(s, sp);
    StripSliceBlank(s, sp);
  }

  lemma {:induction false} StripSliceText(s: string, sp: char -> bool)
    ensures StripEnd(s, sp) <= |s|
    ensures Strip(s, sp) == s[StripStart(s, sp)..StripEnd(s, sp)]
  {
    var l := LStrip(s, sp);
    var r := RStrip(l, sp);
    var a := StripStart(s, sp);
    assert a == |s| - |l|;
    assert StripEnd(s, sp) == a + |r|;
    assert Strip(s, sp) == r;
    assert l == s[a..];
    assert r == l[..|r|];
    assert s[a..][..|r|] == s[a..a + |r|];
  }

  lemma {:induction false} StripSliceBlank(s: string, sp: char -> bool)
    ensures StripEnd(s, sp) <= |s|
    ensures IsBlank(s[..StripStart(s, sp)], sp) && IsBlank(s[StripEnd(s, sp)..], sp)
  {
    var l := LStrip(s, sp);
    var r := RStrip(l, sp);
    var a := StripStart(s, sp);
    assert a == |s| - |l|;
    assert IsBlank(s[..a], sp);
    var b := StripEnd(s, sp);
    assert b == a + |r|;
    assert l == s[a..];
    assert s[b..] == l[|r|..];
    assert IsBlank(l[|r|..], sp);
  }

  /** The stripped text is empty exactly for blank text, and otherwise starts
      and ends with a non-whitespace character. */
  lemma {:induction false} StripEnds(s: string, sp: char -> bool)
    ensures Strip(s, sp) != [] ==> !sp(Strip(s, sp)[0]) && !sp(Strip(s, sp)[|Strip(s, sp)| - 1])
    ensures Strip(s, sp) == [] <==> IsBlank(s, sp)
  {
    var l := LStrip(s, sp);
    var r := Strip(s, sp);
    var a := StripStart(s, sp);
    StripSlice(s, sp);
    if r != [] {
      assert l[0] == r[0];
      assert s[a] == r[0];
    } else {
      assert IsBlank(l, sp) by { assert l[|r|..] == l; }
      assert l == [];
      assert s[..a] == s;
    }
  }

  /** Stripping removes only whitespace, so the non-whitespace content is kept. */
  lemma {:induction false} StripNonSpace(s: string, sp: char -> bool)
    ensures NonSpace(Strip(s, sp), sp) == NonSpace(s, sp)
  {
    StripSlice(s, sp);
    NonSpaceTrim(s, StripStart(s, sp), StripEnd(s, sp), sp);
  }

  /** Cutting blank text off both ends keeps the non-whitespace content. */
  lemma {:induction false} NonSpaceTrim(s: string, a: nat, b: nat, sp: char -> bool)
    requires a <= b <= |s|
    requires IsBlank(s[..a], sp) && IsBlank(s[b..], sp)
    ensures NonSpace(s[a..b], sp) == NonSpace(s, sp)
  {
    var x, y, z := s[..a], s[a..b], s[b..];
    assert s == x + y + z;
    NonSpaceAppend(x + y, z, sp);
    NonSpaceAppend(x, y, sp);
    NonSpaceBlank(x, sp);
    NonSpaceBlank(z, sp);
  }

  // ---------------------------------------------------------------------------
  // Substrings: `p in s` and `s.replace(p, r)`
  // ---------------------------------------------------------------------------

  /** A character of Python's `string.punctuation`: the printable ASCII
      characters that are neither letters, digits nor the space. */
  predicate IsAsciiPunct(c: char)
  {
    var cp := c as int;
    (33 <= cp <= 47) || (58 <= cp <= 64) || (91 <= cp <= 96) || (123 <= cp <= 126)
  }

  predicate StartsWith(s: string, p: string)
  {
    |p| <= |s| && s[..|p|] == p
  }

  /** `p` occurs in `s` starting at index `i`. */
  predicate OccursAt(s: string, p: string, i: nat)
  {
    i + |p| <= |s| && s[i..i + |p|] == p
  }

  /** `p in s` */
  predicate Contains(s: string, p: string)
  {
    exists i: nat | i <= |s| :: OccursAt(s, p, i)
  }

  /** `s.replace(p, r)` for a non-empty pattern: every occurrence, scanning
      left to right without overlaps. */
  function ReplaceAll(s: string, p: string, r: string): string
    requires p != []
    decreases |s|
  {
    if |s| < |p| then s
    else if StartsWith(s, p) then r + ReplaceAll(s[|p|..], p, r)
    else [s[0]] + ReplaceAll(s[1..], p, r)
  }

  /** Text without the pattern is left unchanged by replace. */
  lemma {:induction false} ReplaceAbsent(s: string, p: string, r: string)
    requires p != [] && !Contains(s, p)
    ensures ReplaceAll(s, p, r) == s
    decreases |s|
  {
    if |s| >= |p| {
      assert !OccursAt(s, p, 0);
      assert !StartsWith(s, p);
      forall i: nat | OccursAt(s[1..], p, i) ensures false {
        assert s[1..][i..i + |p|] == s[i + 1..i + 1 + |p|];
        assert OccursAt(s, p, i + 1);
      }
      ReplaceAbsent(s[1..], p, r);
    }
  }

  predicate Disjoint(p: string, r: string)
  {
    forall i, j :: 0 <= i < |p| && 0 <= j < |r| ==> p[i] != r[j]
  }

  /** A prefix of the replaced text that holds no character of `r` is a prefix
      of the original text. */
  lemma {:induction false} ReplacePrefix(s: string, p: string, r: string, k: nat)
    requires p != [] && r != []
    requires k <= |ReplaceAll(s, p, r)|
    requires forall i, j :: 0 <= i < k && 0 <= j < |r| ==> ReplaceAll(s, p, r)[i] != r[j]
    ensures k <= |s| && ReplaceAll(s, p, r)[..k] == s[..k]
    decreases |s|
  {
    if |s| < |p| {
    } else if StartsWith(s, p) {
      assert ReplaceAll(s, p, r)[0] == r[0];
    } else if k > 0 {
      var t := ReplaceAll(s[1..], p, r);
      assert ReplaceAll(s, p, r) == [s[0]] + t;
      forall i, j | 0 <= i < k - 1 && 0 <= j < |r| ensures t[i] != r[j] {
        assert t[i] == ReplaceAll(s, p, r)[i + 1];
      }
      ReplacePrefix(s[1..], p, r, k - 1);
      assert ReplaceAll(s, p, r)[..k] == [s[0]] + t[..k - 1];
    }
  }

  /** An occurrence of `p` in `r + u` cannot start inside `r` when the two share no character. */
  lemma {:induction false} OccursPastPrefix(r: string, u: string, p: string, i: nat)
    requires p != [] && Disjoint(p, r) && OccursAt(r + u, p, i)
    ensures i >= |r| && OccursAt(u, p, i - |r|)
  {
    var t := r + u;
    assert t[i..i + |p|][0] == t[i];
    assert u[i - |r|..i - |r| + |p|] == t[i..i + |p|];
  }

  /** When the replacement shares no character with the pattern, no occurrence
      of the pattern survives `replace`. */
  lemma {:induction false} ReplaceRemoves(s: string, p: string, r: string)
    requires p != [] && r != [] && Disjoint(p, r)
    ensures !Contains(ReplaceAll(s, p, r), p)
    decreases |s|
  {
    var t := ReplaceAll(s, p, r);
    if |s| < |p| {
    } else if StartsWith(s, p) {
      var u := ReplaceAll(s[|p|..], p, r);
      ReplaceRemoves(s[|p|..], p, r);
      assert t == r + u;
      forall i: nat | OccursAt(t, p, i) ensures false {
        OccursPastPrefix(r, u, p, i);
      }
    } else {
      var u := ReplaceAll(s[1..], p, r);
      ReplaceRemoves(s[1..], p, r);
      assert t == [s[0]] + u;
      forall i: nat | OccursAt(t, p, i) ensures false {
        if i == 0 {
          // the occurrence starts at s[0]; its tail holds no character of r
          forall a, b | 0 <= a < |p| - 1 && 0 <= b < |r| ensures u[a] != r[b] {
            assert u[a] == t[i..i + |p|][a + 1];
          }
          assert s[..|p|] == [s[0]] + s[1..][..|p| - 1];
          assert t[..|p|] == [s[0]] + u[..|p| - 1];
          ReplacePrefix(s[1..], p, r, |p| - 1);
        } else {
          assert u[i - 1..i - 1 + |p|] == t[i..i + |p|];
          assert OccursAt(u, p, i - 1);
        }
      }
    }
  }

  /** Replacing with a disjoint replacement is idempotent. */
  lemma {:induction false} ReplaceIdempotent(s: string, p: string, r: string)
    requires p != [] && r != [] && Disjoint(p, r)
    ensures ReplaceAll(ReplaceAll(s, p, r), p, r) == ReplaceAll(s, p, r)
  {
    ReplaceRemoves(s, p, r);
    ReplaceAbsent(ReplaceAll(s, p, r), p, r);
  }
}
