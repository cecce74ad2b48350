/**
 * The two pieces of Rust's `str` behaviour the server relies on: `trim`
 * (which strips characters with the Unicode White_Space property from both
 * ends) and `len` (which counts the bytes of the UTF-8 encoding, not
 * characters).
 */
module Text {
  import opened Sequences

  /** Unicode's White_Space property, as tested by Rust's `char::is_whitespace`. */
  predicate IsWhitespace(c: char) {
    || ('\U{9}' <= c <= '\U{D}')
    || c == ' '
    || c == '\U{85}'
    || c == '\U{A0}'
    || c == '\U{1680}'
    || ('\U{2000}' <= c <= '\U{200A}')
    || c == '\U{2028}'
    || c == '\U{2029}'
    || c == '\U{202F}'
    || c == '\U{205F}'
    || c == '\U{3000}'
  }

  predicate AllWhitespace(s: string) {
    forall k :: 0 <= k < |s| ==> IsWhitespace(s[k])
  }

  /** A string neither starting nor ending with whitespace. */
  predicate Trimmed(s: string) {
    s == [] || (!IsWhitespace(s[0]) && !IsWhitespace(s[|s| - 1]))
  }

  /** `str::trim_start`: drop the longest all-whitespace prefix. */
  function TrimStart(s: string): (r: string)
    ensures |r| <= |s|
    ensures r == [] || !IsWhitespace(r[0])
  {
    if s != [] && IsWhitespace(s[0]) then TrimStart(s[1..]) else s
  }

  /** `str::trim_end`: drop the longest all-whitespace suffix. */
  function TrimEnd(s: string): (r: string)
    ensures |r| <= |s|
    ensures r == [] || !IsWhitespace(r[|r| - 1])
  {
    if s != [] && IsWhitespace(s[|s| - 1]) then TrimEnd(s[..|s| - 1]) else s
  }

  /** `str::trim`: both of the above. */
  function Trim(s: string): string {
    TrimEnd(TrimStart(s))
  }

  /** `trim_start` returns a suffix of its argument. */
  lemma {:induction false} TrimStartIsSuffix(s: string)
    ensures TrimStart(s) == s[|s| - |TrimStart(s)|..]
  {
    if s != [] && IsWhitespace(s[0]) {
      TrimStartIsSuffix(s[1..]);
    }
  }

  /** `trim_end` returns a prefix of its argument. */
  lemma {:induction false} TrimEndIsPrefix(s: string)
    ensures TrimEnd(s) == s[..|TrimEnd(s)|]
  {
    if s != [] && IsWhitespace(s[|s| - 1]) {
      TrimEndIsPrefix(s[..|s| - 1]);
    }
  }

  /** What `trim` returns is no longer than its argument and starts and ends with non-whitespace. */
  lemma TrimTrims(s: string)
    ensures |Trim(s)| <= |s|
    ensures Trimmed(Trim(s))
  {
    var t := TrimStart(s);
    TrimEndIsPrefix(t);
    assert Trim(s) != [] ==> Trim(s)[0] == t[0];
  }

  /** What `trim_start` drops is whitespace. */
  lemma {:induction false} TrimStartDropsWhitespace(s: string)
    ensures AllWhitespace(s[..|s| - |TrimStart(s)|])
  {
    TrimStartIsSuffix(s);
    if s != [] && IsWhitespace(s[0]) {
      TrimStartDropsWhitespace(s[1..]);
      TrimStartIsSuffix(s[1..]);
      var n := |s| - |TrimStart(s)|;
      forall k | 0 <= k < n ensures IsWhitespace(s[..n][k]) {
        if k > 0 {
          assert s[..n][k] == s[1..][..n - 1][k - 1];
        }
      }
    }
  }

  /** What `trim_end` drops is whitespace. */
  lemma {:induction false} TrimEndDropsWhitespace(s: string)
    ensures AllWhitespace(s[|TrimEnd(s)|..])
  {
    TrimEndIsPrefix(s);
    if s != [] && IsWhitespace(s[|s| - 1]) {
      var s' := s[..|s| - 1];
      TrimEndDropsWhitespace(s');
      TrimEndIsPrefix(s');
      var n := |TrimEnd(s)|;
      forall k | 0 <= k < |s| - n ensures IsWhitespace(s[n..][k]) {
        if n + k < |s| - 1 {
          assert s[n..][k] == s'[n..][k];
        }
      }
    }
  }

  /** Trimming leaves an already trimmed string alone. */
  lemma TrimOfTrimmed(s: string)
    requires Trimmed(s)
    ensures Trim(s) == s
  {
  }

  /** Trimming twice is trimming once. */
  lemma TrimIdempotent(s: string)
    ensures Trim(Trim(s)) == Trim(s)
  {
    TrimTrims(s);
    TrimOfTrimmed(Trim(s));
  }

  lemma {:induction false} TrimStartAllWhitespace(s: string)
    requires AllWhitespace(s)
    ensures TrimStart(s) == []
  {
    if s != [] {
      assert AllWhitespace(s[1..]) by {
        forall k | 0 <= k < |s| - 1 ensures IsWhitespace(s[1..][k]) {
          assert s[1..][k] == s[k + 1];
        }
      }
      TrimStartAllWhitespace(s[1..]);
    }
  }

  /** Leading whitespace does not change `trim_start`. */
  lemma {:induction false} TrimStartSkipsPrefix(w: string, x: string)
    requires AllWhitespace(w)
    ensures TrimStart(w + x) == TrimStart(x)
  {
    if w != [] {
      assert (w + x)[1..] == w[1..] + x;
      assert AllWhitespace(w[1..]) by {
        forall k | 0 <= k < |w| - 1 ensures IsWhitespace(w[1..][k]) {
          assert w[1..][k] == w[k + 1];
        }
      }
      TrimStartSkipsPrefix(w[1..], x);
    } else {
      assert w + x == x;
    }
  }

  /** Trailing whitespace does not change `trim_end`. */
  lemma {:induction false} TrimEndSkipsSuffix(x: string, w: string)
    requires AllWhitespace(w)
    ensures TrimEnd(x + w) == TrimEnd(x)
  {
    if w != [] {
      var w' := w[..|w| - 1];
      assert (x + w)[..|x + w| - 1] == x + w';
      assert AllWhitespace(w') by {
        forall k | 0 <= k < |w'| ensures IsWhitespace(w'[k]) {
          assert w'[k] == w[k];
        }
      }
      TrimEndSkipsSuffix(x, w');
    } else {
      assert x + w == x;
    }
  }

  /** Once a non-whitespace character is reached, `trim_start` keeps the rest, suffix included. */
  lemma {:induction false} TrimStartKeepsSuffix(x: string, w: string)
    requires TrimStart(x) != []
    ensures TrimStart(x + w) == TrimStart(x) + w
  {
    assert (x + w)[0] == x[0];
    if IsWhitespace(x[0]) {
      assert TrimStart(x) == TrimStart(x[1..]);
      assert (x + w)[1..] == x[1..] + w;
      TrimStartKeepsSuffix(x[1..], w);
    } else {
      assert TrimStart(x) == x;
    }
  }

  lemma AllWhitespaceAppend(a: string, b: string)
    requires AllWhitespace(a) && AllWhitespace(b)
    ensures AllWhitespace(a + b)
  {
    forall k | 0 <= k < |a + b| ensures IsWhitespace((a + b)[k]) {
      if k < |a| {
        assert (a + b)[k] == a[k];
      } else {
        assert (a + b)[k] == b[k - |a|];
      }
    }
  }

  lemma TrimIgnoresSuffix(s: string, w: string)
    requires AllWhitespace(w)
    ensures TrimEnd(TrimStart(s + w)) == TrimEnd(TrimStart(s))
  {
    var t := TrimStart(s);
    if t == [] {
      TrimStartDropsWhitespace(s);
      assert s[..|s|] == s;
      AllWhitespaceAppend(s, w);
      TrimStartAllWhitespace(s + w);
    } else {
      TrimStartKeepsSuffix(s, w);
      TrimEndSkipsSuffix(t, w);
    }
  }

  lemma TrimIgnoresPrefixAndSuffix(w1: string, s: string, w2: string)
    requires AllWhitespace(w1) && AllWhitespace(w2)
    ensures Trim(w1 + (s + w2)) == Trim(s)
  {
    TrimStartSkipsPrefix(w1, s + w2);
    TrimIgnoresSuffix(s, w2);
  }

  /** Surrounding whitespace never changes what `trim` returns. */
  lemma TrimIgnoresPadding(w1: string, s: string, w2: string)
    requires AllWhitespace(w1) && AllWhitespace(w2)
    ensures Trim(w1 + s + w2) == Trim(s)
  {
    TrimIgnoresPrefixAndSuffix(w1, s, w2);
    Reassociate(w1, s, w2);
  }

  /** Bytes Rust's UTF-8 encoding gives one character. */
  function Utf8Width(c: char): (n: nat)
    ensures 1 <= n <= 4
  {
    if c as int < 0x80 then 1
    else if c as int < 0x800 then 2
    else if c as int < 0x10000 then 3
    else 4
  }

  /** `str::len`: the length in UTF-8 bytes. */
  function Utf8Len(s: string): (n: nat)
    ensures |s| <= n <= 4 * |s|
  {
    if s == [] then 0 else Utf8Width(s[0]) + Utf8Len(s[1..])
  }

  /** For ASCII text the byte length is the character count. */
  lemma {:induction false} Utf8LenAscii(s: string)
    requires forall k :: 0 <= k < |s| ==> s[k] as int < 0x80
    ensures Utf8Len(s) == |s|
  {
    if s != [] {
      assert forall k :: 0 <= k < |s| - 1 ==> s[1..][k] == s[k + 1];
      Utf8LenAscii(s[1..]);
    }
  }
}
