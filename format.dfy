/**
 * Tag canonicalisation (src/lib/format.ts): drop every character outside
 * `[A-Za-z0-9]`, upper-case, turn the letter `O` into the digit `0`, and
 * optionally prefix `#`.
 */
module Format {
  import opened Text

  /** A character that can appear in a canonical tag body. */
  predicate IsTagChar(c: char) {
    IsAsciiDigit(c) || (IsAsciiUpper(c) && c != 'O')
  }

  /** What a kept character becomes: upper-cased, then `O` replaced by `0`. */
  function CanonicalChar(c: char): (r: char)
    requires IsAsciiAlnum(c)
    ensures IsTagChar(r)
    ensures c == 'o' || c == 'O' ==> r == '0'
    ensures IsTagChar(c) ==> r == c
  {
    var u := ToUpper(c);
    if u == 'O' then '0' else u
  }

  /** The tag without its optional `#`: the three replacements of `formatTag`. */
  function TagBody(s: string): (r: string)
    ensures |r| <= |s|
    ensures forall i :: 0 <= i < |r| ==> IsTagChar(r[i])
  {
    if s == [] then []
    else
      var last := s[|s| - 1];
      TagBody(s[..|s| - 1]) + (if IsAsciiAlnum(last) then [CanonicalChar(last)] else [])
  }

  /** `formatTag(str, withHastag)`. */
  function FormatTag(s: string, withHash: bool): string {
    (if withHash then "#" else "") + TagBody(s)
  }

  /** The positions of the characters `formatTag` keeps, in increasing order. */
  ghost function KeptPositions(s: string): (idx: seq<nat>)
    ensures forall k :: 0 <= k < |idx| ==> idx[k] < |s| && IsAsciiAlnum(s[idx[k]])
    ensures forall k, l :: 0 <= k < l < |idx| ==> idx[k] < idx[l]
    ensures forall i :: 0 <= i < |s| && IsAsciiAlnum(s[i]) ==> i in idx
  {
    if s == [] then []
    else
      var n := |s| - 1;
      KeptPositions(s[..n]) + (if IsAsciiAlnum(s[n]) then [n] else [])
  }

  /**
   * The body is exactly the kept characters, canonicalised, in their
   * original order; so it is never longer than the input.
   */
  lemma {:induction false} TagBodyIsKeptCharacters(s: string)
    ensures var idx := KeptPositions(s);
      |TagBody(s)| == |idx| &&
      forall k :: 0 <= k < |idx| ==> TagBody(s)[k] == CanonicalChar(s[idx[k]])
  {
    if s != [] {
      var n := |s| - 1;
      TagBodyIsKeptCharacters(s[..n]);
      var idx' := KeptPositions(s[..n]);
      forall k | 0 <= k < |idx'| ensures s[..n][idx'[k]] == s[idx'[k]] {}
    }
  }

  /** The body of a concatenation is the concatenation of the bodies. */
  lemma {:induction false} TagBodyAppend(a: string, b: string)
    ensures TagBody(a + b) == TagBody(a) + TagBody(b)
  {
    if b != [] {
      var n := |b| - 1;
      assert (a + b)[..|a + b| - 1] == a + b[..n];
      TagBodyAppend(a, b[..n]);
    } else {
      assert a + b == a;
    }
  }

  /** A canonical body is left as it is. */
  lemma {:induction false} TagBodyFixesCanonical(s: string)
    requires forall i :: 0 <= i < |s| ==> IsTagChar(s[i])
    ensures TagBody(s) == s
  {
    if s != [] {
      TagBodyFixesCanonical(s[..|s| - 1]);
    }
  }

  /** Both `o` and `O` become `0`, wherever they stand. */
  lemma {:induction false} LetterOBecomesZero(a: string, c: char, b: string)
    requires c == 'o' || c == 'O'
    ensures TagBody(a + [c] + b) == TagBody(a) + "0" + TagBody(b)
  {
    TagBodyAppend(a + [c], b);
    TagBodyAppend(a, [c]);
    assert TagBody([c]) == TagBody([]) + [CanonicalChar(c)];
  }

  /** With the flag, the result is `#` followed by the result without it. */
  lemma {:induction false} HashPrefix(s: string)
    ensures FormatTag(s, true) == "#" + FormatTag(s, false)
    ensures FormatTag(s, false) == TagBody(s)
  {
    assert "" + TagBody(s) == TagBody(s);
  }

  /** `formatTag` is idempotent for either flag: a leading `#` is dropped again. */
  lemma {:induction false} FormatTagIdempotent(s: string, withHash: bool)
    ensures FormatTag(FormatTag(s, withHash), withHash) == FormatTag(s, withHash)
  {
    var body := TagBody(s);
    TagBodyFixesCanonical(body);
    if withHash {
      TagBodyAppend("#", body);
      assert TagBody("#") == [] by {
        assert TagBody("#") == TagBody([]);
      }
    } else {
      assert FormatTag(s, false) == body;
    }
  }
}
