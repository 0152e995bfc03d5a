/**
 * The bearer-token check in front of the internal routes
 * (src/middleware/auth.ts): the request passes only with an Authorization
 * header `Bearer <token>` whose token is the internal API key.
 */
module Auth {
  import opened Wrappers

  /** What the middleware does: answer with an error status, or call `next()`. */
  datatype Outcome = Reject(status: int, error: string) | Next

  const Unauthenticated: int := 401
  const Forbidden: int := 403
  const MissingHeaderMessage: string := "Missing or invalid Authorization header"
  const UnauthorizedMessage: string := "Unauthorized"
  const BearerPrefix: string := "Bearer "

  predicate StartsWith(s: string, prefix: string) {
    |prefix| <= |s| && s[..|prefix|] == prefix
  }

  /** The position of the first `sep` in `s`. */
  function IndexOf(s: string, sep: char): (k: nat)
    requires sep in s
    ensures k < |s| && s[k] == sep && sep !in s[..k]
  {
    if s[0] == sep then 0 else 1 + IndexOf(s[1..], sep)
  }

  /** `s.split(sep)` for a one-character separator: the pieces between separators, empty ones included. */
  function Split(s: string, sep: char): (parts: seq<string>)
    ensures |parts| >= 1
    ensures forall i :: 0 <= i < |parts| ==> sep !in parts[i]
    ensures sep !in s ==> parts == [s]
    decreases |s|
  {
    if sep !in s then [s]
    else
      var k := IndexOf(s, sep);
      [s[..k]] + Split(s[k + 1..], sep)
  }

  /** `parts.join(sep)`, the inverse of Split. */
  function Join(parts: seq<string>, sep: char): string
    requires |parts| >= 1
  {
    if |parts| == 1 then parts[0] else parts[0] + [sep] + Join(parts[1..], sep)
  }

  lemma {:induction false} JoinSplit(s: string, sep: char)
    ensures Join(Split(s, sep), sep) == s
    decreases |s|
  {
    if sep in s {
      var k := IndexOf(s, sep);
      var rest := Split(s[k + 1..], sep);
      JoinSplit(s[k + 1..], sep);
      var parts := Split(s, sep);
      assert parts == [s[..k]] + rest;
      assert parts[1..] == rest;
      assert Join(parts, sep) == s[..k] + [sep] + s[k + 1..];
      Reassemble(s, k);
    }
  }

  lemma Reassemble(s: string, k: nat)
    requires k < |s|
    ensures s[..k] + [s[k]] + s[k + 1..] == s
  {
    var t := s[..k] + [s[k]] + s[k + 1..];
    assert |t| == |s|;
    forall i | 0 <= i < |s| ensures t[i] == s[i] {
      if i > k {
        assert t[i] == s[k + 1..][i - k - 1];
      }
    }
  }

  lemma {:induction false} SplitJoin(parts: seq<string>, sep: char)
    requires |parts| >= 1
    requires forall i :: 0 <= i < |parts| ==> sep !in parts[i]
    ensures Split(Join(parts, sep), sep) == parts
  {
    if |parts| > 1 {
      var s := Join(parts, sep);
      SplitJoin(parts[1..], sep);
      assert s == parts[0] + [sep] + Join(parts[1..], sep);
      assert s[|parts[0]|] == sep;
      assert s[..|parts[0]|] == parts[0];
      assert IndexOf(s, sep) == |parts[0]|;
      assert s[|parts[0]| + 1..] == Join(parts[1..], sep);
    }
  }

  /** `authHeader.split(' ')[1]`, for a header that passed the prefix test. */
  function Token(header: string): (token: string)
    requires StartsWith(header, BearerPrefix)
    ensures ' ' !in token
  {
    var parts := Split(header, ' ');
    assert ' ' in header by { assert header[6] == BearerPrefix[6]; }
    assert |parts| >= 2 by {
      var k := IndexOf(header, ' ');
      assert |Split(header[k + 1..], ' ')| >= 1;
    }
    parts[1]
  }

  /**
   * The middleware's decision for the header (absent as None) and the
   * configured key (unset as None). An empty header is falsy, and it does not
   * start with the prefix either.
   */
  function Authorize(header: Option<string>, key: Option<string>): (r: Outcome)
    ensures r == Reject(Unauthenticated, MissingHeaderMessage) <==>
      header.None? || !StartsWith(header.value, BearerPrefix)
    ensures r == Reject(Forbidden, UnauthorizedMessage) <==>
      (header.Some? && StartsWith(header.value, BearerPrefix) && (key.None? || Token(header.value) != key.value))
    ensures r.Next? <==>
      (header.Some? && StartsWith(header.value, BearerPrefix) && key == Some(Token(header.value)))
  {
    if header.None? || header.value == "" || !StartsWith(header.value, BearerPrefix) then
      Reject(Unauthenticated, MissingHeaderMessage)
    else if key.None? || Token(header.value) != key.value then
      Reject(Forbidden, UnauthorizedMessage)
    else
      Next
  }

  /** The text of `s` up to its first space. */
  function FirstWord(s: string): (w: string)
    ensures ' ' !in w && StartsWith(s, w)
    ensures |w| < |s| ==> s[|w|] == ' '
  {
    if ' ' in s then s[..IndexOf(s, ' ')] else s
  }

  /** The token checked is the first word after `Bearer `: later words are ignored. */
  lemma {:induction false} TokenIsFirstWord(rest: string)
    ensures StartsWith(BearerPrefix + rest, BearerPrefix)
    ensures Token(BearerPrefix + rest) == FirstWord(rest)
  {
    var h := BearerPrefix + rest;
    assert h[..|BearerPrefix|] == BearerPrefix;
    var b := "Bearer";
    assert b + [' '] == BearerPrefix;
    assert ' ' !in b;
    assert IndexOf(h, ' ') == 6 by {
      assert h[6] == ' ' && h[..6] == b;
    }
    assert h[7..] == rest;
    assert Split(h, ' ') == [h[..6]] + Split(rest, ' ');
    assert Split(rest, ' ')[0] == FirstWord(rest);
  }

  /** `Bearer a b` is checked as the token `a`. */
  lemma {:induction false} TokenExample()
    ensures Token("Bearer a b") == "a"
  {
    var rest := "a b";
    TokenIsFirstWord(rest);
    assert BearerPrefix + rest == "Bearer a b";
    assert rest[0] != ' ' && rest[1] == ' ';
    assert IndexOf(rest, ' ') == 1;
    assert rest[..1] == "a";
  }

  /** Without a configured key no request gets through. */
  lemma UnsetKeyRejectsEveryRequest(header: Option<string>)
    ensures Authorize(header, None) != Next
  {
  }

  /** The key itself, sent as `Bearer <key>`, passes when it has no space. */
  lemma {:induction false} KeyPasses(key: string)
    requires ' ' !in key
    ensures Authorize(Some(BearerPrefix + key), Some(key)) == Next
  {
    TokenIsFirstWord(key);
  }
}
