/**
 * The two `Bearer` patterns of the authorizers, as anchored regular expressions
 * without the `m` or `s` flags: `^` and `$` anchor the whole string, and `.` matches
 * any character except a line terminator.
 *
 *   - `/^Bearer +(?<jwt>.*)$/u` (the TOKEN authorizers): one or more spaces, and the
 *     greedy ` +` leaves the capture without leading spaces;
 *   - `/^Bearer (.*)$/` (the REQUEST authorizer): exactly one space, the rest captured as is.
 */
module Bearer {
  import opened Js

  /** The characters `.` refuses to match: LF, CR, LINE SEPARATOR, PARAGRAPH SEPARATOR. */
  predicate IsLineTerminator(c: char) {
    c == '\n' || c == '\r' || c == '\U{2028}' || c == '\U{2029}'
  }

  /** `.*` matches the whole of `s`. */
  predicate SingleLine(s: string) {
    forall i :: 0 <= i < |s| ==> !IsLineTerminator(s[i])
  }

  /** A run of `n` spaces. */
  function Spaces(n: nat): (r: string)
    ensures |r| == n
    ensures forall i :: 0 <= i < n ==> r[i] == ' '
  {
    seq(n, _ => ' ')
  }

  /** `s` without its leading run of spaces. */
  function DropSpaces(s: string): (r: string)
    ensures |r| <= |s|
    ensures s == Spaces(|s| - |r|) + r
    ensures r == [] || r[0] != ' '
  {
    if s != [] && s[0] == ' ' then
      var r := DropSpaces(s[1..]);
      assert Spaces(|s| - |r|) == [' '] + Spaces(|s[1..]| - |r|);
      r
    else
      assert s == Spaces(0) + s;
      s
  }

  /** The capture of `/^Bearer +(?<jwt>.*)$/u` on `token`, or `None` when it does not match. */
  function MatchBearerSpaces(token: string): (jwt: Option<string>)
    ensures jwt.Some? ==> SingleLine(jwt.value) && (jwt.value == [] || jwt.value[0] != ' ')
    ensures jwt.Some? ==> |jwt.value| <= |token| - 7 && token[|token| - |jwt.value|..] == jwt.value
  {
    if |token| >= 7 && token[..7] == "Bearer " then
      var jwt := DropSpaces(token[7..]);
      if SingleLine(jwt) then Some(jwt) else None
    else None
  }

  /** The capture of `/^Bearer (.*)$/` on `token`, or `None` when it does not match. */
  function MatchBearerSpace(token: string): (jwt: Option<string>)
    ensures jwt.Some? ==> token == "Bearer " + jwt.value && SingleLine(jwt.value)
  {
    if |token| >= 7 && token[..7] == "Bearer " && SingleLine(token[7..]) then Some(token[7..])
    else None
  }

  lemma SpacesSplit(n: nat)
    requires n >= 1
    ensures Spaces(n) == " " + Spaces(n - 1)
  {
  }

  /**
   * Soundness of the greedy pattern: a capture is single-line text without leading spaces,
   * and the token is `Bearer`, at least one space, and the capture.
   */
  lemma MatchBearerSpacesSound(token: string, jwt: string)
    requires MatchBearerSpaces(token) == Some(jwt)
    ensures SingleLine(jwt)
    ensures jwt == [] || jwt[0] != ' '
    ensures |token| >= 7 + |jwt|
    ensures token == "Bearer" + Spaces(|token| - 6 - |jwt|) + jwt
  {
    var rest := token[7..];
    assert rest == Spaces(|rest| - |jwt|) + jwt;
    SpacesSplit(|token| - 6 - |jwt|);
    assert token == token[..7] + rest;
  }

  /**
   * Completeness of the greedy pattern: every token of the form `Bearer`, one or more
   * spaces, text, is matched exactly when the text is single-line, and the capture is
   * that text without its leading spaces.
   */
  lemma MatchBearerSpacesOn(n: nat, text: string)
    requires n >= 1
    ensures MatchBearerSpaces("Bearer" + Spaces(n) + text)
         == if SingleLine(text) then Some(DropSpaces(text)) else None
  {
    var token := "Bearer" + Spaces(n) + text;
    SpacesSplit(n);
    assert token[..7] == "Bearer ";
    assert token[7..] == Spaces(n - 1) + text;
    DropSpacesPastSpaces(n - 1, text);
    var jwt := DropSpaces(text);
    SingleLinePastSpaces(|text| - |jwt|, jwt);
  }

  /** Spaces are not line terminators: they never decide whether `.*` matches. */
  lemma SingleLinePastSpaces(n: nat, s: string)
    ensures SingleLine(Spaces(n) + s) <==> SingleLine(s)
  {
    var t := Spaces(n) + s;
    if SingleLine(s) {
      forall i | 0 <= i < |t| ensures !IsLineTerminator(t[i]) {
        if i >= n { assert t[i] == s[i - n]; }
      }
    }
    if SingleLine(t) {
      forall i | 0 <= i < |s| ensures !IsLineTerminator(s[i]) {
        assert s[i] == t[i + n];
      }
    }
  }

  /** Leading spaces before text are dropped together with the text's own. */
  lemma {:induction false} DropSpacesPastSpaces(n: nat, text: string)
    ensures DropSpaces(Spaces(n) + text) == DropSpaces(text)
  {
    if n > 0 {
      var s := Spaces(n) + text;
      assert s[0] == ' ';
      assert s[1..] == Spaces(n - 1) + text;
      DropSpacesPastSpaces(n - 1, text);
    } else {
      assert Spaces(n) + text == text;
    }
  }

  /** The single-space pattern matches exactly `Bearer `, then single-line text, which it captures. */
  lemma MatchBearerSpaceExactly(token: string, jwt: string)
    ensures MatchBearerSpace(token) == Some(jwt) <==> token == "Bearer " + jwt && SingleLine(jwt)
  {
    if token == "Bearer " + jwt {
      assert token[..7] == "Bearer " && token[7..] == jwt;
    }
    if MatchBearerSpace(token) == Some(jwt) {
      assert token == token[..7] + token[7..];
    }
  }

  /** Every token the single-space pattern accepts, the greedy pattern accepts too. */
  lemma MatchBearerSpaceThenSpaces(token: string, jwt: string)
    requires MatchBearerSpace(token) == Some(jwt)
    ensures MatchBearerSpaces(token) == Some(DropSpaces(jwt))
  {
    MatchBearerSpaceExactly(token, jwt);
    assert token == "Bearer" + Spaces(1) + jwt;
    MatchBearerSpacesOn(1, jwt);
  }
}
