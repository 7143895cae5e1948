/**
 * IndieAuth request checks (`IndieAuth`,
 * secured/php-aegis/src/IndieWeb/IndieAuth.php): profile and redirect URL
 * rules, the formats of codes, state values, PKCE verifiers and
 * challenges (RFC 7636), and scope strings.
 *
 * The format checks use `preg_match('/^[...]+$/')`, whose `$` also accepts
 * one trailing "\n". Each such check appears twice: `...AsWritten` is the
 * PHP as it stands, and the plain name is the check with the newline
 * excluded, which the rest of the model uses.
 */
module IndieAuth {
  import opened Common
  import opened Pcre
  import opened Foreign

  // ---------------------------------------------------------------- URLs

  /** `validateMe`: an HTTPS profile URL on a domain, with no userinfo and no fragment. */
  function ValidateMe(url: string, v: Validator): (ok: bool)
    ensures ok ==> v.httpsUrl(url) && v.parseUrl(url).Some?
  {
    if !v.httpsUrl(url) then false
    else match v.parseUrl(url)
      case None => false
      case Some(p) =>
        if p.host.None? then false
        else if !v.domain(p.host.value) then false
        else if p.user.Some? || p.pass.Some? then false
        else if p.fragment.Some? then false
        else true
  }

  /** A profile URL is rejected when it has no host, carries a user or a password, or has a fragment. */
  lemma ValidateMeRejects(url: string, v: Validator, p: UrlParts)
    requires v.parseUrl(url) == Some(p)
    ensures p.host.None? ==> !ValidateMe(url, v)
    ensures p.user.Some? || p.pass.Some? ==> !ValidateMe(url, v)
    ensures p.fragment.Some? ==> !ValidateMe(url, v)
    ensures p.host.Some? && !v.domain(p.host.value) ==> !ValidateMe(url, v)
  {
  }

  /** And every other HTTPS URL whose host is a domain is accepted. */
  lemma ValidateMeAccepts(url: string, v: Validator, p: UrlParts)
    requires v.httpsUrl(url) && v.parseUrl(url) == Some(p)
    requires p.host.Some? && v.domain(p.host.value)
    requires p.user.None? && p.pass.None? && p.fragment.None?
    ensures ValidateMe(url, v)
  {
  }

  /** `validateRedirectUri`: both HTTPS, both parse, and the hosts are present and equal. */
  function ValidateRedirectUri(redirectUri: string, clientId: string, v: Validator): (ok: bool)
    ensures ok ==> v.httpsUrl(redirectUri) && v.httpsUrl(clientId)
  {
    if !v.httpsUrl(redirectUri) || !v.httpsUrl(clientId) then false
    else
      var r := v.parseUrl(redirectUri);
      var c := v.parseUrl(clientId);
      if r.None? || c.None? then false
      else if r.value.host.None? || c.value.host.None? then false
      else r.value.host.value == c.value.host.value
  }

  /** Given the parsed parts, the redirect check is host equality, both hosts present. */
  lemma RedirectUriMeaning(redirectUri: string, clientId: string, v: Validator, r: UrlParts, c: UrlParts)
    requires v.httpsUrl(redirectUri) && v.httpsUrl(clientId)
    requires v.parseUrl(redirectUri) == Some(r) && v.parseUrl(clientId) == Some(c)
    ensures ValidateRedirectUri(redirectUri, clientId, v) <==> r.host.Some? && c.host.Some? && r.host.value == c.host.value
  {
  }

  /** Being on the same origin is a symmetric relation. */
  lemma RedirectUriSymmetric(a: string, b: string, v: Validator)
    ensures ValidateRedirectUri(a, b, v) == ValidateRedirectUri(b, a, v)
  {
  }

  /** A client may always redirect to its own id, when that is an HTTPS URL with a host. */
  lemma RedirectUriReflexive(a: string, v: Validator)
    requires v.httpsUrl(a) && v.parseUrl(a).Some? && v.parseUrl(a).value.host.Some?
    ensures ValidateRedirectUri(a, a, v)
  {
  }

  // ------------------------------------------------------- codes and state

  /** `validateCodeFormat` as written: the length counts a trailing "\n" that `$` lets through. */
  function ValidateCodeFormatAsWritten(code: string, v: Validator): (ok: bool)
    ensures ok ==> |code| >= 32
  {
    if |code| < 32 then false
    else if !AnchoredPlus(code, CodeChar) then false
    else v.noNullBytes(code)
  }

  /** `validateCodeFormat` as its comment describes it: at least 32 characters, all from `[A-Za-z0-9._-]`. */
  function ValidateCodeFormat(code: string, v: Validator): (ok: bool)
    ensures ok ==> |code| >= 32 && AllIn(code, CodeChar)
  {
    if |code| < 32 then false
    else if !Plus(code, CodeChar) then false
    else v.noNullBytes(code)
  }

  /** `validateStateFormat` as written. */
  function ValidateStateFormatAsWritten(state: string, v: Validator): (ok: bool)
    ensures ok ==> |state| >= 16
  {
    if |state| < 16 then false
    else if !AnchoredPlus(state, CodeChar) then false
    else v.noNullBytes(state)
  }

  /** `validateStateFormat` with the newline excluded: at least 16 characters from `[A-Za-z0-9._-]`. */
  function ValidateStateFormat(state: string, v: Validator): (ok: bool)
    ensures ok ==> |state| >= 16 && AllIn(state, CodeChar)
  {
    if |state| < 16 then false
    else if !Plus(state, CodeChar) then false
    else v.noNullBytes(state)
  }

  /**
   * The null-byte check after the character class is redundant: "\0" is
   * not in the class. So, for an honest `noNullBytes`, codes and states are
   * exactly the long-enough strings over the class.
   */
  lemma CodeAndStateMeaning(s: string, v: Validator)
    requires HonestNoNullBytes(v)
    ensures ValidateCodeFormat(s, v) <==> |s| >= 32 && AllIn(s, CodeChar)
    ensures ValidateStateFormat(s, v) <==> |s| >= 16 && AllIn(s, CodeChar)
  {
    if AllIn(s, CodeChar) {
      forall i | 0 <= i < |s|
        ensures s[i] != '\0'
      {
        assert CodeChar(s[i]);
      }
    }
  }

  /** Every authorization code is also a well-formed state value. */
  lemma CodeIsState(s: string, v: Validator)
    requires ValidateCodeFormat(s, v)
    ensures ValidateStateFormat(s, v)
  {
  }

  /** 31 letters and a newline pass the code check as written: too short, and "\n" is outside the class. */
  lemma CodeFormatAcceptsNewline(v: Validator)
    requires HonestNoNullBytes(v)
    ensures var s := seq(31, _ => 'a') + "\n";
      ValidateCodeFormatAsWritten(s, v) && !ValidateCodeFormat(s, v)
  {
    var t := seq(31, _ => 'a');
    var s := t + "\n";
    AnchoredPlusTrailingNewline(t, CodeChar);
    assert s[31] == '\n';
    assert '\0' !in s by {
      assert forall i :: 0 <= i < |s| ==> s[i] != '\0';
    }
  }

  /** 15 letters and a newline pass the state check as written. */
  lemma StateFormatAcceptsNewline(v: Validator)
    requires HonestNoNullBytes(v)
    ensures var s := seq(15, _ => 'a') + "\n";
      ValidateStateFormatAsWritten(s, v) && !ValidateStateFormat(s, v)
  {
    var t := seq(15, _ => 'a');
    var s := t + "\n";
    AnchoredPlusTrailingNewline(t, CodeChar);
    assert s[15] == '\n';
    assert '\0' !in s by {
      assert forall i :: 0 <= i < |s| ==> s[i] != '\0';
    }
  }

  // ----------------------------------------------------------------- PKCE

  /** `validateCodeVerifierFormat` as written. */
  function ValidateCodeVerifierFormatAsWritten(verifier: string): (ok: bool)
    ensures ok ==> 43 <= |verifier| <= 128
  {
    var length := |verifier|;
    if length < 43 || length > 128 then false
    else AnchoredPlus(verifier, VerifierChar)
  }

  /** A PKCE code verifier per section 4.1 of RFC 7636: 43 to 128 unreserved characters. */
  function ValidateCodeVerifierFormat(verifier: string): (ok: bool)
  {
    var length := |verifier|;
    if length < 43 || length > 128 then false
    else Plus(verifier, VerifierChar)
  }

  /** The corrected verifier check is exactly the RFC 7636 grammar. */
  lemma VerifierMeaning(verifier: string)
    ensures ValidateCodeVerifierFormat(verifier) <==> 43 <= |verifier| <= 128 && AllIn(verifier, VerifierChar)
  {
  }

  /** As written, the check accepts a verifier and also that verifier less its last character plus "\n". */
  lemma VerifierAsWrittenMeaning(verifier: string)
    ensures ValidateCodeVerifierFormatAsWritten(verifier) <==>
      ValidateCodeVerifierFormat(verifier) ||
      (43 <= |verifier| <= 128 && verifier[|verifier| - 1] == '\n' && AllIn(verifier[..|verifier| - 1], VerifierChar))
  {
  }

  /** 42 unreserved characters and a newline: rejected by RFC 7636, accepted as written. */
  lemma VerifierAcceptsNewline()
    ensures var s := seq(42, _ => 'a') + "\n";
      ValidateCodeVerifierFormatAsWritten(s) && !ValidateCodeVerifierFormat(s)
  {
    var t := seq(42, _ => 'a');
    var s := t + "\n";
    AnchoredPlusTrailingNewline(t, VerifierChar);
    assert s[42] == '\n';
  }

  /** `validateCodeChallenge` as written. */
  function ValidateCodeChallengeAsWritten(challenge: string, challengeMethod: string): (ok: bool)
    ensures ok ==> challengeMethod == "S256" || challengeMethod == "plain"
  {
    if challengeMethod != "S256" && challengeMethod != "plain" then false
    else if challengeMethod == "S256" then
      if |challenge| != 43 then false
      else AnchoredPlus(challenge, Base64UrlChar)
    else ValidateCodeVerifierFormatAsWritten(challenge)
  }

  /**
   * A PKCE code challenge per section 4.2 of RFC 7636: for S256 the
   * unpadded base64url encoding of a SHA-256 digest (43 characters), for
   * plain the verifier itself.
   */
  function ValidateCodeChallenge(challenge: string, challengeMethod: string): (ok: bool)
    ensures ok ==> challengeMethod == "S256" || challengeMethod == "plain"
  {
    if challengeMethod != "S256" && challengeMethod != "plain" then false
    else if challengeMethod == "S256" then
      if |challenge| != 43 then false
      else Plus(challenge, Base64UrlChar)
    else ValidateCodeVerifierFormat(challenge)
  }

  /** What each challengeMethod accepts. */
  lemma ChallengeMeaning(challenge: string, challengeMethod: string)
    ensures challengeMethod == "S256" ==>
      (ValidateCodeChallenge(challenge, challengeMethod) <==> |challenge| == 43 && AllIn(challenge, Base64UrlChar))
    ensures challengeMethod == "plain" ==>
      (ValidateCodeChallenge(challenge, challengeMethod) <==> ValidateCodeVerifierFormat(challenge))
    ensures challengeMethod != "S256" && challengeMethod != "plain" ==> !ValidateCodeChallenge(challenge, challengeMethod)
  {
  }

  /** 42 base64url characters and a newline pass the S256 check as written. */
  lemma ChallengeAcceptsNewline()
    ensures var s := seq(42, _ => 'A') + "\n";
      ValidateCodeChallengeAsWritten(s, "S256") && !ValidateCodeChallenge(s, "S256")
  {
    var t := seq(42, _ => 'A');
    var s := t + "\n";
    AnchoredPlusTrailingNewline(t, Base64UrlChar);
    assert s[42] == '\n';
  }

  /** Every S256 challenge is also a valid plain challenge (base64url is a subset of the unreserved set). */
  lemma S256ChallengeIsPlain(challenge: string)
    requires ValidateCodeChallenge(challenge, "S256")
    ensures ValidateCodeChallenge(challenge, "plain")
  {
  }

  /**
   * `generateCodeVerifier`: the length check, then the encoding of that
   * many random bytes, which is the given `encodeRandom`.
   */
  function GenerateCodeVerifier(length: int, encodeRandom: int -> string): (r: Result<string, string>)
    ensures r.Failure? <==> length < 43 || length > 128
    ensures r.Failure? ==> r.error == "Code verifier length must be 43-128 bytes"
    ensures r.Success? ==> r.value == encodeRandom(length)
  {
    if length < 43 || length > 128 then Failure("Code verifier length must be 43-128 bytes")
    else Success(encodeRandom(length))
  }

  /**
   * `verifyCodeChallenge`; `s256` stands for
   * `rtrim(strtr(base64_encode(hash('sha256', $v, true)), '+/', '-_'), '=')`,
   * and `hash_equals` for string equality.
   */
  function VerifyCodeChallenge(challenge: string, verifier: string, challengeMethod: string, s256: string -> string): (ok: bool)
    ensures ok ==> challengeMethod == "S256" || challengeMethod == "plain"
    ensures challengeMethod == "plain" ==> (ok <==> challenge == verifier)
    ensures challengeMethod == "S256" ==> (ok <==> challenge == s256(verifier))
  {
    if challengeMethod == "S256" then challenge == s256(verifier)
    else if challengeMethod == "plain" then challenge == verifier
    else false
  }

  /** A plain challenge that verifies against a well-formed verifier is itself well-formed. */
  lemma PlainVerifiedIsWellFormed(challenge: string, verifier: string, s256: string -> string)
    requires ValidateCodeVerifierFormat(verifier)
    requires VerifyCodeChallenge(challenge, verifier, "plain", s256)
    ensures ValidateCodeChallenge(challenge, "plain")
  {
  }

  /**
   * If the S256 transform always yields 43 base64url characters (the
   * unpadded encoding of a 32-byte digest), a challenge that verifies under
   * S256 is well-formed.
   */
  lemma S256VerifiedIsWellFormed(challenge: string, verifier: string, s256: string -> string)
    requires forall x :: |s256(x)| == 43 && AllIn(s256(x), Base64UrlChar)
    requires VerifyCodeChallenge(challenge, verifier, "S256", s256)
    ensures ValidateCodeChallenge(challenge, "S256")
  {
    assert |s256(verifier)| == 43 && AllIn(s256(verifier), Base64UrlChar);
  }

  // --------------------------------------------------------------- scopes

  /** `validateScopeFormat` as written. */
  function ValidateScopeFormatAsWritten(scopeString: string): (ok: bool)
    ensures Trim(scopeString) == [] ==> ok
  {
    if Trim(scopeString) == [] then true
    else AnchoredScopeList(scopeString)
  }

  /** `validateScopeFormat` with the newline excluded: blank, or words of `[a-z_]` separated by whitespace. */
  function ValidateScopeFormat(scopeString: string): (ok: bool)
    ensures Trim(scopeString) == [] ==> ok
  {
    if Trim(scopeString) == [] then true
    else ScopeList(scopeString)
  }

  /**
   * A scope string is valid iff it consists only of characters `trim`
   * strips, or it starts and ends with a scope character and holds only
   * scope characters and whitespace.
   */
  lemma ScopeFormatMeaning(s: string)
    ensures ValidateScopeFormat(s) <==>
      (forall i :: 0 <= i < |s| ==> IsTrimChar(s[i])) || WordsAndSpaces(s)
  {
    TrimBlank(s);
    ScopeListMeaning(s);
    if WordsAndSpaces(s) {
      assert !IsTrimChar(s[0]);
    }
  }

  /** A non-blank scope string with leading or trailing whitespace is rejected. */
  lemma ScopeFormatNoOuterSpace(s: string)
    requires Trim(s) != []
    requires IsPcreSpace(s[0]) || IsPcreSpace(s[|s| - 1])
    ensures !ValidateScopeFormat(s)
  {
    ScopeListMeaning(s);
  }

  /** "read\n" passes the scope check as written although it ends in whitespace. */
  lemma ScopeFormatAcceptsNewline()
    ensures ValidateScopeFormatAsWritten("read\n") && !ValidateScopeFormat("read\n")
  {
    var s := "read\n";
    assert s[..4] == "read";
    ScopeListMeaning("read");
    ScopeListMeaning(s);
    assert !IsTrimChar(s[0]);
    TrimBlank(s);
  }
}
