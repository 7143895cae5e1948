/**
 * The few PCRE patterns the IndieWeb validators use, given their PCRE
 * meaning. Without the `D` modifier, `$` matches at the very end of the
 * subject and also just before a final "\n", so `/^X$/` accepts a string
 * that X matches and also that string followed by one newline.
 */
module Pcre {
  import opened Common

  predicate IsAsciiAlnum(c: char)
  {
    'A' <= c <= 'Z' || 'a' <= c <= 'z' || '0' <= c <= '9'
  }

  /** `[A-Za-z0-9._-]`: authorization codes and state values. */
  predicate CodeChar(c: char)
  {
    IsAsciiAlnum(c) || c == '.' || c == '_' || c == '-'
  }

  /** `[A-Za-z0-9_-]`: the base64url alphabet without padding. */
  predicate Base64UrlChar(c: char)
  {
    IsAsciiAlnum(c) || c == '_' || c == '-'
  }

  /** `[A-Za-z0-9._~-]`: the unreserved characters of a PKCE code verifier. */
  predicate VerifierChar(c: char)
  {
    IsAsciiAlnum(c) || c == '.' || c == '_' || c == '~' || c == '-'
  }

  /** `[a-z_]`: one character of a scope name. */
  predicate ScopeChar(c: char)
  {
    'a' <= c <= 'z' || c == '_'
  }

  /** Every character of `s` is in the class. */
  predicate AllIn(s: string, cls: char -> bool)
  {
    forall i :: 0 <= i < |s| ==> cls(s[i])
  }

  /** `[C]+` matches the whole of `s`. */
  predicate Plus(s: string, cls: char -> bool)
  {
    |s| >= 1 && AllIn(s, cls)
  }

  /** `s` is some `t` with an optional single "\n" appended: what PCRE's `$` tolerates. */
  predicate WithFinalNewline(s: string, t: string)
  {
    s == t || s == t + "\n"
  }

  /** `preg_match('/^[C]+$/', s) === 1`. */
  predicate AnchoredPlus(s: string, cls: char -> bool)
  {
    Plus(s, cls) || (|s| >= 2 && s[|s| - 1] == '\n' && Plus(s[..|s| - 1], cls))
  }

  /** `preg_match('/\s/', s) === 1`. */
  predicate HasSpace(s: string)
  {
    exists i :: 0 <= i < |s| && IsPcreSpace(s[i])
  }

  /**
   * For a class without "\n", `/^[C]+$/` accepts exactly the non-empty
   * strings over C, each optionally followed by one newline.
   */
  lemma AnchoredPlusMeaning(s: string, cls: char -> bool)
    requires !cls('\n')
    ensures AnchoredPlus(s, cls) <==> exists t :: Plus(t, cls) && WithFinalNewline(s, t)
  {
    if AnchoredPlus(s, cls) {
      if Plus(s, cls) {
        assert WithFinalNewline(s, s);
      } else {
        assert s == s[..|s| - 1] + "\n";
        assert WithFinalNewline(s, s[..|s| - 1]);
      }
    }
    if t :| Plus(t, cls) && WithFinalNewline(s, t) {
      if s != t {
        assert s[..|s| - 1] == t;
      }
    }
  }

  /** A string with "\n" anywhere but at the end is never accepted. */
  lemma AnchoredPlusInnerNewline(s: string, cls: char -> bool, i: int)
    requires !cls('\n')
    requires 0 <= i < |s| - 1 && s[i] == '\n'
    ensures !AnchoredPlus(s, cls)
  {
    assert s[..|s| - 1][i] == '\n';
  }

  /** Appending one newline to an accepted string keeps it accepted. */
  lemma AnchoredPlusTrailingNewline(t: string, cls: char -> bool)
    requires Plus(t, cls)
    ensures AnchoredPlus(t + "\n", cls)
  {
    assert (t + "\n")[..|t|] == t;
  }

  /** The states of a left-to-right scan of `[a-z_]+(\s+[a-z_]+)*`. */
  datatype ScopeScan = Start | InWord | InSpace | Reject

  function ScopeStep(q: ScopeScan, c: char): ScopeScan
  {
    match q
    case Start => if ScopeChar(c) then InWord else Reject
    case InWord => if ScopeChar(c) then InWord else if IsPcreSpace(c) then InSpace else Reject
    case InSpace => if ScopeChar(c) then InWord else if IsPcreSpace(c) then InSpace else Reject
    case Reject => Reject
  }

  function ScopeRun(s: string): ScopeScan
  {
    if s == [] then Start else ScopeStep(ScopeRun(s[..|s| - 1]), s[|s| - 1])
  }

  /** `[a-z_]+(\s+[a-z_]+)*` matches the whole of `s`: the scan ends inside a word. */
  predicate ScopeList(s: string)
  {
    ScopeRun(s) == InWord
  }

  /** `preg_match('/^[a-z_]+(\s+[a-z_]+)*$/', s) === 1`. */
  predicate AnchoredScopeList(s: string)
  {
    ScopeList(s) || (|s| >= 1 && s[|s| - 1] == '\n' && ScopeList(s[..|s| - 1]))
  }

  /** Words separated by whitespace: first and last are word characters, the rest words or spaces. */
  predicate WordsAndSpaces(s: string)
  {
    && |s| >= 1
    && ScopeChar(s[0])
    && ScopeChar(s[|s| - 1])
    && forall i :: 0 <= i < |s| ==> ScopeChar(s[i]) || IsPcreSpace(s[i])
  }

  /** Where the scan is after reading `s`, in terms of the characters of `s`. */
  lemma {:induction false} ScopeRunState(s: string)
    ensures ScopeRun(s) == Start <==> s == []
    ensures ScopeRun(s) == InWord <==> WordsAndSpaces(s)
    ensures ScopeRun(s) == InSpace <==>
      (&& |s| >= 2 && ScopeChar(s[0]) && IsPcreSpace(s[|s| - 1])
       && forall i :: 0 <= i < |s| ==> ScopeChar(s[i]) || IsPcreSpace(s[i]))
  {
    if s != [] {
      var p := s[..|s| - 1];
      ScopeRunState(p);
      assert forall i :: 0 <= i < |p| ==> p[i] == s[i];
      if |p| > 0 {
        assert p[0] == s[0];
      }
    }
  }

  /** The scope list pattern, without anchors' newline allowance, means `WordsAndSpaces`. */
  lemma ScopeListMeaning(s: string)
    ensures ScopeList(s) <==> WordsAndSpaces(s)
  {
    ScopeRunState(s);
  }
}
