/**
 * Functions the IndieWeb validators call but whose source is not part of
 * this model: php-aegis `Validator::*` and `Sanitizer::*`, PHP's
 * `parse_url` and `filter_var` with the no-private/no-reserved flags. They
 * are passed in as function values, so every property proved holds for any
 * implementation of them, unless a lemma names an extra assumption.
 */
module Foreign {
  import opened Common

  /** The components of `parse_url($url)` the validators read; `None` is an unset key. */
  datatype UrlParts = UrlParts(host: Option<string>, user: Option<string>, pass: Option<string>, fragment: Option<string>)

  datatype Validator = Validator(
    httpsUrl: string -> bool,         // Validator::httpsUrl
    url: string -> bool,              // Validator::url
    printable: string -> bool,        // Validator::printable
    noNullBytes: string -> bool,      // Validator::noNullBytes
    domain: string -> bool,           // Validator::domain
    ip: string -> bool,               // Validator::ip
    ipv4: string -> bool,             // Validator::ipv4
    ipv6: string -> bool,             // Validator::ipv6
    publicIp: string -> bool,         // filter_var($ip, FILTER_VALIDATE_IP, NO_PRIV | NO_RES) !== false
    parseUrl: string -> Option<UrlParts>  // parse_url, with `None` for false
  )

  /** `Validator::noNullBytes` does what its name says. */
  ghost predicate HonestNoNullBytes(v: Validator)
  {
    forall s :: v.noNullBytes(s) <==> '\0' !in s
  }

  datatype Sanitizer = Sanitizer(
    html: string -> string,           // Sanitizer::html
    stripTags: string -> string       // Sanitizer::stripTags
  )

  /** The part of `Sanitizer::html`'s contract the properties need: no `<` survives. */
  ghost predicate EscapesAngles(san: Sanitizer)
  {
    forall s :: '<' !in san.html(s)
  }

  /** One character under `htmlspecialchars($s, ENT_QUOTES)`. */
  function EscapeChar(c: char): (r: string)
    ensures '<' !in r && '>' !in r
    ensures c != '<' && c != '>' && c != '&' && c != '"' && c != '\'' ==> r == [c]
  {
    if c == '<' then "&lt;"
    else if c == '>' then "&gt;"
    else if c == '&' then "&amp;"
    else if c == '"' then "&quot;"
    else if c == '\'' then "&#039;"
    else [c]
  }

  /**
   * A reference HTML escape with the behaviour SanitizerTest expects of
   * `Sanitizer::html`: `<`, `>`, `&`, `"` and `'` become entities.
   */
  function HtmlSpecialChars(s: string): (r: string)
    ensures '<' !in r && '>' !in r
  {
    if s == [] then [] else EscapeChar(s[0]) + HtmlSpecialChars(s[1..])
  }

  /** The reference escape meets the contract the Micropub properties assume. */
  lemma ReferenceEscapesAngles(stripTags: string -> string)
    ensures EscapesAngles(Sanitizer(HtmlSpecialChars, stripTags))
  {
  }

  /** The escape of a concatenation is the concatenation of the escapes. */
  lemma {:induction false} HtmlConcat(a: string, b: string)
    ensures HtmlSpecialChars(a + b) == HtmlSpecialChars(a) + HtmlSpecialChars(b)
  {
    if a != [] {
      var e := EscapeChar(a[0]);
      assert (a + b)[0] == a[0];
      assert (a + b)[1..] == a[1..] + b;
      HtmlConcat(a[1..], b);
      assert HtmlSpecialChars(a + b) == e + HtmlSpecialChars(a[1..] + b);
      assert HtmlSpecialChars(a) == e + HtmlSpecialChars(a[1..]);
    } else {
      assert a + b == b;
    }
  }

  /** Text with none of the five special characters passes through unchanged. */
  lemma {:induction false} PlainTextUnchanged(s: string)
    requires forall i :: 0 <= i < |s| ==> s[i] !in "<>&\"'"
    ensures HtmlSpecialChars(s) == s
  {
    if s != [] {
      assert s[0] !in "<>&\"'";
      PlainTextUnchanged(s[1..]);
    }
  }
}
