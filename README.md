# Verified model of php-aegis rate limiting and IndieWeb checks, and of the Plugin Conflict Mapper analysis engine

This project is a Dafny model of three self-contained parts of the repository, with proofs of what each one promises.

- **php-aegis rate limiting** (`secured/php-aegis/src/RateLimit`).
  - `MemoryStore` is a key → bucket store whose entries expire strictly after their TTL.
  - `TokenBucket` holds up to `capacity` tokens and adds `refillRate` tokens per whole `refillPeriod` seconds.
  - `RateLimiter` provides the per-second, per-minute, per-hour and per-day presets over a bucket.
  - Both stores and buckets are classes whose methods update the store's `storage` map in place. Each method is proved equal to a function of the old storage, and the invariants are lemmas about those functions: tokens stay in `[0, capacity]`, keys are independent, and expiry is strict.
- **php-aegis IndieWeb checks** (`secured/php-aegis/src/IndieWeb`).
  - Micropub: entry validation, sanitisation, access-token format, scope parsing.
  - IndieAuth: profile URL, redirect URL, code, state, PKCE verifier and challenge (RFC 7636), scope format.
  - Webmention: SSRF address classification over the private IPv4 ranges, host resolution, source and target checks, DNS-rebinding detection.
- **Plugin Conflict Mapper analysis engine** (`plugin-conflict-mapper`).
  - The known-conflicts table and the minimal scanner that matches installed plugins against it.
  - The conflict detector for shared hooks, functions, globals and tables.
  - The overlap analyzer, with keyword categories and hook-pattern similarity.
  - The ranking engine, with penalties, scores, ranks and priority actions.
  - The security scanner (issues and risk level) and the performance analyzer (threshold ladders and report).

## How the system's inputs are modelled

- PHP strings are `string`, one character per byte.
- PHP's ordered arrays are sequences of key/value pairs (`PhpValues.PhpArray`), so key order and `array_filter`'s kept keys are visible.
- PHP's integer `%` and `(int)` casts truncate toward zero. The model writes them out as `RateLimitTokenBucket.PhpRem` and `RateLimitLimiter.TruncDiv`.
- PHP floats (`tokens`, `refillRate`, scores, percentages) are exact `real`s. `round()` is the exact half-up rounding of a non-negative real (`WpcmCommon.Round`).
- The anchored character-class patterns `/^[...]+$/` are modelled with PCRE's meaning of `$`, which also matches before one final "\n" (`Pcre.AnchoredPlus`).
- `ip2long` is modelled exactly for dotted quads (`PhpIp.Ip2Long`): four decimal parts, each at most 255, with no leading zeros.
- Code that the core calls but does not contain becomes a parameter:
  - `Validator::*`, `parse_url` and the `filter_var` flags are uninterpreted function fields of `Foreign.Validator`.
  - `Sanitizer::html` is `Foreign.Sanitizer`. Where a property needs it to escape `<`, the predicate `EscapesAngles` says so, and `Foreign.HtmlSpecialChars` is a reference escape that satisfies it.
  - DNS lookups are `Webmention.Resolver`.
  - `time()` is a `now: int` argument and `current_time('mysql')` a string argument.
  - `hash('sha256')` with its base64url encoding is a function argument `s256`, and `random_bytes` with its encoding is `encodeRandom`.
- WordPress and the filesystem become inputs:
  - `get_plugins()` and the `active_plugins` option are inputs.
  - `function_exists` is a predicate argument.
  - The plugin scanner's per-plugin findings (hooks, functions, globals, tables, size, complexity) are inputs.
  - A recursive directory walk is a sequence of `DirEntry` values.
  - `file_get_contents` is `read`.
  - A regular-expression search is `offsets(finding, content)`, the byte offsets at which that finding's pattern matches.

- `usort` and `uasort` are stable, as they are from PHP 8.0 on (the plugin requires PHP 8.2), so equal keys keep their input order.
## Model

| member | source | states |
|---|---|---|
| RateLimitStore.GetAbsent | secured/php-aegis/src/RateLimit/MemoryStore.php:36-40 | `get` of a key that was never stored returns null and changes nothing |
| RateLimitStore.ExpiryIsStrict | secured/php-aegis/src/RateLimit/MemoryStore.php:43-53 | an entry is returned iff `now <= expiresAt`, so one that expires exactly now is still returned; an expired entry is removed and no other key is touched |
| RateLimitStore.SetThenGet | secured/php-aegis/src/RateLimit/MemoryStore.php:50-71 | a `get` up to `ttl` seconds after `set` returns exactly the stored tokens and lastRefill, and removes nothing |
| RateLimitStore.SetOverwrites | secured/php-aegis/src/RateLimit/MemoryStore.php:64-71 | `set` replaces any earlier entry, with `expiresAt = now + ttl`; the other keys keep their entries |
| RateLimitStore.GcPartition | secured/php-aegis/src/RateLimit/MemoryStore.php:101-114 | the entries `gc` removes and the entries it keeps are disjoint and together make up the old store; the counts add up; every kept entry is unchanged and unexpired |
| RateLimitStore.MemoryStore.constructor | secured/php-aegis/src/RateLimit/MemoryStore.php:28 | a new store is empty |
| RateLimitStore.MemoryStore.Get | secured/php-aegis/src/RateLimit/MemoryStore.php:36-54 | returns the live entry's bucket or null, and unsets the entry when it has expired |
| RateLimitStore.MemoryStore.Set | secured/php-aegis/src/RateLimit/MemoryStore.php:64-71 | the new storage is the old one with `key` bound to the bucket and `now + ttl` |
| RateLimitStore.MemoryStore.Delete | secured/php-aegis/src/RateLimit/MemoryStore.php:79-82 | removes exactly `key` |
| RateLimitStore.MemoryStore.Clear | secured/php-aegis/src/RateLimit/MemoryStore.php:89-92 | the store is empty afterwards |
| RateLimitStore.MemoryStore.Gc | secured/php-aegis/src/RateLimit/MemoryStore.php:101-114 | keeps exactly the unexpired entries and returns the number of expired ones, proved through the loop's invariant |
| RateLimitTokenBucket.ConfigError | secured/php-aegis/src/RateLimit/TokenBucket.php:40-62 | the constructor throws iff one of capacity, refill rate or refill period is not positive, with the first failing check's message |
| RateLimitTokenBucket.Ttl | secured/php-aegis/src/RateLimit/TokenBucket.php:181-188 | the TTL is the truncation of `capacity / refillRate * refillPeriod * 2`, so it is never negative |
| RateLimitTokenBucket.PhpRem | secured/php-aegis/src/RateLimit/TokenBucket.php:122 | PHP's `%`: the remainder keeps the sign of the dividend and is smaller than the divisor in magnitude |
| RateLimitTokenBucket.UnseenKeyIsFull | secured/php-aegis/src/RateLimit/TokenBucket.php:145-156 | a key with no entry reads as a full bucket refilled now, so `remaining` is the capacity |
| RateLimitTokenBucket.ResetRefills | secured/php-aegis/src/RateLimit/TokenBucket.php:134-137 | after `reset` the key reads as a full bucket |
| RateLimitTokenBucket.RefillAmount | secured/php-aegis/src/RateLimit/TokenBucket.php:158-170 | refill adds whole elapsed periods times the rate, capped at the capacity, and moves `lastRefill` to now only when at least one period elapsed |
| RateLimitTokenBucket.PartialPeriodKeepsBucket | secured/php-aegis/src/RateLimit/TokenBucket.php:158-170 | less than one period after the last refill the bucket is unchanged, so partial periods keep accumulating |
| RateLimitTokenBucket.RefillInBounds | secured/php-aegis/src/RateLimit/TokenBucket.php:150-170 | refilling a bucket within `[0, capacity]` keeps it there |
| RateLimitTokenBucket.AttemptRejectsNonPositive | secured/php-aegis/src/RateLimit/TokenBucket.php:71-75 | `attempt` with a non-positive token count throws and leaves the store as it was |
| RateLimitTokenBucket.AttemptSemantics | secured/php-aegis/src/RateLimit/TokenBucket.php:71-90 | `attempt` succeeds iff the refilled bucket holds at least `n` tokens; on success exactly `n` are taken and saved; on failure nothing is written |
| RateLimitTokenBucket.AttemptPreservesBounds | secured/php-aegis/src/RateLimit/TokenBucket.php:77-89 | if every stored bucket holds between 0 and capacity tokens, the same holds after `attempt` |
| RateLimitTokenBucket.RemainingBounds | secured/php-aegis/src/RateLimit/TokenBucket.php:98-102 | `remaining` is never negative, and never above the capacity in a bounded store |
| RateLimitTokenBucket.ResetAtRange | secured/php-aegis/src/RateLimit/TokenBucket.php:110-126 | `resetAt` is 0 when a whole token is available, and otherwise between 1 and `refillPeriod` seconds |
| RateLimitTokenBucket.KeysAreIndependent | secured/php-aegis/src/RateLimit/TokenBucket.php:145-188 | `attempt`, `reset` and reads on one key never change what another key reads |
| RateLimitTokenBucket.BurstAllowance | secured/php-aegis/src/RateLimit/TokenBucket.php:71-90 | a fresh key allows exactly `capacity` single-token attempts at one instant, and the next one is refused |
| RateLimitTokenBucket.TokenBucket.constructor | secured/php-aegis/src/RateLimit/TokenBucket.php:40-62 | keeps the store and the valid configuration |
| RateLimitTokenBucket.TokenBucket.Create | secured/php-aegis/src/RateLimit/TokenBucket.php:40-62 | construction fails iff the configuration is invalid, with the constructor's message; otherwise it yields a valid bucket over the given store |
| RateLimitTokenBucket.TokenBucket.Attempt | secured/php-aegis/src/RateLimit/TokenBucket.php:71-90 | the result and the new store are those of `AttemptResult` and `AttemptStore` on the old store |
| RateLimitTokenBucket.TokenBucket.Remaining | secured/php-aegis/src/RateLimit/TokenBucket.php:98-102 | returns the refilled token count; the only store change is removal of an expired entry |
| RateLimitTokenBucket.TokenBucket.ResetAt | secured/php-aegis/src/RateLimit/TokenBucket.php:110-126 | returns the seconds until the next whole token, computed with PHP's truncating `%` and `(int)` |
| RateLimitTokenBucket.TokenBucket.Reset | secured/php-aegis/src/RateLimit/TokenBucket.php:134-137 | deletes exactly the key's entry |
| RateLimitTokenBucket.TokenBucket.GetBucket | secured/php-aegis/src/RateLimit/TokenBucket.php:145-172 | returns the stored bucket, or a full new one, with the refill applied |
| RateLimitTokenBucket.TokenBucket.SaveBucket | secured/php-aegis/src/RateLimit/TokenBucket.php:181-188 | stores the bucket under the key with the TTL `Ttl` |
| RateLimitLimiter.TruncDiv | secured/php-aegis/src/RateLimit/RateLimiter.php:95-118 | PHP's `(int)` of a quotient truncates toward zero |
| RateLimitLimiter.PerSecondShape | secured/php-aegis/src/RateLimit/RateLimiter.php:49-57 | the per-second preset is a bucket of `n` tokens refilling `n` per second, and valid iff `n > 0` |
| RateLimitLimiter.PerMinuteShape | secured/php-aegis/src/RateLimit/RateLimiter.php:67-80 | rate `n/60` per second; capacity is the burst when positive, else `n` |
| RateLimitLimiter.PerHourShape | secured/php-aegis/src/RateLimit/RateLimiter.php:90-103 | rate `n/3600` per second; capacity is the burst when positive, else `floor(n/10)` |
| RateLimitLimiter.PerDayShape | secured/php-aegis/src/RateLimit/RateLimiter.php:113-126 | rate `n/86400` per second; capacity is the burst when positive, else `floor(n/100)` |
| RateLimitLimiter.SmallBudgetsAreRejected | secured/php-aegis/src/RateLimit/RateLimiter.php:95-118 | without a burst, an hourly budget under 10 or a daily budget under 100 gives capacity 0, which the bucket rejects; larger budgets are accepted |
| RateLimitLimiter.RateLimiter.constructor | secured/php-aegis/src/RateLimit/RateLimiter.php:37-40 | wraps the given bucket |
| RateLimitLimiter.RateLimiter.FromConfig | secured/php-aegis/src/RateLimit/RateLimiter.php:37-40 | fails exactly as the bucket constructor does for that configuration |
| RateLimitLimiter.RateLimiter.PerSecond | secured/php-aegis/src/RateLimit/RateLimiter.php:49-57 | builds the per-second configuration, or fails with the bucket's error |
| RateLimitLimiter.RateLimiter.PerMinute | secured/php-aegis/src/RateLimit/RateLimiter.php:67-80 | builds the per-minute configuration, or fails with the bucket's error |
| RateLimitLimiter.RateLimiter.PerHour | secured/php-aegis/src/RateLimit/RateLimiter.php:90-103 | builds the per-hour configuration, or fails with the bucket's error |
| RateLimitLimiter.RateLimiter.PerDay | secured/php-aegis/src/RateLimit/RateLimiter.php:113-126 | builds the per-day configuration, or fails with the bucket's error |
| RateLimitLimiter.RateLimiter.Attempt | secured/php-aegis/src/RateLimit/RateLimiter.php:135-138 | same result and store change as the bucket's `attempt` |
| RateLimitLimiter.RateLimiter.Remaining | secured/php-aegis/src/RateLimit/RateLimiter.php:146-149 | same as the bucket's `remaining` |
| RateLimitLimiter.RateLimiter.ResetAt | secured/php-aegis/src/RateLimit/RateLimiter.php:157-160 | same as the bucket's `resetAt` |
| RateLimitLimiter.RateLimiter.Reset | secured/php-aegis/src/RateLimit/RateLimiter.php:168-171 | same as the bucket's `reset` |
| Micropub.Messages | secured/php-aegis/src/IndieWeb/Micropub.php:34-60 | one message per problem, in order, with the source's text |
| Micropub.ContentErrors | secured/php-aegis/src/IndieWeb/Micropub.php:141-172 | one content item draws at most two messages |
| Micropub.UrlItemErrors | secured/php-aegis/src/IndieWeb/Micropub.php:89-98 | a `url` item draws one message iff it is not a string or not an HTTPS URL |
| Micropub.MediaItemErrors | secured/php-aegis/src/IndieWeb/Micropub.php:103-115 | a photo, video or audio item draws one message iff it is a string that is not an HTTPS URL |
| Micropub.SyndicationItemErrors | secured/php-aegis/src/IndieWeb/Micropub.php:118-128 | a `syndication` item draws one message iff it is a string that `Validator::url` rejects |
| Micropub.CollectSection | secured/php-aegis/src/IndieWeb/Micropub.php:85-100 | the append loop over a list property yields that property's messages |
| Micropub.CollectMedia | secured/php-aegis/src/IndieWeb/Micropub.php:103-115 | the media loop yields the photo, video and audio messages, in that order |
| Micropub.ValidateProperties | secured/php-aegis/src/IndieWeb/Micropub.php:68-131 | yields the messages of content, url, media and syndication, in that order |
| Micropub.ValidateEntry | secured/php-aegis/src/IndieWeb/Micropub.php:34-60 | the entry is valid iff its error list is empty |
| Micropub.TopLevelMessages | secured/php-aegis/src/IndieWeb/Micropub.php:39-54 | each of the four `type`/`properties` messages is reported iff its condition holds: missing `type`, `type` not a non-empty array, missing `properties`, `properties` not an array |
| Micropub.TopErrorsMeaning | secured/php-aegis/src/IndieWeb/Micropub.php:39-49 | the same four conditions, for the top-level checks alone |
| Micropub.PropertyProblemsNotTopLevel | secured/php-aegis/src/IndieWeb/Micropub.php:68-131 | property validation never produces one of the four top-level messages |
| Micropub.OtherSectionsNoScript | secured/php-aegis/src/IndieWeb/Micropub.php:85-128 | only content items can draw the script-tags message |
| Micropub.PropertiesOnlyWhenArray | secured/php-aegis/src/IndieWeb/Micropub.php:51-54 | when `properties` is not an array, only the top-level messages remain, and there are one or two of them |
| Micropub.ContentMeaning | secured/php-aegis/src/IndieWeb/Micropub.php:141-172 | string content is flagged iff it contains `<script>`; object content whose `html` is a string is flagged iff that string contains `<script>` or `javascript:`; any other kind draws "must be a string or object" |
| Micropub.UrlSectionMeaning | secured/php-aegis/src/IndieWeb/Micropub.php:85-100 | the `url` messages number the items that are not HTTPS-URL strings, and there are none iff every item is one |
| Micropub.MediaSectionMeaning | secured/php-aegis/src/IndieWeb/Micropub.php:103-115 | a media property's messages number its strings that are not HTTPS URLs |
| Micropub.SanitizeEntry | secured/php-aegis/src/IndieWeb/Micropub.php:182-224 | the in-place rewrite of the property array yields the sanitised entry |
| Micropub.SanitizeWithoutProperties | secured/php-aegis/src/IndieWeb/Micropub.php:184-188 | an entry without a property array comes back unchanged |
| Micropub.MapPropertyFrame | secured/php-aegis/src/IndieWeb/Micropub.php:193-221 | mapping one property keeps every key and touches only that property, and only when it is an array |
| Micropub.SanitizeFrame | secured/php-aegis/src/IndieWeb/Micropub.php:182-224 | sanitisation keeps every key and changes no property other than name, summary, content and category |
| Micropub.SanitizeTextLists | secured/php-aegis/src/IndieWeb/Micropub.php:193-221 | in name, summary and category each string is replaced by its HTML escape and every other item is kept, with its key |
| Micropub.SanitizeContentList | secured/php-aegis/src/IndieWeb/Micropub.php:209-213 | every content item goes through `sanitizeContent`, keys kept |
| Micropub.SanitizedContentIsClean | secured/php-aegis/src/IndieWeb/Micropub.php:232-253 | with an escape that removes `<`, sanitised content never draws the script-tags message, and a sanitised string draws none |
| Micropub.SanitizeKeepsSection | secured/php-aegis/src/IndieWeb/Micropub.php:182-224 | a list property that sanitisation does not touch draws the same messages after it |
| Micropub.SanitizeKeepsMedia | secured/php-aegis/src/IndieWeb/Micropub.php:182-224 | the media messages are the same after sanitisation |
| Micropub.SanitizeKeepsOtherSections | secured/php-aegis/src/IndieWeb/Micropub.php:182-224 | the url, media and syndication messages are the same after sanitisation |
| Micropub.SanitizeKeepsTop | secured/php-aegis/src/IndieWeb/Micropub.php:182-224 | sanitisation keeps the top-level messages, and keeps whether `properties` is an array |
| Micropub.SanitizeUntouchedContent | secured/php-aegis/src/IndieWeb/Micropub.php:209-213 | content that is not an array is left as it is |
| Micropub.SanitizedContentSection | secured/php-aegis/src/IndieWeb/Micropub.php:209-253 | after sanitisation no content item draws the script-tags message |
| Micropub.SanitizedPropertiesNoScript | secured/php-aegis/src/IndieWeb/Micropub.php:182-224 | no property of a sanitised entry draws the script-tags message |
| Micropub.NoScriptTagsAfterSanitize | secured/php-aegis/src/IndieWeb/Micropub.php:164-249 | with an escape that removes `<`, a sanitised entry is never reported for script tags |
| Micropub.PlainContentList | secured/php-aegis/src/IndieWeb/Micropub.php:162-166 | a list of plain-text content draws nothing once sanitised, and only script-tag messages before |
| Micropub.PlainContentSection | secured/php-aegis/src/IndieWeb/Micropub.php:209-213 | for plain-text content, sanitising removes exactly the content section's script-tag messages |
| Micropub.PlainPropertiesAfterSanitize | secured/php-aegis/src/IndieWeb/Micropub.php:182-224 | for plain-text content, the sanitised properties draw the old messages minus the script-tag ones |
| Micropub.SanitizeThenValidate | secured/php-aegis/src/IndieWeb/Micropub.php:34-224 | sanitise-then-validate: for plain-text content, sanitising removes exactly the script-tag messages and keeps every other message, in order |
| Micropub.PlainContentErrors | secured/php-aegis/src/IndieWeb/Micropub.php:162-166 | plain-text content draws only script-tag messages |
| Micropub.SanitizedEntryBecomesValid | secured/php-aegis/src/IndieWeb/Micropub.php:34-224 | an entry whose only problem is script tags in plain-text content is valid once sanitised |
| Micropub.ValidateTokenFormat | secured/php-aegis/src/IndieWeb/Micropub.php:264-278 | an accepted token has at least 32 characters, no whitespace, only printable characters and no NUL |
| Micropub.TokenRejects | secured/php-aegis/src/IndieWeb/Micropub.php:264-278 | tokens shorter than 32 characters, tokens with whitespace and tokens with a NUL are rejected |
| Micropub.TokenAccepts | secured/php-aegis/src/IndieWeb/Micropub.php:264-278 | a printable token of at least 32 characters without whitespace or NUL is accepted |
| Micropub.KeepWithKeysMeaning | secured/php-aegis/src/IndieWeb/Micropub.php:291-293 | `array_filter` keeps each accepted piece under its original position, in increasing key order |
| Micropub.ParseScopesMeaning | secured/php-aegis/src/IndieWeb/Micropub.php:286-294 | the parsed scopes are exactly the space-separated pieces of the trimmed string that are scope names; each is non-empty and has no space |
| Micropub.ParseScopesKeysNotReindexed | secured/php-aegis/src/IndieWeb/Micropub.php:291-293 | as written, "A b" parses to `[1 => "b"]` where a list `["b"]` is meant |
| Micropub.ScopeVerdicts | secured/php-aegis/src/IndieWeb/Micropub.php:291-293 | "A" is rejected and "b" accepted, both as written and as corrected |
| Micropub.ParseScopesAcceptsNewline | secured/php-aegis/src/IndieWeb/Micropub.php:292 | as written, the filter accepts the piece "a\n", which is not a scope name |
| Micropub.HasScope | secured/php-aegis/src/IndieWeb/Micropub.php:303-311 | "profile" is always granted; any other scope iff it is in the list, case-sensitively |
| Micropub.HasParsedScope | secured/php-aegis/src/IndieWeb/Micropub.php:286-311 | against a parsed scope string, a scope other than "profile" is granted iff it is a piece of the string and a scope name, so never when it has an upper-case letter |
| IndieAuth.ValidateMe | secured/php-aegis/src/IndieWeb/IndieAuth.php:36-69 | an accepted profile URL is an HTTPS URL that parses |
| IndieAuth.ValidateMeRejects | secured/php-aegis/src/IndieWeb/IndieAuth.php:48-66 | a profile URL is rejected when it has no host, a host that is not a domain, a user or password, or a fragment |
| IndieAuth.ValidateMeAccepts | secured/php-aegis/src/IndieWeb/IndieAuth.php:36-69 | every other HTTPS URL on a domain is accepted |
| IndieAuth.ValidateRedirectUri | secured/php-aegis/src/IndieWeb/IndieAuth.php:81-103 | both URLs of an accepted pair are HTTPS URLs |
| IndieAuth.RedirectUriMeaning | secured/php-aegis/src/IndieWeb/IndieAuth.php:93-102 | given the parsed parts, the redirect URI is accepted iff both hosts are present and equal |
| IndieAuth.RedirectUriSymmetric | secured/php-aegis/src/IndieWeb/IndieAuth.php:81-103 | the same-origin check does not depend on argument order |
| IndieAuth.RedirectUriReflexive | secured/php-aegis/src/IndieWeb/IndieAuth.php:81-103 | a client may always redirect to its own HTTPS id |
| IndieAuth.ValidateCodeFormatAsWritten | secured/php-aegis/src/IndieWeb/IndieAuth.php:114-128 | as written, an accepted code has at least 32 characters, a final "\n" allowed by `$` included |
| IndieAuth.ValidateCodeFormat | secured/php-aegis/src/IndieWeb/IndieAuth.php:114-128 | a code is at least 32 characters, all from `[A-Za-z0-9._-]` |
| IndieAuth.ValidateStateFormatAsWritten | secured/php-aegis/src/IndieWeb/IndieAuth.php:138-152 | as written, an accepted state has at least 16 characters, a final "\n" included |
| IndieAuth.ValidateStateFormat | secured/php-aegis/src/IndieWeb/IndieAuth.php:138-152 | a state is at least 16 characters, all from `[A-Za-z0-9._-]` |
| IndieAuth.CodeAndStateMeaning | secured/php-aegis/src/IndieWeb/IndieAuth.php:114-152 | codes and states are exactly the long-enough strings over the class; the null-byte check after the class check never decides |
| IndieAuth.CodeIsState | secured/php-aegis/src/IndieWeb/IndieAuth.php:114-152 | every well-formed code is also a well-formed state |
| IndieAuth.CodeFormatAcceptsNewline | secured/php-aegis/src/IndieWeb/IndieAuth.php:117-122 | as written, 31 letters and "\n" pass the code check, although they are too short and "\n" is outside the class |
| IndieAuth.StateFormatAcceptsNewline | secured/php-aegis/src/IndieWeb/IndieAuth.php:141-146 | as written, 15 letters and "\n" pass the state check |
| IndieAuth.ValidateCodeVerifierFormatAsWritten | secured/php-aegis/src/IndieWeb/IndieAuth.php:203-213 | as written, an accepted verifier has 43 to 128 characters |
| IndieAuth.VerifierMeaning | secured/php-aegis/src/IndieWeb/IndieAuth.php:203-213 | a verifier is accepted iff it has 43 to 128 characters from `[A-Za-z0-9._~-]` (section 4.1 of RFC 7636) |
| IndieAuth.VerifierAsWrittenMeaning | secured/php-aegis/src/IndieWeb/IndieAuth.php:203-213 | as written, the check accepts the RFC 7636 verifiers and also any of them with its last character replaced by "\n" |
| IndieAuth.VerifierAcceptsNewline | secured/php-aegis/src/IndieWeb/IndieAuth.php:212 | 42 unreserved characters and "\n" are accepted as written and rejected by RFC 7636 |
| IndieAuth.ValidateCodeChallengeAsWritten | secured/php-aegis/src/IndieWeb/IndieAuth.php:175-195 | as written, only the S256 and plain methods can be accepted |
| IndieAuth.ValidateCodeChallenge | secured/php-aegis/src/IndieWeb/IndieAuth.php:175-195 | only the S256 and plain methods can be accepted |
| IndieAuth.ChallengeMeaning | secured/php-aegis/src/IndieWeb/IndieAuth.php:175-195 | an S256 challenge is exactly 43 base64url characters, a plain challenge is a valid verifier, and any other method is rejected |
| IndieAuth.ChallengeAcceptsNewline | secured/php-aegis/src/IndieWeb/IndieAuth.php:185-190 | as written, 42 base64url characters and "\n" pass as an S256 challenge |
| IndieAuth.S256ChallengeIsPlain | secured/php-aegis/src/IndieWeb/IndieAuth.php:175-195 | every S256 challenge would also be a valid plain challenge |
| IndieAuth.GenerateCodeVerifier | secured/php-aegis/src/IndieWeb/IndieAuth.php:221-229 | throws iff the length is outside 43..128, with the source's message, and otherwise encodes that many random bytes |
| IndieAuth.VerifyCodeChallenge | secured/php-aegis/src/IndieWeb/IndieAuth.php:251-266 | plain verifies iff challenge equals verifier, S256 iff challenge equals the S256 transform of the verifier, and any other method never verifies |
| IndieAuth.PlainVerifiedIsWellFormed | secured/php-aegis/src/IndieWeb/IndieAuth.php:251-266 | a plain challenge that verifies against a well-formed verifier is itself a well-formed challenge |
| IndieAuth.S256VerifiedIsWellFormed | secured/php-aegis/src/IndieWeb/IndieAuth.php:251-266 | if the S256 transform always yields 43 base64url characters, a challenge that verifies under S256 is well-formed |
| IndieAuth.ValidateScopeFormatAsWritten | secured/php-aegis/src/IndieWeb/IndieAuth.php:276-284 | as written, a blank scope string is accepted |
| IndieAuth.ValidateScopeFormat | secured/php-aegis/src/IndieWeb/IndieAuth.php:276-284 | a blank scope string is accepted |
| IndieAuth.ScopeFormatMeaning | secured/php-aegis/src/IndieWeb/IndieAuth.php:276-284 | a scope string is valid iff it is blank, or it starts and ends with a scope character and holds only scope characters and whitespace |
| IndieAuth.ScopeFormatNoOuterSpace | secured/php-aegis/src/IndieWeb/IndieAuth.php:283 | a non-blank scope string with leading or trailing whitespace is rejected |
| IndieAuth.ScopeFormatAcceptsNewline | secured/php-aegis/src/IndieWeb/IndieAuth.php:283 | as written, "read\n" is accepted although it ends in whitespace |
| PhpIp.Ip2Long | secured/php-aegis/src/IndieWeb/Webmention.php:67-74 | `ip2long` of a dotted quad with four parts of at most 255 and no leading zeros is its 32-bit value; anything else is false |
| PhpIp.Ip2LongQuad | secured/php-aegis/src/IndieWeb/Webmention.php:67 | the dotted text of four octets converts back to `a·2^24 + b·2^16 + c·2^8 + d` |
| Webmention.RangeStart | secured/php-aegis/src/IndieWeb/Webmention.php:29-36 | the start of each listed range converts to the base of its CIDR block |
| Webmention.RangeEnd | secured/php-aegis/src/IndieWeb/Webmention.php:29-36 | the end of each listed range converts to the last address of its CIDR block |
| Webmention.RangesAreBlocks | secured/php-aegis/src/IndieWeb/Webmention.php:29-81 | an address lies in one of the listed ranges iff it lies in 10/8, 172.16/12, 192.168/16, 127/8, 169.254/16 or 100.64/10 (RFC 1918 section 3, RFC 6598) |
| Webmention.BlocksByOctets | secured/php-aegis/src/IndieWeb/Webmention.php:29-36 | membership in those blocks depends only on the first two octets, as stated per block |
| Webmention.IsInternalIp | secured/php-aegis/src/IndieWeb/Webmention.php:47-103 | a string that is not an IP is never internal; an IP that `filter_var` does not pass as public is always internal |
| Webmention.Ipv4BlocksInternal | secured/php-aegis/src/IndieWeb/Webmention.php:66-82 | every IPv4 address inside one of the private blocks is internal |
| Webmention.PublicIpv4Meaning | secured/php-aegis/src/IndieWeb/Webmention.php:47-103 | an IPv4 address that `filter_var` passes is internal iff its first two octets put it in a private block |
| Webmention.UnparsableIpv4Internal | secured/php-aegis/src/IndieWeb/Webmention.php:67-70 | an IPv4 address that `ip2long` rejects is treated as internal |
| Webmention.Ipv6PrefixesInternal | secured/php-aegis/src/IndieWeb/Webmention.php:85-100 | `::1`, `::`, and IPv6 text beginning with `fe80:`, `fc` or `fd` is internal |
| Webmention.PrivateQuadInternal | secured/php-aegis/src/IndieWeb/Webmention.php:66-82 | every valid dotted quad in a private block is internal |
| Webmention.SampleIpv4Internal | secured/php-aegis/src/IndieWeb/Webmention.php:29-82 | whenever the validators accept 127.0.0.1, 10.0.0.1, 192.168.1.1 and 172.16.0.1 as IPv4 addresses, all four are internal |
| Webmention.Ipv6ChecksAreTextual | secured/php-aegis/src/IndieWeb/Webmention.php:85-100 | the IPv6 prefix checks compare text: "fc::1" (that is, 00fc::1, outside fc00::/7) is flagged as internal even when `filter_var` passes it as public |
| Webmention.CollectAddresses | secured/php-aegis/src/IndieWeb/Webmention.php:204-221 | the record loops append the records' `ip` (or `ipv6`) fields, in order |
| Webmention.ResolveHost | secured/php-aegis/src/IndieWeb/Webmention.php:198-232 | returns the A addresses, then the AAAA addresses, else the `gethostbyname` answer when it differs from the host, else null |
| Webmention.RecordAddressesMember | secured/php-aegis/src/IndieWeb/Webmention.php:204-221 | an address is collected iff some record carries it |
| Webmention.ResolveMeaning | secured/php-aegis/src/IndieWeb/Webmention.php:198-232 | resolution fails iff no record carries an address and `gethostbyname` returns the host; every resolved address comes from a record or from `gethostbyname` |
| Webmention.ValidateSource | secured/php-aegis/src/IndieWeb/Webmention.php:117-156 | a safe source is a URL, HTTPS unless HTTP is allowed, that parses with a host |
| Webmention.SourceMeaning | secured/php-aegis/src/IndieWeb/Webmention.php:129-155 | with an IP host the source is safe iff that IP is not internal; an unresolvable host is rejected; otherwise it is safe iff no resolved address is internal |
| Webmention.SourceResolvingToPrivateRejected | secured/php-aegis/src/IndieWeb/Webmention.php:142-153 | a host that resolves to any private IPv4 address is rejected |
| Webmention.ValidateTarget | secured/php-aegis/src/IndieWeb/Webmention.php:170-190 | an accepted target is a URL with a host that is not an IP literal |
| Webmention.TargetHostMatches | secured/php-aegis/src/IndieWeb/Webmention.php:189 | an accepted target's host is the domain itself or ends in "." followed by the domain |
| Webmention.TargetAcceptsSubdomains | secured/php-aegis/src/IndieWeb/Webmention.php:170-190 | every subdomain of the domain is accepted |
| Webmention.TargetRejectsIp | secured/php-aegis/src/IndieWeb/Webmention.php:183-186 | an IP-literal host is rejected |
| Webmention.TargetRejectsLookalike | secured/php-aegis/src/IndieWeb/Webmention.php:189 | `evilexample.com` is not accepted for `example.com` |
| Webmention.ValidateWebmention | secured/php-aegis/src/IndieWeb/Webmention.php:245-270 | the append loop yields the error list, and the request is valid iff that list is empty |
| Webmention.WebmentionErrorsMeaning | secured/php-aegis/src/IndieWeb/Webmention.php:245-270 | at most three errors, in fixed order; each is present iff its check fails; no errors iff source and target pass and differ |
| Webmention.SameUrlInvalid | secured/php-aegis/src/IndieWeb/Webmention.php:262-265 | a source equal to its target always draws the same-URL error |
| Webmention.RebindingMeaning | secured/php-aegis/src/IndieWeb/Webmention.php:281-300 | rebinding is reported iff the URL has no host, resolution fails, or some current address is not among the original ones |
| Webmention.StableDnsNoRebinding | secured/php-aegis/src/IndieWeb/Webmention.php:281-300 | re-checking against the addresses the same resolution gave reports nothing |
| KnownConflicts.Part0WellFormed | plugin-conflict-mapper/data/known-conflicts.php:37-76 | these four caching entries each have a type among overlap, conflict, incompatible and performance, a severity among critical, high, medium and low, a resolution and a report date, and are marked verified |
| KnownConflicts.Part1WellFormed | plugin-conflict-mapper/data/known-conflicts.php:79-120 | these four SEO and security entries each have a type among overlap, conflict, incompatible and performance, a severity among critical, high, medium and low, a resolution and a report date, and are marked verified |
| KnownConflicts.Part2WellFormed | plugin-conflict-mapper/data/known-conflicts.php:121-163 | these four security and WooCommerce entries each have a type among overlap, conflict, incompatible and performance, a severity among critical, high, medium and low, a resolution and a report date, and are marked verified |
| KnownConflicts.Part3WellFormed | plugin-conflict-mapper/data/known-conflicts.php:164-205 | these four WooCommerce and page-builder entries each have a type among overlap, conflict, incompatible and performance, a severity among critical, high, medium and low, a resolution and a report date, and are marked verified |
| KnownConflicts.Part4WellFormed | plugin-conflict-mapper/data/known-conflicts.php:208-249 | these four backup and form entries each have a type among overlap, conflict, incompatible and performance, a severity among critical, high, medium and low, a resolution and a report date, and are marked verified |
| KnownConflicts.Part5WellFormed | plugin-conflict-mapper/data/known-conflicts.php:252-293 | these four image-optimisation and lazy-load entries each have a type among overlap, conflict, incompatible and performance, a severity among critical, high, medium and low, a resolution and a report date, and are marked verified |
| KnownConflicts.Part6WellFormed | plugin-conflict-mapper/data/known-conflicts.php:294-337 | these four Jetpack, translation and slider entries each have a type among overlap, conflict, incompatible and performance, a severity among critical, high, medium and low, a resolution and a report date, and are marked verified |
| KnownConflicts.Part7WellFormed | plugin-conflict-mapper/data/known-conflicts.php:340-383 | these four analytics, SEO, database and spam entries each have a type among overlap, conflict, incompatible and performance, a severity among critical, high, medium and low, a resolution and a report date, and are marked verified |
| KnownConflicts.Part8WellFormed | plugin-conflict-mapper/data/known-conflicts.php:384-427 | these four comment, redirection and Jetpack entries each have a type among overlap, conflict, incompatible and performance, a severity among critical, high, medium and low, a resolution and a report date, and are marked verified |
| KnownConflicts.Part9WellFormed | plugin-conflict-mapper/data/known-conflicts.php:430-471 | these four cookie-consent and social-sharing entries each have a type among overlap, conflict, incompatible and performance, a severity among critical, high, medium and low, a resolution and a report date, and are marked verified |
| KnownConflicts.Part10WellFormed | plugin-conflict-mapper/data/known-conflicts.php:474-517 | these four login, membership, heartbeat and caching entries each have a type among overlap, conflict, incompatible and performance, a severity among critical, high, medium and low, a resolution and a report date, and are marked verified |
| KnownConflicts.Part11WellFormed | plugin-conflict-mapper/data/known-conflicts.php:520-563 | these four editor, minification, caching and debugging entries each have a type among overlap, conflict, incompatible and performance, a severity among critical, high, medium and low, a resolution and a report date, and are marked verified |
| KnownConflicts.TableWithWellFormed | plugin-conflict-mapper/data/known-conflicts.php:35-564 | the table the data file returns has 48 entries, and every one is well-formed in that sense |
| KnownConflicts.TableHead | plugin-conflict-mapper/data/known-conflicts.php:37-88 | the table opens with the four caching entries, then the first SEO entry |
| KnownConflicts.SeoPluginsOverlap | plugin-conflict-mapper/data/known-conflicts.php:79-88 | the fifth entry pairs wordpress-seo with all-in-one-seo-pack as an overlap of severity critical |
| KnownConflicts.PluginSet | plugin-conflict-mapper/data/known-conflicts.php:35-564 | a slug is in the set iff some entry names it on either side |
| KnownConflicts.MajorPluginsCovered | plugin-conflict-mapper/data/known-conflicts.php:37-239 | wordpress-seo, woocommerce, wordfence, w3-total-cache, elementor, updraftplus and contact-form-7 all appear in the table |
| MinimalScanner.ExtractPluginSlug | plugin-conflict-mapper/includes/class-wpcm-minimal-scanner.php:113-117 | a non-empty text domain is the slug |
| MinimalScanner.SlugOfDirectory | plugin-conflict-mapper/includes/class-wpcm-minimal-scanner.php:119-123 | without a text domain, a plugin file inside a directory is known by the directory name |
| MinimalScanner.SlugOfSingleFile | plugin-conflict-mapper/includes/class-wpcm-minimal-scanner.php:125-126 | without a text domain, a single-file plugin is known by its file name less `.php` |
| MinimalScanner.LastWithSlug | plugin-conflict-mapper/includes/class-wpcm-minimal-scanner.php:93-101 | info is found for a slug iff some installed plugin has that slug |
| MinimalScanner.SlugsOfMeaning | plugin-conflict-mapper/includes/class-wpcm-minimal-scanner.php:93-101 | looking a slug up in the slug table gives the info of the last installed plugin with that slug, so later plugins overwrite earlier ones |
| MinimalScanner.MatchesMeaning | plugin-conflict-mapper/includes/class-wpcm-minimal-scanner.php:176-190 | a searched slug matches iff some installed slug contains it or is contained in it |
| MinimalScanner.PluginMatches | plugin-conflict-mapper/includes/class-wpcm-minimal-scanner.php:176-190 | the early-return loop answers exactly that |
| MinimalScanner.FirstOverlap | plugin-conflict-mapper/includes/class-wpcm-minimal-scanner.php:204-210 | finds info iff some installed slug overlaps the searched one, and the info found belongs to such a slug |
| MinimalScanner.InfoForMatches | plugin-conflict-mapper/includes/class-wpcm-minimal-scanner.php:176-211 | `get_plugin_info` finds info exactly for the slugs `plugin_matches` accepts, so every reported plugin has info |
| MinimalScanner.GetPluginInfo | plugin-conflict-mapper/includes/class-wpcm-minimal-scanner.php:199-211 | the exact entry first, else the first overlapping one, else nothing |
| MinimalScanner.DetectOne | plugin-conflict-mapper/includes/class-wpcm-minimal-scanner.php:148-164 | one round of the `scan` loop extends the report to cover the next table entry |
| MinimalScanner.ConflictsOf | plugin-conflict-mapper/includes/class-wpcm-minimal-scanner.php:157-162 | the reported records carry the table entries behind them, one per record and in order |
| MinimalScanner.DetectMeaning | plugin-conflict-mapper/includes/class-wpcm-minimal-scanner.php:135-167 | `scan` reports exactly the table entries whose two plugins both match an installed slug, in table order, each with both plugins' info |
| MinimalScanner.DetectedHaveInfo | plugin-conflict-mapper/includes/class-wpcm-minimal-scanner.php:157-162 | every reported record has info for both its plugins |
| MinimalScanner.SeverityCountersAddUp | plugin-conflict-mapper/includes/class-wpcm-minimal-scanner.php:219-252 | `total_conflicts` is the number of reports, and when every severity is one of the four levels the four counters add up to it |
| MinimalScanner.TypeCountersBounded | plugin-conflict-mapper/includes/class-wpcm-minimal-scanner.php:240-249 | the four type counters together never exceed the number of reports |
| MinimalScanner.FirstPair | plugin-conflict-mapper/includes/class-wpcm-minimal-scanner.php:279-290 | the first entry about the unordered pair, or nothing when no entry is about it |
| MinimalScanner.CheckPairSymmetric | plugin-conflict-mapper/includes/class-wpcm-minimal-scanner.php:279-290 | the order of the two plugins does not matter |
| MinimalScanner.SeoPairFound | plugin-conflict-mapper/includes/class-wpcm-minimal-scanner.php:279-290 | in the shipped table `check_pair` finds the SEO overlap entry, in either order |
| MinimalScanner.RecommendationOf | plugin-conflict-mapper/includes/class-wpcm-minimal-scanner.php:302-311 | the action is the entry's resolution, or "Review plugin compatibility." when it has none |
| MinimalScanner.Unsorted | plugin-conflict-mapper/includes/class-wpcm-minimal-scanner.php:301-312 | one recommendation per detected conflict, in input order |
| MinimalScanner.TallySeverity | plugin-conflict-mapper/includes/class-wpcm-minimal-scanner.php:350-357 | one round of the loop counts the next entry under its severity |
| MinimalScanner.TallyType | plugin-conflict-mapper/includes/class-wpcm-minimal-scanner.php:350-361 | one round of the loop counts the next entry under its type |
| MinimalScanner.TallyEntry | plugin-conflict-mapper/includes/class-wpcm-minimal-scanner.php:350-372 | one round of the loop counts the next entry under its severity, its type and, when verified, the verified count, and adds its two slugs to the set of plugins |
| MinimalScanner.CountsOfWellFormed | plugin-conflict-mapper/includes/class-wpcm-minimal-scanner.php:337-379 | for a well-formed table the severity counters and the type counters each add up to the number of entries, and every entry is counted as verified |
| MinimalScanner.TableStats | plugin-conflict-mapper/includes/class-wpcm-minimal-scanner.php:337-379 | for the shipped table: 48 entries, all verified, each counted under one severity and one type |
| MinimalScanner.TableUniquePlugins | plugin-conflict-mapper/includes/class-wpcm-minimal-scanner.php:368-374 | the shipped table names at least two distinct plugins |
| MinimalScanner.CountSeverities | plugin-conflict-mapper/includes/class-wpcm-minimal-scanner.php:240-245 | the severity counters of `quick_scan`; an entry whose severity text is "total" also bumps `total_conflicts` |
| MinimalScanner.CountTypes | plugin-conflict-mapper/includes/class-wpcm-minimal-scanner.php:240-249 | the type counters of `quick_scan`; other types are not counted |
| MinimalScanner.Scanner.constructor | plugin-conflict-mapper/includes/class-wpcm-minimal-scanner.php:47-65 | holds the loaded table, or an empty one when the data file is missing, and no slugs yet |
| MinimalScanner.Scanner.GetInstalledPluginSlugs | plugin-conflict-mapper/includes/class-wpcm-minimal-scanner.php:81-104 | the slug table is built on first use and reused afterwards |
| MinimalScanner.Scanner.Scan | plugin-conflict-mapper/includes/class-wpcm-minimal-scanner.php:135-167 | reports the entries whose plugins are installed, or active when asked, as `DetectMeaning` describes |
| MinimalScanner.Scanner.QuickScan | plugin-conflict-mapper/includes/class-wpcm-minimal-scanner.php:219-252 | the counters of `scan`'s report, with the numbers of plugins checked and of table entries |
| MinimalScanner.Scanner.GetConflictsForPlugin | plugin-conflict-mapper/includes/class-wpcm-minimal-scanner.php:260-270 | exactly the entries naming the slug on either side, in table order |
| MinimalScanner.Scanner.CheckPair | plugin-conflict-mapper/includes/class-wpcm-minimal-scanner.php:279-290 | the first entry about the pair, in either order |
| MinimalScanner.Scanner.GetRecommendations | plugin-conflict-mapper/includes/class-wpcm-minimal-scanner.php:298-320 | one recommendation per conflict, sorted critical, high, medium, low, then the rest; a permutation of the input that keeps input order within a level |
| MinimalScanner.Scanner.GetDatabaseStats | plugin-conflict-mapper/includes/class-wpcm-minimal-scanner.php:337-379 | entries, per-severity and per-type counts, verified count and number of distinct plugins of the loaded table |
| ConflictDetector.PrefixedIsWordPress | plugin-conflict-mapper/includes/class-wpcm-conflict-detector.php:246-256 | a name with a WordPress prefix is a WordPress function, whatever `function_exists` says |
| ConflictDetector.HookSeverity | plugin-conflict-mapper/includes/class-wpcm-conflict-detector.php:227-238 | hook severity is high, medium or low, and high only for one of the five core hooks |
| ConflictDetector.HookSeverityMonotone | plugin-conflict-mapper/includes/class-wpcm-conflict-detector.php:227-238 | more plugins on a hook never lower its severity |
| ConflictDetector.ReportsIff | plugin-conflict-mapper/includes/class-wpcm-conflict-detector.php:130-140 | a name is reported iff more than one plugin uses it, and the report lists exactly those plugins |
| ConflictDetector.ConflictsForIff | plugin-conflict-mapper/includes/class-wpcm-conflict-detector.php:111-218 | a function, global or table is reported iff the detector does not skip it and more than one plugin uses it; the report lists those plugins in input order with the detector's severity |
| ConflictDetector.ConflictsForEntries | plugin-conflict-mapper/includes/class-wpcm-conflict-detector.php:111-218 | with repeat-free scanner lists, a name is reported iff at least two plugin entries use it |
| ConflictDetector.FunctionConflictFacts | plugin-conflict-mapper/includes/class-wpcm-conflict-detector.php:111-143 | a reported function is never a WordPress function and is always high |
| ConflictDetector.GlobalConflictFacts | plugin-conflict-mapper/includes/class-wpcm-conflict-detector.php:151-183 | a reported global is never a WordPress global and is always medium |
| ConflictDetector.TableConflictFacts | plugin-conflict-mapper/includes/class-wpcm-conflict-detector.php:191-218 | a reported table is always high and shared by more than one plugin |
| ConflictDetector.TypeOrderMeaning | plugin-conflict-mapper/includes/class-wpcm-conflict-detector.php:70-85 | `actions` and `filters` become keys of the hook usage iff some plugin has a hook of that type, each at most once |
| ConflictDetector.HookConflictsIff | plugin-conflict-mapper/includes/class-wpcm-conflict-detector.php:66-103 | a hook is reported as an action (or filter) iff more than one plugin registers it as one, with those plugins in input order |
| ConflictDetector.ReportFor | plugin-conflict-mapper/includes/class-wpcm-conflict-detector.php:45-58 | the report has exactly the four keys hook, function, global and table conflicts, in that order |
| ConflictDetector.ByTypeAlwaysZero | plugin-conflict-mapper/includes/class-wpcm-conflict-detector.php:302-306 | as written, every `by_type` counter stays 0 |
| ConflictDetector.ByTypeMissesDetectedTables | plugin-conflict-mapper/includes/class-wpcm-conflict-detector.php:302-306 | so, as written, a report with shared tables shows zero tables |
| ConflictDetector.ByTypeOfReport | plugin-conflict-mapper/includes/class-wpcm-conflict-detector.php:280-310 | with the corrected key, `by_type` holds the length of each of the four lists |
| ConflictDetector.SummaryTotals | plugin-conflict-mapper/includes/class-wpcm-conflict-detector.php:280-300 | `total_conflicts` is the sum of the list lengths; when every severity is high, medium or low the three counters add up to it |
| ConflictDetector.ReportLevels | plugin-conflict-mapper/includes/class-wpcm-conflict-detector.php:280-300 | for the detector's own report the three severity counters add up to the total |
| ConflictDetector.BuildUsage | plugin-conflict-mapper/includes/class-wpcm-conflict-detector.php:114-128 | the nested loops build the name → plugins dictionary |
| ConflictDetector.ReportShared | plugin-conflict-mapper/includes/class-wpcm-conflict-detector.php:130-140 | the second loop reports the names with more than one user, in dictionary order |
| ConflictDetector.DetectFunctionConflicts | plugin-conflict-mapper/includes/class-wpcm-conflict-detector.php:111-143 | the shared non-WordPress functions |
| ConflictDetector.DetectGlobalConflicts | plugin-conflict-mapper/includes/class-wpcm-conflict-detector.php:151-183 | the shared non-WordPress globals |
| ConflictDetector.DetectTableConflicts | plugin-conflict-mapper/includes/class-wpcm-conflict-detector.php:191-218 | the shared tables |
| ConflictDetector.DetectHookConflicts | plugin-conflict-mapper/includes/class-wpcm-conflict-detector.php:66-103 | the shared actions and filters; the hook type some plugin registers first is reported first |
| ConflictDetector.DetectConflicts | plugin-conflict-mapper/includes/class-wpcm-conflict-detector.php:45-58 | the four lists under their keys |
| ConflictDetector.GetConflictSummary | plugin-conflict-mapper/includes/class-wpcm-conflict-detector.php:280-310 | the total, the three severity counters and, with the corrected key, the length of each list under `by_type` |
| ConflictDetector.CountLevels | plugin-conflict-mapper/includes/class-wpcm-conflict-detector.php:289-299 | the inner counting loop yields the number of high, medium and low conflicts |
| OverlapAnalyzer.CategoriesOfMeaning | plugin-conflict-mapper/includes/class-wpcm-overlap-analyzer.php:97-111 | a plugin is in a category iff one of its keywords is a case-insensitive substring of name and description; no category is listed twice |
| OverlapAnalyzer.CategorizePlugin | plugin-conflict-mapper/includes/class-wpcm-overlap-analyzer.php:97-111 | the keyword loop with its early `break` yields those categories |
| OverlapAnalyzer.OverlapSeverity | plugin-conflict-mapper/includes/class-wpcm-overlap-analyzer.php:120-131 | the severity is high, medium or low |
| OverlapAnalyzer.OverlapSeverityLevels | plugin-conflict-mapper/includes/class-wpcm-overlap-analyzer.php:120-131 | cache, security, SEO and backup overlaps are always high; for the others, three or more plugins make it medium, and they are never high |
| OverlapAnalyzer.RecommendationStatesCount | plugin-conflict-mapper/includes/class-wpcm-overlap-analyzer.php:140-158 | every recommendation states the number of plugins |
| OverlapAnalyzer.RecommendationFallback | plugin-conflict-mapper/includes/class-wpcm-overlap-analyzer.php:155-157 | a category without its own text gets the generic one, which names the category |
| OverlapAnalyzer.OverlapsIff | plugin-conflict-mapper/includes/class-wpcm-overlap-analyzer.php:51-89 | a category is reported iff at least two plugins are in it; the report lists exactly them, in input order, with their number as `count` |
| OverlapAnalyzer.OverlapFacts | plugin-conflict-mapper/includes/class-wpcm-overlap-analyzer.php:74-86 | every overlap has the category's severity and a recommendation stating its count |
| OverlapAnalyzer.CategorizeAll | plugin-conflict-mapper/includes/class-wpcm-overlap-analyzer.php:56-62 | the first loop records each plugin's name and categories |
| OverlapAnalyzer.GroupCategories | plugin-conflict-mapper/includes/class-wpcm-overlap-analyzer.php:64-72 | the second loop appends each plugin to each of its categories, categories in first-seen order |
| OverlapAnalyzer.ReportOverlaps | plugin-conflict-mapper/includes/class-wpcm-overlap-analyzer.php:74-86 | the report loop keeps the categories with more than one plugin |
| OverlapAnalyzer.AnalyzeOverlaps | plugin-conflict-mapper/includes/class-wpcm-overlap-analyzer.php:51-89 | categorise, group, report, over the twelve categories |
| OverlapAnalyzer.CategoryAlternatives | plugin-conflict-mapper/includes/class-wpcm-overlap-analyzer.php:166-196 | three alternatives for seo, cache, security, backup and forms, none otherwise |
| OverlapAnalyzer.AlternativesDistinct | plugin-conflict-mapper/includes/class-wpcm-overlap-analyzer.php:166-196 | no plugin is suggested twice for a category |
| OverlapAnalyzer.HighRiskHaveAlternatives | plugin-conflict-mapper/includes/class-wpcm-overlap-analyzer.php:166-196 | every high-risk category has alternatives |
| OverlapAnalyzer.Similarity | plugin-conflict-mapper/includes/class-wpcm-overlap-analyzer.php:223 | the similarity of two hook lists with common hooks is in (0, 100] percent |
| OverlapAnalyzer.PatternsIff | plugin-conflict-mapper/includes/class-wpcm-overlap-analyzer.php:204-238 | a pattern comes from two entries with different plugin files, more than five common hooks and more than 20 % similarity, and every such ordered pair gives one |
| OverlapAnalyzer.PatternBounds | plugin-conflict-mapper/includes/class-wpcm-overlap-analyzer.php:222-231 | every reported pattern has more than five common hooks and a rounded similarity in [20, 100] |
| OverlapAnalyzer.AnalyzeHookPatterns | plugin-conflict-mapper/includes/class-wpcm-overlap-analyzer.php:204-238 | the nested loop over ordered pairs yields those patterns |
| RankingEngine.PointsZero | plugin-conflict-mapper/includes/class-wpcm-ranking-engine.php:142-160 | a plugin gets no points iff every list entry naming it has a severity of weight 0 |
| RankingEngine.PointsConcat | plugin-conflict-mapper/includes/class-wpcm-ranking-engine.php:142-160 | points over two lists add up |
| RankingEngine.ConflictPenaltyMeaning | plugin-conflict-mapper/includes/class-wpcm-ranking-engine.php:139-163 | the conflict penalty is capped at 40, and it is 0 iff every conflict naming the plugin has a severity outside high, medium and low |
| RankingEngine.OverlapPenaltyMeaning | plugin-conflict-mapper/includes/class-wpcm-ranking-engine.php:172-194 | the overlap penalty is capped at 30, and it is 0 iff every overlap naming the plugin has a severity outside high, medium and low |
| RankingEngine.SingleConflict | plugin-conflict-mapper/includes/class-wpcm-ranking-engine.php:145-157 | one high conflict costs 15 points, and a critical one costs nothing, since the switch has no case for it |
| RankingEngine.OverlapPenaltyMonotone | plugin-conflict-mapper/includes/class-wpcm-ranking-engine.php:172-194 | more overlaps never lower the overlap penalty |
| RankingEngine.CalculateConflictPenalty | plugin-conflict-mapper/includes/class-wpcm-ranking-engine.php:139-163 | the nested loop computes the capped conflict penalty |
| RankingEngine.CalculateOverlapPenalty | plugin-conflict-mapper/includes/class-wpcm-ranking-engine.php:172-194 | the loop computes the capped overlap penalty |
| RankingEngine.ComplexityPenalty | plugin-conflict-mapper/includes/class-wpcm-ranking-engine.php:97-98 | the complexity penalty is in [0, 20] |
| RankingEngine.SizePenalty | plugin-conflict-mapper/includes/class-wpcm-ranking-engine.php:103-109 | the size penalty is in [0, 10], and it is positive iff the plugin is over 10 MB |
| RankingEngine.ScoreRange | plugin-conflict-mapper/includes/class-wpcm-ranking-engine.php:72-130 | the total is in [0, 100]; the breakdown scores lie in [60, 100] for conflicts, [70, 100] for overlaps, [80, 100] for complexity and [90, 100] for size |
| RankingEngine.MissingVersionCosts | plugin-conflict-mapper/includes/class-wpcm-ranking-engine.php:113-120 | a plugin without a version loses exactly 20 points before the floor at 0, gets maintenance 80 instead of 100, and is the only case that gets the no-version issue |
| RankingEngine.CalculatePluginScore | plugin-conflict-mapper/includes/class-wpcm-ranking-engine.php:72-130 | the score, breakdown and issues of one plugin |
| RankingEngine.RecommendationsShape | plugin-conflict-mapper/includes/class-wpcm-ranking-engine.php:202-239 | the first recommendation is success, warning or error by the 80 and 60 thresholds; the conflict warning is present iff the conflict score is under 70 and the overlap advice iff the overlap score is under 70, and nothing else is added; advice of type info appears iff the overlap score is under 70 |
| RankingEngine.RecommendationsMeaning | plugin-conflict-mapper/includes/class-wpcm-ranking-engine.php:202-239 | for a computed score the overlap score never drops under 70, so the overlap advice and any info advice are never given; the conflict warning is present iff the conflict penalty exceeds 30, and the list has two items then and one otherwise |
| RankingEngine.RankedFacts | plugin-conflict-mapper/includes/class-wpcm-ranking-engine.php:33-60 | the ranking is a permutation of the scored plugins, by descending score, with scores in [0, 100], keeping input order among equal scores |
| RankingEngine.RankPlugins | plugin-conflict-mapper/includes/class-wpcm-ranking-engine.php:33-60 | the loop scores every plugin, then the sort ranks them |
| RankingEngine.PercentileRange | plugin-conflict-mapper/includes/class-wpcm-ranking-engine.php:254 | the percentile of rank 1 to n is in [0, 100) |
| RankingEngine.PercentileOrder | plugin-conflict-mapper/includes/class-wpcm-ranking-engine.php:254 | a lower rank never has a higher percentile |
| RankingEngine.ComparativeFacts | plugin-conflict-mapper/includes/class-wpcm-ranking-engine.php:247-264 | each plugin gets its 1-based position as rank, the number of plugins, and a percentile in [0, 100] rounded to one place that never increases down the ranking |
| RankingEngine.GetComparativeRanking | plugin-conflict-mapper/includes/class-wpcm-ranking-engine.php:247-264 | the loop computes that table |
| RankingEngine.PriorityActionsMeaning | plugin-conflict-mapper/includes/class-wpcm-ranking-engine.php:272-288 | exactly the plugins scoring under 50, in ranking order, each with priority high |
| RankingEngine.GetPriorityActions | plugin-conflict-mapper/includes/class-wpcm-ranking-engine.php:272-288 | the loop computes those actions |
| SecurityScanner.Finding.Level | plugin-conflict-mapper/includes/class-wpcm-security-scanner.php:109-206 | every finding is reported as high or critical |
| SecurityScanner.Newlines | plugin-conflict-mapper/includes/class-wpcm-security-scanner.php:106 | a text has no more line breaks than characters |
| SecurityScanner.LineAtBounds | plugin-conflict-mapper/includes/class-wpcm-security-scanner.php:106 | a match's line number is between 1 and the number of lines, and a later offset never gets an earlier line |
| SecurityScanner.LineOfFirstLine | plugin-conflict-mapper/includes/class-wpcm-security-scanner.php:106 | a match before the first line break is on line 1 |
| SecurityScanner.BasenameMeaning | plugin-conflict-mapper/includes/class-wpcm-security-scanner.php:111 | the reported file name is the part of the path after its last `/`, and holds no `/` |
| SecurityScanner.IssuesFor | plugin-conflict-mapper/includes/class-wpcm-security-scanner.php:105-115 | one issue per match |
| SecurityScanner.DangerousFindings | plugin-conflict-mapper/includes/class-wpcm-security-scanner.php:103-117 | one finding per entry of the dangerous-function list, in list order |
| SecurityScanner.FileIssuesMeaning | plugin-conflict-mapper/includes/class-wpcm-security-scanner.php:59-83 | an issue is reported for a file iff some check matches in it; the issue names that check, the file's base name and the line of the match |
| SecurityScanner.FileIssuesSplit | plugin-conflict-mapper/includes/class-wpcm-security-scanner.php:59-83 | a file's issues come in the order dangerous functions, SQL injection, XSS, file operations |
| SecurityScanner.PluginIssuesLines | plugin-conflict-mapper/includes/class-wpcm-security-scanner.php:52-91 | every issue has a line number of at least 1 |
| SecurityScanner.RiskMeaning | plugin-conflict-mapper/includes/class-wpcm-security-scanner.php:223-246 | the risk is critical iff some issue is user input in a query, safe iff there is no issue, high only with more than two issues, and never low, since every issue is high or critical |
| SecurityScanner.TakePhp | plugin-conflict-mapper/includes/class-wpcm-security-scanner.php:266-274 | never more PHP files than the limit |
| SecurityScanner.PhpFiles | plugin-conflict-mapper/includes/class-wpcm-security-scanner.php:254-277 | never more than 100 files |
| SecurityScanner.TakePhpAll | plugin-conflict-mapper/includes/class-wpcm-security-scanner.php:266-274 | below the limit every PHP file is taken, in walk order |
| SecurityScanner.PhpFilesSmallPlugin | plugin-conflict-mapper/includes/class-wpcm-security-scanner.php:254-277 | a plugin directory with at most 100 PHP files is scanned in full |
| SecurityScanner.ScanFacts | plugin-conflict-mapper/includes/class-wpcm-security-scanner.php:52-91 | `total_issues` is the number of issues, every issue is high or critical with a line of at least 1, the risk is safe iff there is no issue, and it is never low |
| SecurityScanner.Scanner.constructor | plugin-conflict-mapper/includes/class-wpcm-security-scanner.php:30-44 | the scanner holds the dangerous-function list |
| SecurityScanner.Scanner.ScanPlugin | plugin-conflict-mapper/includes/class-wpcm-security-scanner.php:52-91 | scans every file `get_php_files` lists and reports the issues, their number and the risk |
| SecurityScanner.Scanner.ScanFile | plugin-conflict-mapper/includes/class-wpcm-security-scanner.php:59-83 | the four checks of one file, in order |
| SecurityScanner.Scanner.ScanDangerousFunctions | plugin-conflict-mapper/includes/class-wpcm-security-scanner.php:100-120 | an issue per call of each dangerous function, function by function |
| SecurityScanner.Scanner.ScanSqlInjection | plugin-conflict-mapper/includes/class-wpcm-security-scanner.php:129-161 | direct queries with variables first, then user input in queries |
| SecurityScanner.Scanner.ScanXssRisks | plugin-conflict-mapper/includes/class-wpcm-security-scanner.php:170-188 | an issue per echo of user input |
| SecurityScanner.Scanner.ScanFileOperations | plugin-conflict-mapper/includes/class-wpcm-security-scanner.php:197-215 | an issue per file operation on user input |
| SecurityScanner.Scanner.ReportMatches | plugin-conflict-mapper/includes/class-wpcm-security-scanner.php:105-115 | the loop over one check's matches |
| SecurityScanner.Scanner.CalculateRiskLevel | plugin-conflict-mapper/includes/class-wpcm-security-scanner.php:223-246 | the counting loop and the ladder give the risk level |
| SecurityScanner.Scanner.GetPhpFiles | plugin-conflict-mapper/includes/class-wpcm-security-scanner.php:254-277 | the walk with its early `break` at the limit |
| PerformanceAnalyzer.LadderMonotone | plugin-conflict-mapper/includes/class-wpcm-performance-analyzer.php:55-62 | a larger measure never gets a better rating |
| PerformanceAnalyzer.Score | plugin-conflict-mapper/includes/class-wpcm-performance-analyzer.php:68 | each component score is in [0, 100] |
| PerformanceAnalyzer.ScoreMonotone | plugin-conflict-mapper/includes/class-wpcm-performance-analyzer.php:68 | a larger measure never gets a higher score |
| PerformanceAnalyzer.AnalyzeSize | plugin-conflict-mapper/includes/class-wpcm-performance-analyzer.php:51-70 | size is rated excellent iff at most 5 MB and poor iff over 20 MB; the score is in [0, 100] |
| PerformanceAnalyzer.AnalyzeComplexity | plugin-conflict-mapper/includes/class-wpcm-performance-analyzer.php:79-96 | complexity is rated excellent iff at most 2000 and poor iff over 10000; the score is in [0, 100] |
| PerformanceAnalyzer.AnalyzeDatabaseImpact | plugin-conflict-mapper/includes/class-wpcm-performance-analyzer.php:105-124 | database impact is rated excellent iff at most 2 tables and poor iff over 10; the score is in [0, 100] |
| PerformanceAnalyzer.AssetImpactOf | plugin-conflict-mapper/includes/class-wpcm-performance-analyzer.php:132-155 | asset impact is rated excellent iff at most 5 CSS and JS files and poor iff over 20; the score is in [0, 100] |
| PerformanceAnalyzer.AnalyzeHooksCount | plugin-conflict-mapper/includes/class-wpcm-performance-analyzer.php:164-184 | hooks are rated excellent iff at most 25 and poor iff over 100; the score is in [0, 100] |
| PerformanceAnalyzer.AnalysesMonotone | plugin-conflict-mapper/includes/class-wpcm-performance-analyzer.php:51-155 | a larger plugin, a more complex one or one with more assets never gets a better rating or a higher score |
| PerformanceAnalyzer.CountsMonotone | plugin-conflict-mapper/includes/class-wpcm-performance-analyzer.php:105-184 | more tables or more hooks never get a better rating or a higher score |
| PerformanceAnalyzer.CountFiles | plugin-conflict-mapper/includes/class-wpcm-performance-analyzer.php:193-211 | the count of files with the extension, never more than the entries walked |
| PerformanceAnalyzer.AnalyzePlugin | plugin-conflict-mapper/includes/class-wpcm-performance-analyzer.php:31-42 | the five analyses, with an overall score of 0 and no rating yet |
| PerformanceAnalyzer.OverallRatingMonotone | plugin-conflict-mapper/includes/class-wpcm-performance-analyzer.php:242-252 | a higher overall score never gets a worse rating |
| PerformanceAnalyzer.OverallRatingBands | plugin-conflict-mapper/includes/class-wpcm-performance-analyzer.php:242-252 | excellent from 90, good from 75, fair from 60, poor below |
| PerformanceAnalyzer.GenerateReport | plugin-conflict-mapper/includes/class-wpcm-performance-analyzer.php:219-234 | keeps the five analyses, sets the overall score to their mean rounded to two places, and rates the unrounded mean |
| PerformanceAnalyzer.AnalysisInRange | plugin-conflict-mapper/includes/class-wpcm-performance-analyzer.php:31-42 | every analysis of a plugin has its scores in [0, 100] |
| PerformanceAnalyzer.ReportBetweenComponents | plugin-conflict-mapper/includes/class-wpcm-performance-analyzer.php:219-252 | when all five components lie in [lo, hi] the overall score lies in (lo - 0.005, hi + 0.005]; when all score 90 or more the plugin is excellent; when all score under 60 it is poor |

## Left out

- `FileStore` and `RateLimitStoreInterface`: file I/O with `flock` locking and sha256 file names. The store contract is the one `MemoryStore` states.
- Concurrency: every method is one atomic step over its object, so interleaved requests sharing a store are not modelled.
- Floating point: floats are exact reals, so the model does not capture binary rounding error in `tokens`, refill arithmetic, scores or percentages.
- Foreign calls: the internals of `Validator`, `Sanitizer`, `parse_url`, `filter_var`, DNS resolution, `random_bytes`, `hash('sha256')`, `time()` and `current_time()` are parameters, not models.
- `IndieAuth.generateState` and `IndieAuth.generateCodeChallenge` are left out as separate members. Each is only a random or sha256 value with an encoding, which enters the model as the `encodeRandom` and `s256` arguments.
- Regular-expression search in the security scanner (`preg_match_all`) is the `offsets` argument. Which texts each pattern matches, and the case-insensitive `/i` flag, are not modelled.
- `WPCM_Plugin_Scanner`'s directory walk and its extraction of hooks, functions, globals, tables, size and complexity are inputs to the detector and analyzers.
- WordPress plumbing is left out: admin pages, AJAX, REST, CLI, the database layer, transients, the installer and the settings page. So are the sinople theme, its cryptography wrappers, the php-aegis WordPress adapter and the Rust fuzz target.
- One `now` per operation: `attempt` and `remaining` read `time()` themselves, and `MemoryStore::get` and `set` each read it again. The model passes a single `now` to all the reads of one operation, as if the clock did not move during it.
- `export_json` and the plain accessors of the known-conflicts table: each only returns or encodes data the model already holds.
- The ranking engine's issue texts, built with `sprintf`, are left out. Each issue is modelled by its kind and the numbers the text reports.
- `in_array` without strict mode compares loosely. The model compares strings exactly, which differs only for numeric-looking plugin names.
- Counter keys made from data: in `get_conflict_summary` and `quick_scan` a severity outside the known ones creates a new key in the result (for example `critical_severity`). The model keeps only the known counters. The one such key that changes a known counter, the severity "total" in `quick_scan` bumping `total_conflicts`, is modelled.

## Findings

| source | as written | input that shows it | evidently intended | confidence | as-written member | corrected member |
|---|---|---|---|---|---|---|
| secured/php-aegis/src/IndieWeb/IndieAuth.php:203-213 | the PKCE verifier pattern ends in `$` without the `D` modifier, so a trailing "\n" passes the check | 42 × "a" followed by "\n" (43 bytes) | 43 to 128 characters, all unreserved, as section 4.1 of RFC 7636 requires | not executed | IndieAuth.VerifierAcceptsNewline | IndieAuth.VerifierMeaning |
| secured/php-aegis/src/IndieWeb/IndieAuth.php:114-128 | the authorization-code pattern accepts a trailing "\n", which also counts toward the 32-byte minimum | 31 × "a" followed by "\n" | at least 32 characters from `[A-Za-z0-9._-]` | not executed | IndieAuth.CodeFormatAcceptsNewline | IndieAuth.CodeAndStateMeaning |
| secured/php-aegis/src/IndieWeb/IndieAuth.php:138-152 | the state pattern accepts a trailing "\n", which also counts toward the 16-byte minimum | 15 × "a" followed by "\n" | at least 16 characters from `[A-Za-z0-9._-]` | not executed | IndieAuth.StateFormatAcceptsNewline | IndieAuth.CodeAndStateMeaning |
| secured/php-aegis/src/IndieWeb/IndieAuth.php:175-195 | the S256 challenge pattern accepts 42 base64url characters and a "\n" as a 43-byte challenge | 42 × "A" followed by "\n", method S256 | exactly 43 base64url characters | not executed | IndieAuth.ChallengeAcceptsNewline | IndieAuth.ChallengeMeaning |
| secured/php-aegis/src/IndieWeb/IndieAuth.php:276-284 | the scope-list pattern accepts a trailing "\n" | "read\n" | scope words separated by whitespace, with nothing after the last word | not executed | IndieAuth.ScopeFormatAcceptsNewline | IndieAuth.ScopeFormatMeaning |
| plugin-conflict-mapper/includes/class-wpcm-conflict-detector.php:302-306 | the `by_type` key drops "_conflicts" and then trims the trailing "s", giving `hook` where the counter is `hooks`, so every `by_type` counter stays 0 | any report with a shared table: `tables` stays 0 | `by_type` holds the length of each list | not executed | ConflictDetector.ByTypeMissesDetectedTables | ConflictDetector.ByTypeOfReport |
| secured/php-aegis/src/IndieWeb/Micropub.php:291-293 | `array_filter` keeps the keys of the exploded pieces, so the result is not a list | "A b" gives `[1 => "b"]` | the list `["b"]` | not executed | Micropub.ParseScopesKeysNotReindexed | Micropub.ParseScopesMeaning |
| secured/php-aegis/src/IndieWeb/Micropub.php:292 | the scope pattern accepts a piece with a trailing "\n" | "a\n" | scope names made only of `[a-z_]` | not executed | Micropub.ParseScopesAcceptsNewline | Micropub.ParseScopesMeaning |
