/**
 * The field-level rules of the request schema (src/schemas.ts): the language codes,
 * the domain-or-URL check, and the `callback_url` allow/deny policy.
 */
module FieldRules {
  import Text
  import Zod

  /** The language codes a copywriting run accepts. */
  const LANGUAGE_CODES: seq<string> := [
    "en-US", "en-UK", "en-AU", "nl", "de", "lb", "fr", "es", "pt", "it", "gr",
    "ru", "tr", "da", "sv", "fi", "is", "no", "zh", "ja", "hi", "th", "vi", "my",
    "ko", "et", "lt", "lv", "mk", "id", "cs", "pl", "sl", "sk", "bg", "bs", "hu",
    "uk", "sr", "ro", "sq", "hy", "he", "ar"]

  const DEFAULT_LANGUAGE: string := "en-US"

  /** `s` is one of `codes[i..]`, compared in order. */
  predicate ListedFrom(s: string, codes: seq<string>, i: nat)
    decreases |codes| - i
  {
    i < |codes| && (codes[i] == s || ListedFrom(s, codes, i + 1))
  }

  lemma {:induction false} ListedFromIsMembership(s: string, codes: seq<string>, i: nat)
    requires i <= |codes|
    ensures ListedFrom(s, codes, i) <==> s in codes[i..]
    decreases |codes| - i
  {
    if i < |codes| {
      ListedFromIsMembership(s, codes, i + 1);
      assert codes[i..] == [codes[i]] + codes[i + 1..];
    }
  }

  /** `zLanguageCode`: the value is one of the listed codes. */
  predicate IsLanguageCode(s: string) {
    ListedFrom(s, LANGUAGE_CODES, 0)
  }

  /** 44 codes, the default among them, and a code is accepted exactly when it is listed. */
  lemma LanguageCodesFacts()
    ensures |LANGUAGE_CODES| == 44
    ensures IsLanguageCode(DEFAULT_LANGUAGE)
    ensures forall s :: IsLanguageCode(s) <==> s in LANGUAGE_CODES
  {
    forall s ensures IsLanguageCode(s) <==> s in LANGUAGE_CODES {
      ListedFromIsMembership(s, LANGUAGE_CODES, 0);
      assert LANGUAGE_CODES[0..] == LANGUAGE_CODES;
    }
  }

  /**
   * `isValidDomainOrUrl`: the value parses as a URL on its own, or else with
   * "https://" put in front. A value that parses on its own is accepted without
   * the second attempt.
   */
  function IsValidDomainOrUrl(ext: Zod.Foreign, v: string): (ok: bool)
    ensures ok <==> ext.parsesAsUrl(v) || ext.parsesAsUrl("https://" + v)
    ensures ext.parsesAsUrl(v) ==> ok
  {
    if ext.parsesAsUrl(v) then true else ext.parsesAsUrl("https://" + v)
  }

  const ALLOWED_CALLBACK_PATTERNS: seq<string> := ["https://integrations.utopianlabs.ai"]

  const BLOCKED_CALLBACK_PATTERNS: seq<string> :=
    ["localhost", "127.0.0.1", "utopianlabs", "utopian-labs", "luna.ai", "getluna.dev"]

  /** `patterns.some((p) => url.toLowerCase().includes(p.toLowerCase()))`. */
  function SomePatternIncluded(url: string, patterns: seq<string>): (r: bool)
    ensures r <==> exists i :: 0 <= i < |patterns| && Text.Occurs(Text.Lower(url), Text.Lower(patterns[i]))
  {
    if |patterns| == 0 then false
    else if Text.Includes(Text.Lower(url), Text.Lower(patterns[0])) then true
    else
      var r := SomePatternIncluded(url, patterns[1..]);
      assert forall i :: 1 <= i < |patterns| ==> patterns[i] == patterns[1..][i - 1];
      r
  }

  /** The refinement on `callback_url`: an allowed pattern wins; otherwise no blocked pattern may occur. */
  function CallbackAllowed(url: string): bool {
    SomePatternIncluded(url, ALLOWED_CALLBACK_PATTERNS) || !SomePatternIncluded(url, BLOCKED_CALLBACK_PATTERNS)
  }

  lemma PatternsAreLowerCase()
    ensures forall i :: 0 <= i < |ALLOWED_CALLBACK_PATTERNS| ==>
      Text.Lower(ALLOWED_CALLBACK_PATTERNS[i]) == ALLOWED_CALLBACK_PATTERNS[i]
    ensures forall i :: 0 <= i < |BLOCKED_CALLBACK_PATTERNS| ==>
      Text.Lower(BLOCKED_CALLBACK_PATTERNS[i]) == BLOCKED_CALLBACK_PATTERNS[i]
  {
    forall i | 0 <= i < |ALLOWED_CALLBACK_PATTERNS|
      ensures Text.Lower(ALLOWED_CALLBACK_PATTERNS[i]) == ALLOWED_CALLBACK_PATTERNS[i]
    {
      Text.LowerFixesLowerCase(ALLOWED_CALLBACK_PATTERNS[i]);
    }
    forall i | 0 <= i < |BLOCKED_CALLBACK_PATTERNS|
      ensures Text.Lower(BLOCKED_CALLBACK_PATTERNS[i]) == BLOCKED_CALLBACK_PATTERNS[i]
    {
      Text.LowerFixesLowerCase(BLOCKED_CALLBACK_PATTERNS[i]);
    }
  }

  /**
   * The policy in plain terms: a callback URL passes exactly when its lower-case
   * form contains "https://integrations.utopianlabs.ai" anywhere, or contains
   * none of the blocked substrings.
   */
  lemma {:induction false} CallbackPolicy(url: string)
    ensures CallbackAllowed(url) <==>
      Text.Occurs(Text.Lower(url), "https://integrations.utopianlabs.ai")
      || forall p :: p in BLOCKED_CALLBACK_PATTERNS ==> !Text.Occurs(Text.Lower(url), p)
  {
    PatternsAreLowerCase();
    var lower := Text.Lower(url);
    assert SomePatternIncluded(url, ALLOWED_CALLBACK_PATTERNS) <==>
      Text.Occurs(lower, "https://integrations.utopianlabs.ai");
    assert SomePatternIncluded(url, BLOCKED_CALLBACK_PATTERNS) <==>
      exists p :: p in BLOCKED_CALLBACK_PATTERNS && Text.Occurs(lower, p);
  }

  /**
   * Every allowed URL also contains the blocked "utopianlabs"; the allow list is
   * consulted first, so it wins.
   */
  lemma {:induction false} AllowedPatternWins(url: string)
    requires Text.Occurs(Text.Lower(url), "https://integrations.utopianlabs.ai")
    ensures Text.Occurs(Text.Lower(url), "utopianlabs")
    ensures CallbackAllowed(url)
  {
    CallbackPolicy(url);
    var lower := Text.Lower(url);
    var allowed := "https://integrations.utopianlabs.ai";
    var k: nat :| Text.OccursAt(lower, allowed, k);
    Text.OccursWithin(lower, allowed, k, 21, 32);
    assert allowed[21..32] == "utopianlabs";
  }

  /** Without the allowed pattern, any blocked substring, in any letter case, rejects the URL. */
  lemma {:induction false} BlockedPatternRejects(url: string, p: string)
    requires !Text.Occurs(Text.Lower(url), "https://integrations.utopianlabs.ai")
    requires p in BLOCKED_CALLBACK_PATTERNS && Text.Occurs(Text.Lower(url), p)
    ensures !CallbackAllowed(url)
  {
    CallbackPolicy(url);
  }

  /** The decision depends only on the lower-case form of the URL. */
  lemma {:induction false} CallbackIgnoresCase(url: string)
    ensures CallbackAllowed(Text.Lower(url)) == CallbackAllowed(url)
  {
    Text.LowerIdempotent(url);
    CallbackPolicy(url);
    CallbackPolicy(Text.Lower(url));
  }

  /**
   * The test is for a substring, not a prefix: the allowed pattern passes a URL
   * whatever stands before or after it.
   */
  lemma {:induction false} AllowedPatternAnywhere(before: string, after: string)
    ensures CallbackAllowed(before + "https://integrations.utopianlabs.ai" + after)
  {
    var allowed := "https://integrations.utopianlabs.ai";
    PatternsAreLowerCase();
    Text.LowerIsLowerCase(allowed);
    Text.LowerKeepsLowerCasePiece(before, allowed, after);
    AllowedPatternWins(before + allowed + after);
  }
}
