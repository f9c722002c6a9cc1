/** Model of `src/extraDisposableCheck/extraDisposableCheck.ts`: whether a
    domain hands out throw-away addresses, from the Kickbox answer, a
    fixed list and a name pattern, tried in that order. */
module ExtraDisposable {
  import opened Text

  /** The Kickbox HTTP lookup is foreign; its outcome is an input. `Replied`
      carries whether the answer's `disposable` field was truthy. */
  datatype KickboxReply = NoReply | Replied(disposable: bool)

  datatype DisposableResult = DisposableResult(isDisposable: bool, source: Option<string>, confidence: nat)

  /** The known disposable domains, in source order (three appear twice),
      written as three blocks. */
  const DisposableDomains: seq<string> := Known1 + Known2 + Known3

  const Known1: seq<string> := ["tempmail.com", "temp-mail.org", "guerrillamail.com", "10minutemail.com",
    "mailinator.com", "throwaway.email", "maildrop.cc", "temp-mail.io", "yopmail.com", "fake-mail.com", "tempemail.com"]
  const Known2: seq<string> := ["email.com.ar", "trashmail.com", "mytrashmail.com", "spambox.us", "pokemail.net",
    "tempinbox.com", "mail.tm", "temp-mail.io", "10minutemail.info", "mailnesia.com", "tempmail.me"]
  const Known3: seq<string> := ["maildrop.cc", "vpopmail.com", "mintemail.com", "temp-mail.org", "fakeinbox.com",
    "dispostable.com", "sharklasers.com", "spam4.me", "killmail.net", "throwawaymail.com"]

  const PatternWords: seq<string> := ["temp", "test", "fake", "trash", "spam", "disposable", "anonymous", "mail"]
  const PatternTlds: seq<string> := ["com", "net", "org", "io"]

  /** Length of the run of decimal digits that starts `s`. */
  function DigitRun(s: string): (n: nat)
    ensures n <= |s| && AllDigits(s[..n])
    ensures n == |s| || !IsDigit(s[n])
    decreases |s|
  {
    if s != [] && IsDigit(s[0]) then
      var n := 1 + DigitRun(s[1..]);
      assert s[..n] == [s[0]] + s[1..][..n - 1];
      n
    else 0
  }

  /** The lower-cased domain starts with `word`, digits, a dot and `tld`. */
  predicate PatternAt(lower: string, word: string, tld: string)
  {
    StartsWith(lower, word) &&
    var rest := lower[|word|..];
    var afterDigits := rest[DigitRun(rest)..];
    StartsWith(afterDigits, "." + tld)
  }

  /** `/^(temp|test|...|mail)[0-9]*\.(com|net|org|io)/i.test(domain)`: the
      match is anchored at the start only. Since a digit is never a dot,
      the greedy digit run is the only one that can be followed by the dot.
      The `i` flag folds ASCII letters only. */
  predicate MatchesPattern(domain: string)
  {
    exists w, t :: 0 <= w < |PatternWords| && 0 <= t < |PatternTlds| && PatternAt(ToLower(domain), PatternWords[w], PatternTlds[t])
  }

  /** `checkExtraDisposableSources`, after its HTTP call. */
  function CheckExtraDisposableSources(kickbox: KickboxReply, domain: string): (r: DisposableResult)
    ensures r.isDisposable <==> r.confidence != 0
    ensures r.isDisposable <==> r.source.Some?
    ensures kickbox == Replied(true) ==> r == DisposableResult(true, Some("Kickbox API"), 95)
    ensures kickbox != Replied(true) && ToLower(domain) in DisposableDomains ==>
              r == DisposableResult(true, Some("Known disposable list"), 100)
    ensures kickbox != Replied(true) && ToLower(domain) !in DisposableDomains && MatchesPattern(domain) ==>
              r == DisposableResult(true, Some("Pattern matching"), 85)
    ensures kickbox != Replied(true) && ToLower(domain) !in DisposableDomains && !MatchesPattern(domain) ==>
              r == DisposableResult(false, None, 0)
  {
    if kickbox.Replied? && kickbox.disposable then DisposableResult(true, Some("Kickbox API"), 95)
    else if ToLower(domain) in DisposableDomains then DisposableResult(true, Some("Known disposable list"), 100)
    else if MatchesPattern(domain) then DisposableResult(true, Some("Pattern matching"), 85)
    else DisposableResult(false, None, 0)
  }

  /** A failed Kickbox call is swallowed: the local checks decide, as if
      Kickbox had said "not disposable". */
  lemma KickboxFailureSwallowed(domain: string)
    ensures CheckExtraDisposableSources(NoReply, domain) == CheckExtraDisposableSources(Replied(false), domain)
  {
  }

  /** The local checks alone never give the Kickbox source, and nothing the
      local checks say matters once Kickbox reports the domain. */
  lemma KickboxComesFirst(domain: string, other: string)
    ensures CheckExtraDisposableSources(Replied(true), domain) == CheckExtraDisposableSources(Replied(true), other)
    ensures CheckExtraDisposableSources(NoReply, domain).source != Some("Kickbox API")
  {
  }

  /** Any pattern word, digits, a dot and a pattern top-level domain at the
      start of the name match, whatever follows: "test.io", "mail.com",
      "temp42.community" all do. */
  lemma {:induction false} PatternPrefix(w: nat, digits: string, t: nat, tail: string)
    requires w < |PatternWords| && t < |PatternTlds| && AllDigits(digits)
    ensures MatchesPattern(PatternWords[w] + digits + "." + PatternTlds[t] + tail)
  {
    var word, tld := PatternWords[w], PatternTlds[t];
    var domain := word + digits + "." + tld + tail;
    WordsAreLower(w);
    TldsAreLower(t);
    ToLowerConcat(word + digits + "." + tld, tail);
    ToLowerConcat(word + digits + ".", tld);
    ToLowerConcat(word + digits, ".");
    ToLowerConcat(word, digits);
    assert ToLower(digits) == digits;
    assert ToLower(".") == ".";
    var lower := ToLower(domain);
    assert lower == word + (digits + ("." + tld + ToLower(tail)));
    var rest := lower[|word|..];
    assert rest == digits + ("." + tld + ToLower(tail));
    DigitRunOf(digits, "." + tld + ToLower(tail));
    assert rest[|digits|..] == "." + tld + ToLower(tail);
    assert PatternAt(lower, word, tld);
  }

  lemma WordsAreLower(w: nat)
    requires w < |PatternWords|
    ensures ToLower(PatternWords[w]) == PatternWords[w]
  {
  }

  lemma TldsAreLower(t: nat)
    requires t < |PatternTlds|
    ensures ToLower(PatternTlds[t]) == PatternTlds[t]
  {
  }

  /** The digit run of digits followed by a non-digit is those digits. */
  lemma {:induction false} DigitRunOf(digits: string, rest: string)
    requires AllDigits(digits) && (rest == [] || !IsDigit(rest[0]))
    ensures DigitRun(digits + rest) == |digits|
    decreases |digits|
  {
    if digits != [] {
      assert (digits + rest)[1..] == digits[1..] + rest;
      DigitRunOf(digits[1..], rest);
    } else {
      assert digits + rest == rest;
    }
  }

  /** Conversely, a matching name starts with a pattern word. */
  lemma PatternStartsWithWord(domain: string)
    requires MatchesPattern(domain)
    ensures exists w :: 0 <= w < |PatternWords| && StartsWith(ToLower(domain), PatternWords[w])
  {
  }
}
