/** Model of the SMTP verification session of `src/smtp/smtp.ts`.

    `checkSMTP` drives one connection through EHLO, MAIL FROM and RCPT TO
    (the commands of section 4.1.1 of RFC 5321) and maps the reply codes
    (section 4.2 of RFC 5321) to a verdict; `checkCatchAll` runs the same
    three commands for a synthetic recipient and answers a boolean.

    Each session is a pure transition function over a record of the
    handler's variables (`Step`, `ProbeStep`), and a class with the same
    fields whose event methods are proved to perform exactly that step. */
module Smtp {
  import opened Text
  import opened Socket

  // ---------------------------------------------------------------------
  // Reply codes
  // ---------------------------------------------------------------------

  /** `extractCode`: the number formed by the first three characters of a
      reply when all three are decimal digits; nothing otherwise. */
  function ExtractCode(msg: string): (r: Option<nat>)
    ensures r.Some? <==> |msg| >= 3 && IsDigit(msg[0]) && IsDigit(msg[1]) && IsDigit(msg[2])
    ensures r.Some? ==> r.value == 100 * DigitValue(msg[0]) + 10 * DigitValue(msg[1]) + DigitValue(msg[2])
    ensures r.Some? ==> r.value < 1000
  {
    if |msg| >= 3 && AllDigits(msg[..3]) then
      var d := msg[..3];
      DecimalValueOfThree(d);
      Some(DecimalValue(d))
    else None
  }

  function DigitChar(d: nat): (c: char)
    requires d < 10
    ensures IsDigit(c) && DigitValue(c) == d
  {
    ((d + '0' as int) as char)
  }

  /** The three-digit rendering of a reply code, as a server writes it. */
  function ThreeDigits(n: nat): (s: string)
    requires n < 1000
    ensures |s| == 3 && AllDigits(s)
  {
    [DigitChar(n / 100), DigitChar((n / 10) % 10), DigitChar(n % 10)]
  }

  /** A reply written as a code followed by any text gives back that code. */
  lemma ExtractCodeOfReply(n: nat, text: string)
    requires n < 1000
    ensures ExtractCode(ThreeDigits(n) + text) == Some(n)
  {
    var m := ThreeDigits(n) + text;
    assert m[0] == DigitChar(n / 100) && m[1] == DigitChar((n / 10) % 10) && m[2] == DigitChar(n % 10);
  }

  /** Only the first three characters matter: further digits are ignored. */
  lemma ExtractCodeIgnoresRest(msg: string, rest: string)
    requires |msg| >= 3
    ensures ExtractCode(msg + rest) == ExtractCode(msg)
  {
    assert (msg + rest)[..3] == msg[..3];
  }

  // ---------------------------------------------------------------------
  // Blocking services
  // ---------------------------------------------------------------------

  /** Host-name fragments of mail-protection gateways (`BLOCKING_SERVICES`). */
  const BlockingServices: seq<string> := [
    "mimecast.com", "protection.outlook.com", "pphosted.com", "proofpoint.com",
    "messagelabs.com", "google.com", "googlemail.com", "barracuda", "spamexperts",
    "mailcontrol", "reflexion", "symantec", "fireeye"
  ]

  /** `subs.some(sub => s.includes(sub))`. */
  function SomeIncluded(s: string, subs: seq<string>): (r: bool)
    ensures r <==> exists i :: 0 <= i < |subs| && Contains(s, subs[i])
    decreases |subs|
  {
    if subs == [] then false
    else if Contains(s, subs[0]) then true
    else
      var r := SomeIncluded(s, subs[1..]);
      assert forall i :: 1 <= i < |subs| ==> subs[i] == subs[1..][i - 1];
      r
  }

  /** `isBlockingService`: the lower-cased exchange contains one of the
      gateway fragments. */
  function IsBlockingService(exchange: string): (r: bool)
    ensures r <==> exists i :: 0 <= i < |BlockingServices| && Contains(ToLower(exchange), BlockingServices[i])
  {
    SomeIncluded(ToLower(exchange), BlockingServices)
  }

  /** A Proofpoint-hosted exchange is a blocking service. */
  lemma BlockingServiceMatch()
    ensures IsBlockingService("mail.pphosted.com")
  {
    var host := "mail.pphosted.com";
    assert ToLower(host) == host;
    assert OccursAt(host, BlockingServices[2], 5);
    ContainsIffOccurs(host, BlockingServices[2]);
  }

  /** An ordinary exchange contains none of the fragments. */
  lemma BlockingServiceNoMatch()
    ensures !IsBlockingService("mx.example.com")
  {
    var host := "mx.example.com";
    assert ToLower(host) == host;
    // For each fragment, one of its characters does not occur in the host.
    var missing := ['i', 'r', 'h', 'r', 's', 'g', 'g', 'b', 's', 'i', 'r', 's', 'f'];
    forall i | 0 <= i < |BlockingServices| ensures !Contains(host, BlockingServices[i]) {
      assert missing[i] in BlockingServices[i];
      assert missing[i] !in host;
      if Contains(host, BlockingServices[i]) {
        ContainedCharsOccur(host, BlockingServices[i], missing[i]);
      }
    }
  }

  /** The test ignores the case of the exchange. */
  lemma BlockingServiceIgnoresCase(exchange: string)
    ensures IsBlockingService(ToLower(exchange)) == IsBlockingService(exchange)
  {
    ToLowerIdempotent(exchange);
  }

  // ---------------------------------------------------------------------
  // Verdicts
  // ---------------------------------------------------------------------

  datatype Reason = AcceptedEmail | MailboxNotFound | MailboxFull | SmtpError

  /** `SMTPResult` as `checkSMTP` resolves it. An absent `blocked` flag is
      `false`; `smtpMessage` is diagnostic text and is not kept. */
  datatype SmtpResult = SmtpResult(valid: bool, reason: Reason, blocked: bool, smtpCode: Option<nat>)

  predicate IsSuccessCode(c: nat) { c == 220 || c == 250 || c == 251 }

  predicate IsNotFoundCode(c: nat) { c == 550 || c == 551 || c == 553 }

  predicate IsTemporaryCode(c: nat) { c == 421 || c == 450 || c == 451 || c == 452 }

  /** A code that makes `checkSMTP` send the next command: no code, code 0
      (falsy) or a success code. */
  predicate Advances(code: Option<nat>)
  {
    code.None? || code.value == 0 || IsSuccessCode(code.value)
  }

  /** The verdict given when every command was answered with success. */
  function Accepted(lastCode: Option<nat>): (r: SmtpResult)
    ensures r.valid && r.reason == AcceptedEmail && !r.blocked
    ensures r.smtpCode == Some(if lastCode.Some? && lastCode.value != 0 then lastCode.value else 250)
  {
    SmtpResult(true, AcceptedEmail, false, Some(if lastCode.Some? && lastCode.value != 0 then lastCode.value else 250))
  }

  /** The verdict given on a socket error, a timeout or an early close. */
  const Unverifiable := SmtpResult(false, SmtpError, true, None)

  /** The verdict for a reply code that neither advances nor triggers the
      HELO fallback (the tail of the data handler's if-chain). */
  function Rejection(code: nat): (r: SmtpResult)
    ensures r.smtpCode == Some(code)
    ensures r.reason == MailboxNotFound <==> IsNotFoundCode(code)
    ensures r.reason == MailboxFull <==> code == 552
    ensures r.reason == SmtpError <==> !IsNotFoundCode(code) && code != 552
    ensures r.reason != AcceptedEmail
    ensures r.blocked <==> r.reason == SmtpError
    ensures r.valid <==> code == 552
  {
    if IsNotFoundCode(code) then SmtpResult(false, MailboxNotFound, false, Some(code))
    else if IsTemporaryCode(code) then SmtpResult(false, SmtpError, true, Some(code))
    else if code == 554 then SmtpResult(false, SmtpError, true, Some(554))
    else if code == 552 then SmtpResult(true, MailboxFull, false, Some(552))
    else SmtpResult(false, SmtpError, true, Some(code))
  }

  /** What every verdict of `checkSMTP` satisfies: `blocked` exactly for
      `smtp_error`, `valid` exactly for accepted and full mailboxes, and the
      code agrees with the reason. */
  predicate Coherent(v: SmtpResult)
  {
    (v.blocked <==> v.reason == SmtpError) &&
    (v.valid <==> v.reason == AcceptedEmail || v.reason == MailboxFull) &&
    (v.reason == AcceptedEmail ==> v.smtpCode.Some? && IsSuccessCode(v.smtpCode.value)) &&
    (v.reason == MailboxNotFound ==> v.smtpCode.Some? && IsNotFoundCode(v.smtpCode.value)) &&
    (v.reason == MailboxFull ==> v.smtpCode == Some(552)) &&
    (v.reason == SmtpError && v.smtpCode.Some? ==>
       !IsSuccessCode(v.smtpCode.value) && !IsNotFoundCode(v.smtpCode.value) && v.smtpCode.value != 552)
  }

  // ---------------------------------------------------------------------
  // checkSMTP: the session as a transition function
  // ---------------------------------------------------------------------

  const Ehlo := "EHLO validator.local\r\n"
  const Helo := "HELO validator.local\r\n"
  const Quit := "QUIT\r\n"

  function MailFrom(sender: string): string { "MAIL FROM:<" + sender + ">\r\n" }

  function RcptTo(recipient: string): string { "RCPT TO:<" + recipient + ">\r\n" }

  /** The variables of one `checkSMTP` call: the handler's own (`closed`,
      `cmdIndex`, `commands`, `lastCode`), the socket's flags, the lines
      written to the socket and the value the promise was resolved with. */
  datatype Session = Session(
    connected: bool,
    closed: bool,
    cmdIndex: nat,
    commands: seq<string>,
    lastCode: Option<nat>,
    writable: bool,
    destroyed: bool,
    written: seq<string>,
    verdict: Option<SmtpResult>)

  predicate WellFormed(s: Session) { |s.commands| == 3 && s.cmdIndex <= 3 }

  function Start(sender: string, recipient: string): (s: Session)
    ensures WellFormed(s) && !s.closed && s.verdict.None? && s.written == []
    ensures s.commands == [Ehlo, MailFrom(sender), RcptTo(recipient)]
  {
    Session(false, false, 0, [Ehlo, MailFrom(sender), RcptTo(recipient)], None, true, false, [], None)
  }

  /** `finish`: mark the session closed, write QUIT and tear the socket down
      when it is still writable and not destroyed, and resolve; a promise
      keeps the first value it is resolved with. */
  function Finished(s: Session, result: SmtpResult): (t: Session)
    ensures t.closed && t.verdict.Some?
    ensures t.verdict == if s.verdict.Some? then s.verdict else Some(result)
  {
    var quit := s.writable && !s.destroyed;
    s.(closed := true,
       written := if quit then s.written + [Quit] else s.written,
       writable := s.writable && !quit,
       destroyed := s.destroyed || quit,
       verdict := if s.verdict.Some? then s.verdict else Some(result))
  }

  /** `sendNext`: write the command under the cursor and advance (only while
      the socket is writable), or accept once all three were sent. */
  function Advanced(s: Session): (t: Session)
    requires WellFormed(s)
    ensures WellFormed(t)
  {
    if s.cmdIndex < |s.commands| then
      if s.writable then s.(written := s.written + [s.commands[s.cmdIndex]], cmdIndex := s.cmdIndex + 1)
      else s
    else Finished(s, Accepted(s.lastCode))
  }

  /** The 'data' handler. */
  function Replied(s: Session, chunk: string): (t: Session)
    requires WellFormed(s)
    ensures WellFormed(t)
  {
    var code := ExtractCode(chunk);
    var s1 := s.(lastCode := code);
    if Advances(code) then Advanced(s1)
    else if code.value == 502 && s1.cmdIndex == 1 then Advanced(s1.(commands := s1.commands[0 := Helo], cmdIndex := 0))
    else Finished(s1, Rejection(code.value))
  }

  function Step(s: Session, e: Event): (t: Session)
    requires WellFormed(s)
    ensures WellFormed(t)
  {
    match e
    case Connect => s.(connected := true)
    case Data(chunk) => if s.connected then Replied(s, chunk) else s
    case Error => if !s.closed then Finished(s, Unverifiable) else s
    case Timeout => if !s.closed then Finished(s, Unverifiable) else s
    case Close => if !s.closed then Finished(s, Unverifiable) else s
    case Ended => s.(writable := false)
    case Destroyed => s.(writable := false, destroyed := true)
  }

  function Run(s: Session, evs: seq<Event>): (t: Session)
    requires WellFormed(s)
    ensures WellFormed(t)
    decreases |evs|
  {
    if evs == [] then s else Run(Step(s, evs[0]), evs[1..])
  }

  /** The invariant of every reachable session: the commands are the three
      of the protocol (the first possibly rewritten to HELO), the session is
      closed exactly when it has resolved, the verdict is coherent, QUIT is
      written at most once, and a closed session's socket is no longer
      writable. */
  ghost predicate Inv(s: Session)
  {
    WellFormed(s) &&
    (s.commands[0] == Ehlo || s.commands[0] == Helo) &&
    s.commands[1] != Quit && s.commands[2] != Quit &&
    (s.closed <==> s.verdict.Some?) &&
    (s.verdict.Some? ==> Coherent(s.verdict.value)) &&
    (s.destroyed ==> !s.writable) &&
    (s.closed ==> !s.writable) &&
    Occurrences(s.written, Quit) <= 1 &&
    (Occurrences(s.written, Quit) == 1 ==> !s.writable)
  }

  lemma StartInv(sender: string, recipient: string)
    ensures Inv(Start(sender, recipient))
  {
    var s := Start(sender, recipient);
    assert s.commands[1][0] == 'M' && s.commands[2][0] == 'R';
  }

  lemma FinishedInv(s: Session, result: SmtpResult)
    requires Inv(s) && Coherent(result)
    ensures Inv(Finished(s, result))
  {
    if s.writable && !s.destroyed {
      OccurrencesAppend(s.written, Quit, Quit);
    }
  }

  lemma AdvancedInv(s: Session)
    requires Inv(s)
    requires s.cmdIndex == 3 ==> Advances(s.lastCode)
    ensures Inv(Advanced(s))
  {
    if s.cmdIndex < 3 {
      if s.writable {
        OccurrencesAppend(s.written, s.commands[s.cmdIndex], Quit);
      }
    } else {
      FinishedInv(s, Accepted(s.lastCode));
    }
  }

  lemma {:induction false} StepInv(s: Session, e: Event)
    requires Inv(s)
    ensures Inv(Step(s, e))
  {
    match e
    case Data(chunk) =>
      if s.connected {
        var code := ExtractCode(chunk);
        var s1 := s.(lastCode := code);
        if Advances(code) {
          AdvancedInv(s1);
        } else if code.value == 502 && s1.cmdIndex == 1 {
          AdvancedInv(s1.(commands := s1.commands[0 := Helo], cmdIndex := 0));
        } else {
          FinishedInv(s1, Rejection(code.value));
        }
      }
    case Error => if !s.closed { FinishedInv(s, Unverifiable); }
    case Timeout => if !s.closed { FinishedInv(s, Unverifiable); }
    case Close => if !s.closed { FinishedInv(s, Unverifiable); }
    case _ =>
  }

  lemma {:induction false} RunInv(s: Session, evs: seq<Event>)
    requires Inv(s)
    ensures Inv(Run(s, evs))
    decreases |evs|
  {
    if evs != [] {
      StepInv(s, evs[0]);
      RunInv(Step(s, evs[0]), evs[1..]);
    }
  }

  /** Every session started by `checkSMTP` satisfies the invariant after any
      sequence of events; in particular it never resolves incoherently and
      never writes QUIT twice. */
  lemma ReachableInv(sender: string, recipient: string, evs: seq<Event>)
    ensures Inv(Run(Start(sender, recipient), evs))
    ensures Run(Start(sender, recipient), evs).verdict.Some? ==> Coherent(Run(Start(sender, recipient), evs).verdict.value)
    ensures Occurrences(Run(Start(sender, recipient), evs).written, Quit) <= 1
  {
    StartInv(sender, recipient);
    RunInv(Start(sender, recipient), evs);
  }

  /** The first verdict passed to `finish` is the one returned. */
  lemma {:induction false} VerdictIsFinal(s: Session, evs: seq<Event>)
    requires WellFormed(s) && s.verdict.Some?
    ensures Run(s, evs).verdict == s.verdict
    decreases |evs|
  {
    if evs != [] {
      VerdictIsFinal(Step(s, evs[0]), evs[1..]);
    }
  }

  /** `error`, `timeout` and `close` resolve as "could not verify" while the
      session is open and change nothing once it is closed; either way the
      session ends closed with its socket no longer writable. */
  lemma TeardownEvents(s: Session, e: Event)
    requires Inv(s)
    requires e == Error || e == Timeout || e == Close
    ensures !s.closed ==> Step(s, e).verdict == Some(Unverifiable)
    ensures s.closed ==> Step(s, e) == s
    ensures Step(s, e).closed && !Step(s, e).writable
  {
  }

  /** The reply table of the data handler, for an open, connected session. */
  lemma ReplyTable(s: Session, chunk: string)
    requires Inv(s) && s.connected && !s.closed
    ensures var c := ExtractCode(chunk); var t := Step(s, Data(chunk));
      && (Advances(c) && s.cmdIndex < 3 && s.writable ==>
            t.cmdIndex == s.cmdIndex + 1 && t.written == s.written + [s.commands[s.cmdIndex]] && t.verdict.None?)
      && (Advances(c) && s.cmdIndex == 3 ==> t.verdict == Some(Accepted(c)))
      && (c == Some(502) && s.cmdIndex == 1 ==>
            t.commands == s.commands[0 := Helo] && t.verdict.None?
            && (s.writable ==> t.cmdIndex == 1 && t.written == s.written + [Helo]))
      && (c == Some(502) && s.cmdIndex != 1 ==> t.verdict == Some(SmtpResult(false, SmtpError, true, Some(502))))
      && (c.Some? && IsNotFoundCode(c.value) ==> t.verdict == Some(SmtpResult(false, MailboxNotFound, false, c)))
      && (c.Some? && (IsTemporaryCode(c.value) || c.value == 554) ==> t.verdict == Some(SmtpResult(false, SmtpError, true, c)))
      && (c == Some(552) ==> t.verdict == Some(SmtpResult(true, MailboxFull, false, c)))
      && (c.Some? && !Advances(c) && c.value != 502 && !IsNotFoundCode(c.value) && c.value != 552 ==>
            t.verdict == Some(SmtpResult(false, SmtpError, true, c)))
  {
  }

  /** A step never moves the cursor by more than one reply, and an acceptance
      is only ever given by a reply that arrives with the cursor past RCPT TO. */
  lemma StepCursor(s: Session, e: Event)
    requires WellFormed(s)
    ensures Step(s, e).cmdIndex <= s.cmdIndex + (if e.Data? then 1 else 0)
    ensures s.verdict.None? && Step(s, e).verdict.Some? && Step(s, e).verdict.value.reason == AcceptedEmail
      ==> e.Data? && s.cmdIndex == 3
  {
  }

  lemma {:induction false} RunCursor(s: Session, evs: seq<Event>)
    requires WellFormed(s)
    ensures Run(s, evs).cmdIndex <= s.cmdIndex + DataCount(evs)
    ensures s.verdict.None? && Run(s, evs).verdict.Some? && Run(s, evs).verdict.value.reason == AcceptedEmail
      ==> s.cmdIndex + DataCount(evs) >= 4
    decreases |evs|
  {
    if evs != [] {
      var s1 := Step(s, evs[0]);
      StepCursor(s, evs[0]);
      RunCursor(s1, evs[1..]);
      assert DataCount(evs) == (if evs[0].Data? then 1 else 0) + DataCount(evs[1..]);
      if s1.verdict.Some? {
        VerdictIsFinal(s1, evs[1..]);
      }
    }
  }

  /** Acceptance needs the greeting and three success replies: no session
      resolves `accepted_email` before its fourth data event. */
  lemma AcceptedNeedsFourReplies(sender: string, recipient: string, evs: seq<Event>)
    requires Run(Start(sender, recipient), evs).verdict.Some?
    requires Run(Start(sender, recipient), evs).verdict.value.reason == AcceptedEmail
    ensures DataCount(evs) >= 4
  {
    RunCursor(Start(sender, recipient), evs);
  }

  /** Conversely, a greeting and three replies that advance, on a socket that
      stays writable, accept the address and send exactly EHLO, MAIL FROM,
      RCPT TO and QUIT. */
  lemma FourAdvancingRepliesAccept(sender: string, recipient: string, r0: string, r1: string, r2: string, r3: string)
    requires Advances(ExtractCode(r0)) && Advances(ExtractCode(r1))
    requires Advances(ExtractCode(r2)) && Advances(ExtractCode(r3))
    ensures var t := Run(Start(sender, recipient), [Connect, Data(r0), Data(r1), Data(r2), Data(r3)]);
      t.verdict == Some(Accepted(ExtractCode(r3)))
      && t.written == [Ehlo, MailFrom(sender), RcptTo(recipient), Quit]
  {
    var s0 := Start(sender, recipient);
    var s1 := Step(s0, Connect);
    var s2 := Step(s1, Data(r0));
    var s3 := Step(s2, Data(r1));
    var s4 := Step(s3, Data(r2));
    var s5 := Step(s4, Data(r3));
    assert s2.cmdIndex == 1 && s2.written == [Ehlo] && s2.writable;
    assert s3.cmdIndex == 2 && s3.written == [Ehlo, MailFrom(sender)] && s3.writable;
    assert s4.cmdIndex == 3 && s4.written == [Ehlo, MailFrom(sender), RcptTo(recipient)] && s4.writable;
    var evs := [Connect, Data(r0), Data(r1), Data(r2), Data(r3)];
    assert Run(s0, evs) == Run(s1, evs[1..]);
    assert Run(s1, evs[1..]) == Run(s2, evs[2..]);
    assert Run(s2, evs[2..]) == Run(s3, evs[3..]);
    assert Run(s3, evs[3..]) == Run(s4, evs[4..]);
    assert Run(s4, evs[4..]) == Run(s5, []);
  }

  /** `n` copies of `x`, for event streams and for transcripts alike. */
  function Repeat<T>(x: T, n: nat): (xs: seq<T>)
    ensures |xs| == n
  {
    if n == 0 then [] else [x] + Repeat(x, n - 1)
  }

  /** Nothing bounds the EHLO to HELO fallback: while the server answers 502
      to the first command, each 502 rewrites command 0 to HELO again,
      resets the cursor and resends, and the session stays unresolved. */
  lemma {:induction false} FallbackRepeats(s: Session, reply: string, n: nat)
    requires WellFormed(s) && s.connected && s.writable && s.verdict.None? && s.cmdIndex == 1
    requires ExtractCode(reply) == Some(502)
    ensures var t := Run(s, Repeat(Data(reply), n));
      t.verdict.None? && t.cmdIndex == 1 && t.writable
      && t.written == s.written + Repeat(Helo, n)
      && t.commands == (if n == 0 then s.commands else s.commands[0 := Helo])
      && t.commands[1..] == s.commands[1..]
    decreases n
  {
    if n == 0 {
    } else {
      var s1 := Step(s, Data(reply));
      assert s1.written == s.written + [Helo] && s1.cmdIndex == 1;
      FallbackRepeats(s1, reply, n - 1);
      assert s.written + Repeat(Helo, n) == s.written + [Helo] + Repeat(Helo, n - 1);
    }
  }

  lemma FallbackIsUnbounded(sender: string, recipient: string, greeting: string, reply: string, n: nat)
    requires Advances(ExtractCode(greeting)) && ExtractCode(reply) == Some(502)
    ensures var t := Run(Start(sender, recipient), [Connect, Data(greeting)] + Repeat(Data(reply), n));
      t.verdict.None? && t.written == [Ehlo] + Repeat(Helo, n)
  {
    var s0 := Start(sender, recipient);
    var s2 := Step(Step(s0, Connect), Data(greeting));
    assert s2.cmdIndex == 1 && s2.written == [Ehlo];
    var tail := Repeat(Data(reply), n);
    RunAppend(s0, [Connect, Data(greeting)], tail);
    assert Run(s0, [Connect, Data(greeting)]) == s2 by {
      assert [Connect, Data(greeting)][1..] == [Data(greeting)];
      assert Run(s0, [Connect, Data(greeting)]) == Run(Step(s0, Connect), [Data(greeting)]);
      assert Run(Step(s0, Connect), [Data(greeting)]) == Run(s2, []);
    }
    FallbackRepeats(s2, reply, n);
  }

  lemma {:induction false} RunAppend(s: Session, a: seq<Event>, b: seq<Event>)
    requires WellFormed(s)
    ensures Run(s, a + b) == Run(Run(s, a), b)
    decreases |a|
  {
    if a == [] {
      assert a + b == b;
    } else {
      assert (a + b)[0] == a[0] && (a + b)[1..] == a[1..] + b;
      RunAppend(Step(s, a[0]), a[1..], b);
    }
  }

  /** Greeting, EHLO and MAIL FROM accepted, then RCPT TO answered 550: the
      mailbox is reported missing and QUIT is still sent. */
  lemma RcptRejected(sender: string, recipient: string, r0: string, r1: string, r2: string, r3: string)
    requires Advances(ExtractCode(r0)) && Advances(ExtractCode(r1)) && Advances(ExtractCode(r2))
    requires ExtractCode(r3) == Some(550)
    ensures var t := Run(Start(sender, recipient), [Connect, Data(r0), Data(r1), Data(r2), Data(r3)]);
      t.verdict == Some(SmtpResult(false, MailboxNotFound, false, Some(550)))
      && t.written == [Ehlo, MailFrom(sender), RcptTo(recipient), Quit]
  {
    var s0 := Start(sender, recipient);
    var s1 := Step(s0, Connect);
    var s2 := Step(s1, Data(r0));
    var s3 := Step(s2, Data(r1));
    var s4 := Step(s3, Data(r2));
    var s5 := Step(s4, Data(r3));
    assert s2.cmdIndex == 1 && s2.written == [Ehlo] && s2.writable;
    assert s3.cmdIndex == 2 && s3.written == [Ehlo, MailFrom(sender)] && s3.writable;
    assert s4.cmdIndex == 3 && s4.written == [Ehlo, MailFrom(sender), RcptTo(recipient)] && s4.writable;
    var evs := [Connect, Data(r0), Data(r1), Data(r2), Data(r3)];
    assert Run(s0, evs) == Run(s1, evs[1..]);
    assert Run(s1, evs[1..]) == Run(s2, evs[2..]);
    assert Run(s2, evs[2..]) == Run(s3, evs[3..]);
    assert Run(s3, evs[3..]) == Run(s4, evs[4..]);
    assert Run(s4, evs[4..]) == Run(s5, []);
  }

  /** Greeting and three 250 replies accept the address with code 250. */
  lemma ScenarioAccepted(sender: string, recipient: string)
    ensures Run(Start(sender, recipient),
                [Connect, Data("220"), Data("250"), Data("250"), Data("250")]).verdict
            == Some(SmtpResult(true, AcceptedEmail, false, Some(250)))
  {
    assert ExtractCode("220") == Some(220);
    assert ExtractCode("250") == Some(250);
    FourAdvancingRepliesAccept(sender, recipient, "220", "250", "250", "250");
  }

  /** A timeout before any byte was received: could not verify. */
  lemma ScenarioSilentServer(sender: string, recipient: string)
    ensures Run(Start(sender, recipient), [Connect, Timeout]).verdict == Some(Unverifiable)
    ensures Run(Start(sender, recipient), [Timeout]).verdict == Some(Unverifiable)
  {
    var s0 := Start(sender, recipient);
    assert Run(s0, [Connect, Timeout]) == Run(Step(s0, Connect), [Timeout]);
  }

  // ---------------------------------------------------------------------
  // checkSMTP: the session object
  // ---------------------------------------------------------------------

  /** One `checkSMTP` call: its handlers are the event methods. */
  class SmtpSession {
    var connected: bool
    var closed: bool
    var cmdIndex: nat
    var commands: seq<string>
    var lastCode: Option<nat>
    var writable: bool
    var destroyed: bool
    var written: seq<string>
    var verdict: Option<SmtpResult>

    function State(): Session
      reads this
    {
      Session(connected, closed, cmdIndex, commands, lastCode, writable, destroyed, written, verdict)
    }

    ghost predicate Valid()
      reads this
    {
      Inv(State())
    }

    constructor (sender: string, recipient: string)
      ensures Valid() && State() == Start(sender, recipient)
    {
      connected, closed := false, false;
      commands := [Ehlo, MailFrom(sender), RcptTo(recipient)];
      cmdIndex := 0;
      lastCode := None;
      writable, destroyed := true, false;
      written := [];
      verdict := None;
      StartInv(sender, recipient);
    }

    method Finish(result: SmtpResult)
      modifies this
      ensures State() == Finished(old(State()), result)
    {
      closed := true;
      if writable && !destroyed {
        written := written + [Quit];
        writable := false;   // socket.end()
        destroyed := true;   // socket.destroy()
      }
      if verdict.None? {
        verdict := Some(result);
      }
    }

    method SendNext()
      requires WellFormed(State())
      modifies this
      ensures State() == Advanced(old(State()))
    {
      if cmdIndex < |commands| {
        if writable {
          written := written + [commands[cmdIndex]];
          cmdIndex := cmdIndex + 1;
        }
      } else {
        Finish(SmtpResult(true, AcceptedEmail, false,
                          Some(if lastCode.Some? && lastCode.value != 0 then lastCode.value else 250)));
      }
    }

    method OnConnect()
      requires Valid()
      modifies this
      ensures Valid() && State() == Step(old(State()), Connect)
    {
      connected := true;
    }

    method OnData(chunk: string)
      requires Valid()
      modifies this
      ensures Valid() && State() == Step(old(State()), Data(chunk))
    {
      ghost var s0 := State();
      StepInv(s0, Data(chunk));
      if !connected {
        return;
      }
      lastCode := ExtractCode(chunk);
      ghost var code := lastCode;
      ghost var s1 := s0.(lastCode := code);
      assert State() == s1;
      if lastCode.None? || lastCode.value == 0 {
        SendNext();
        assert State() == Advanced(s1);
      } else if lastCode.value == 220 || lastCode.value == 250 || lastCode.value == 251 {
        SendNext();
        assert State() == Advanced(s1);
      } else if lastCode.value == 502 && cmdIndex == 1 {
        commands := commands[0 := Helo];
        cmdIndex := 0;
        SendNext();
        assert State() == Advanced(s1.(commands := s1.commands[0 := Helo], cmdIndex := 0));
      } else if lastCode.value == 550 || lastCode.value == 551 || lastCode.value == 553 {
        assert Rejection(code.value) == SmtpResult(false, MailboxNotFound, false, lastCode);
        Finish(SmtpResult(false, MailboxNotFound, false, lastCode));
        assert State() == Finished(s1, Rejection(code.value));
      } else if lastCode.value == 421 || lastCode.value == 450 || lastCode.value == 451 || lastCode.value == 452 {
        assert Rejection(code.value) == SmtpResult(false, SmtpError, true, lastCode);
        Finish(SmtpResult(false, SmtpError, true, lastCode));
        assert State() == Finished(s1, Rejection(code.value));
      } else if lastCode.value == 554 {
        assert Rejection(code.value) == SmtpResult(false, SmtpError, true, Some(554));
        Finish(SmtpResult(false, SmtpError, true, Some(554)));
        assert State() == Finished(s1, Rejection(code.value));
      } else if lastCode.value == 552 {
        assert Rejection(code.value) == SmtpResult(true, MailboxFull, false, Some(552));
        Finish(SmtpResult(true, MailboxFull, false, Some(552)));
        assert State() == Finished(s1, Rejection(code.value));
      } else {
        assert Rejection(code.value) == SmtpResult(false, SmtpError, true, lastCode);
        Finish(SmtpResult(false, SmtpError, true, lastCode));
        assert State() == Finished(s1, Rejection(code.value));
      }
    }

    method OnError()
      requires Valid()
      modifies this
      ensures Valid() && State() == Step(old(State()), Error)
    {
      StepInv(State(), Error);
      if !closed {
        Finish(SmtpResult(false, SmtpError, true, None));
      }
    }

    method OnClose()
      requires Valid()
      modifies this
      ensures Valid() && State() == Step(old(State()), Close)
    {
      StepInv(State(), Close);
      if !closed {
        Finish(SmtpResult(false, SmtpError, true, None));
      }
    }

    method OnTimeout()
      requires Valid()
      modifies this
      ensures Valid() && State() == Step(old(State()), Timeout)
    {
      StepInv(State(), Timeout);
      if !closed {
        Finish(SmtpResult(false, SmtpError, true, None));
      }
    }

    method OnEnded()
      requires Valid()
      modifies this
      ensures Valid() && State() == Step(old(State()), Ended)
    {
      writable := false;
    }

    method OnDestroyed()
      requires Valid()
      modifies this
      ensures Valid() && State() == Step(old(State()), Destroyed)
    {
      writable := false;
      destroyed := true;
    }
  }

  // ---------------------------------------------------------------------
  // checkCatchAll: the probe as a transition function
  // ---------------------------------------------------------------------

  /** The synthetic recipient of `checkCatchAll`; `token` stands for the
      timestamp and random text the source puts in it. */
  function FakeEmail(token: string, domain: string): (r: string)
    ensures StartsWith(r, "nonexistent_test_") && EndsWith(r, "@" + domain)
  {
    "nonexistent_test_" + token + "@" + domain
  }

  /** The variables of one `checkCatchAll` call. */
  datatype Probe = Probe(
    connected: bool,
    closed: bool,
    cmdIndex: nat,
    commands: seq<string>,
    writable: bool,
    destroyed: bool,
    written: seq<string>,
    verdict: Option<bool>)

  predicate ProbeWellFormed(p: Probe) { |p.commands| == 3 && p.cmdIndex <= 3 }

  function ProbeStart(sender: string, fakeEmail: string): (p: Probe)
    ensures ProbeWellFormed(p) && p.verdict.None? && p.written == []
  {
    Probe(false, false, 0, [Ehlo, MailFrom(sender), RcptTo(fakeEmail)], true, false, [], None)
  }

  /** `finish(isCatchAll)`: same teardown as `checkSMTP`'s. */
  function ProbeFinished(p: Probe, isCatchAll: bool): (t: Probe)
    ensures t.closed && t.verdict.Some?
    ensures t.verdict == if p.verdict.Some? then p.verdict else Some(isCatchAll)
  {
    var quit := p.writable && !p.destroyed;
    p.(closed := true,
       written := if quit then p.written + [Quit] else p.written,
       writable := p.writable && !quit,
       destroyed := p.destroyed || quit,
       verdict := if p.verdict.Some? then p.verdict else Some(isCatchAll))
  }

  /** The 'data' handler: a success code sends the next command (without
      looking at `writable`) or, after the third, resolves true; every other
      reply, including one without a code, resolves false. */
  function ProbeReplied(p: Probe, chunk: string): (t: Probe)
    requires ProbeWellFormed(p)
    ensures ProbeWellFormed(t) && t.commands == p.commands
  {
    var code := ExtractCode(chunk);
    if code.Some? && IsSuccessCode(code.value) then
      if p.cmdIndex < |p.commands| then
        p.(written := p.written + [p.commands[p.cmdIndex]], cmdIndex := p.cmdIndex + 1)
      else ProbeFinished(p, true)
    else ProbeFinished(p, false)
  }

  function ProbeStep(p: Probe, e: Event): (t: Probe)
    requires ProbeWellFormed(p)
    ensures ProbeWellFormed(t) && t.commands == p.commands
  {
    match e
    case Connect => p.(connected := true)
    case Data(chunk) => if p.connected then ProbeReplied(p, chunk) else p
    case Error => ProbeFinished(p, false)
    case Timeout => ProbeFinished(p, false)
    case Close => if !p.closed then ProbeFinished(p, false) else p
    case Ended => p.(writable := false)
    case Destroyed => p.(writable := false, destroyed := true)
  }

  function ProbeRun(p: Probe, evs: seq<Event>): (t: Probe)
    requires ProbeWellFormed(p)
    ensures ProbeWellFormed(t) && t.commands == p.commands
    decreases |evs|
  {
    if evs == [] then p else ProbeRun(ProbeStep(p, evs[0]), evs[1..])
  }

  /** The invariant of every reachable probe: closed exactly when resolved,
      QUIT written at most once and never while still writable afterwards,
      the commands written in order while open, and a true verdict only
      after all three commands, RCPT TO of the synthetic address included,
      were sent. */
  ghost predicate ProbeInv(p: Probe)
  {
    ProbeWellFormed(p) &&
    Quit !in p.commands &&
    (p.closed <==> p.verdict.Some?) &&
    (p.destroyed ==> !p.writable) &&
    (p.closed ==> !p.writable) &&
    Occurrences(p.written, Quit) <= 1 &&
    (Occurrences(p.written, Quit) == 1 ==> !p.writable) &&
    (!p.closed ==> p.written == p.commands[..p.cmdIndex]) &&
    (p.verdict == Some(true) ==> p.cmdIndex == 3 && |p.written| >= 3 && p.written[..3] == p.commands)
  }

  lemma ProbeStartInv(sender: string, fakeEmail: string)
    ensures ProbeInv(ProbeStart(sender, fakeEmail))
  {
    var p := ProbeStart(sender, fakeEmail);
    assert p.commands[1][0] == 'M' && p.commands[2][0] == 'R';
  }

  lemma ProbeFinishedInv(p: Probe, isCatchAll: bool)
    requires ProbeInv(p)
    requires isCatchAll && p.verdict.None? ==> p.cmdIndex == 3
    ensures ProbeInv(ProbeFinished(p, isCatchAll))
  {
    if p.writable && !p.destroyed {
      OccurrencesAppend(p.written, Quit, Quit);
    }
  }

  lemma {:induction false} ProbeStepInv(p: Probe, e: Event)
    requires ProbeInv(p)
    ensures ProbeInv(ProbeStep(p, e))
  {
    match e
    case Data(chunk) =>
      if p.connected {
        var code := ExtractCode(chunk);
        if code.Some? && IsSuccessCode(code.value) {
          if p.cmdIndex < 3 {
            var c := p.commands[p.cmdIndex];
            OccurrencesAppend(p.written, c, Quit);
            if !p.closed {
              assert p.commands[..p.cmdIndex + 1] == p.commands[..p.cmdIndex] + [c];
            }
          } else {
            ProbeFinishedInv(p, true);
          }
        } else {
          ProbeFinishedInv(p, false);
        }
      }
    case Error => ProbeFinishedInv(p, false);
    case Timeout => ProbeFinishedInv(p, false);
    case Close => if !p.closed { ProbeFinishedInv(p, false); }
    case _ =>
  }

  lemma {:induction false} ProbeRunInv(p: Probe, evs: seq<Event>)
    requires ProbeInv(p)
    ensures ProbeInv(ProbeRun(p, evs))
    decreases |evs|
  {
    if evs != [] {
      ProbeStepInv(p, evs[0]);
      ProbeRunInv(ProbeStep(p, evs[0]), evs[1..]);
    }
  }

  /** A probe answers true only after sending EHLO, MAIL FROM and RCPT TO for
      the synthetic address, and never writes QUIT twice. */
  lemma ProbeTrueMeansAllSent(sender: string, fakeEmail: string, evs: seq<Event>)
    ensures var t := ProbeRun(ProbeStart(sender, fakeEmail), evs);
      (t.verdict == Some(true) ==> |t.written| >= 3 && t.written[..3] == [Ehlo, MailFrom(sender), RcptTo(fakeEmail)])
      && Occurrences(t.written, Quit) <= 1
  {
    ProbeStartInv(sender, fakeEmail);
    ProbeRunInv(ProbeStart(sender, fakeEmail), evs);
  }

  lemma {:induction false} ProbeVerdictIsFinal(p: Probe, evs: seq<Event>)
    requires ProbeWellFormed(p) && p.verdict.Some?
    ensures ProbeRun(p, evs).verdict == p.verdict
    decreases |evs|
  {
    if evs != [] {
      ProbeVerdictIsFinal(ProbeStep(p, evs[0]), evs[1..]);
    }
  }

  /** The outcomes of one event on an open, connected probe. */
  lemma ProbeOutcomes(p: Probe, e: Event)
    requires ProbeInv(p) && p.connected && !p.closed
    ensures e.Data? && ExtractCode(e.chunk).Some? && IsSuccessCode(ExtractCode(e.chunk).value) && p.cmdIndex < 3
      ==> ProbeStep(p, e).verdict.None? && ProbeStep(p, e).cmdIndex == p.cmdIndex + 1
          && ProbeStep(p, e).written == p.written + [p.commands[p.cmdIndex]]
    ensures e.Data? && ExtractCode(e.chunk).Some? && IsSuccessCode(ExtractCode(e.chunk).value) && p.cmdIndex == 3
      ==> ProbeStep(p, e).verdict == Some(true)
    ensures e.Data? && !(ExtractCode(e.chunk).Some? && IsSuccessCode(ExtractCode(e.chunk).value))
      ==> ProbeStep(p, e).verdict == Some(false)
    ensures e == Error || e == Timeout || e == Close ==> ProbeStep(p, e).verdict == Some(false)
  {
  }

  /** After the connection, three success replies send the three commands;
      a fourth success reply means the domain accepted the synthetic
      recipient (catch-all), any other fourth reply means it is not. */
  lemma ProbeScenarios(sender: string, fakeEmail: string, r0: string, r1: string, r2: string, r3: string)
    requires ExtractCode(r0).Some? && IsSuccessCode(ExtractCode(r0).value)
    requires ExtractCode(r1).Some? && IsSuccessCode(ExtractCode(r1).value)
    requires ExtractCode(r2).Some? && IsSuccessCode(ExtractCode(r2).value)
    ensures var t := ProbeRun(ProbeStart(sender, fakeEmail), [Connect, Data(r0), Data(r1), Data(r2), Data(r3)]);
      t.verdict == Some(ExtractCode(r3).Some? && IsSuccessCode(ExtractCode(r3).value))
      && t.written == [Ehlo, MailFrom(sender), RcptTo(fakeEmail), Quit]
  {
    var p0 := ProbeStart(sender, fakeEmail);
    var p1 := ProbeStep(p0, Connect);
    var p2 := ProbeStep(p1, Data(r0));
    var p3 := ProbeStep(p2, Data(r1));
    var p4 := ProbeStep(p3, Data(r2));
    var p5 := ProbeStep(p4, Data(r3));
    assert p4.cmdIndex == 3 && p4.verdict.None? && p4.writable && !p4.destroyed;
    assert p4.written == [Ehlo, MailFrom(sender), RcptTo(fakeEmail)];
    var evs := [Connect, Data(r0), Data(r1), Data(r2), Data(r3)];
    assert ProbeRun(p0, evs) == ProbeRun(p1, evs[1..]);
    assert ProbeRun(p1, evs[1..]) == ProbeRun(p2, evs[2..]);
    assert ProbeRun(p2, evs[2..]) == ProbeRun(p3, evs[3..]);
    assert ProbeRun(p3, evs[3..]) == ProbeRun(p4, evs[4..]);
    assert ProbeRun(p4, evs[4..]) == ProbeRun(p5, []);
  }

  // ---------------------------------------------------------------------
  // checkCatchAll: the probe object
  // ---------------------------------------------------------------------

  /** One `checkCatchAll` call. */
  class CatchAllSession {
    var connected: bool
    var closed: bool
    var cmdIndex: nat
    var commands: seq<string>
    var writable: bool
    var destroyed: bool
    var written: seq<string>
    var verdict: Option<bool>

    function State(): Probe
      reads this
    {
      Probe(connected, closed, cmdIndex, commands, writable, destroyed, written, verdict)
    }

    ghost predicate Valid()
      reads this
    {
      ProbeInv(State())
    }

    constructor (sender: string, domain: string, token: string)
      ensures Valid() && State() == ProbeStart(sender, FakeEmail(token, domain))
    {
      connected, closed := false, false;
      commands := [Ehlo, MailFrom(sender), RcptTo(FakeEmail(token, domain))];
      cmdIndex := 0;
      writable, destroyed := true, false;
      written := [];
      verdict := None;
      ProbeStartInv(sender, FakeEmail(token, domain));
    }

    method Finish(isCatchAll: bool)
      modifies this
      ensures State() == ProbeFinished(old(State()), isCatchAll)
    {
      closed := true;
      if writable && !destroyed {
        written := written + [Quit];
        writable := false;
        destroyed := true;
      }
      if verdict.None? {
        verdict := Some(isCatchAll);
      }
    }

    method OnConnect()
      requires Valid()
      modifies this
      ensures Valid() && State() == ProbeStep(old(State()), Connect)
    {
      connected := true;
    }

    method OnData(chunk: string)
      requires Valid()
      modifies this
      ensures Valid() && State() == ProbeStep(old(State()), Data(chunk))
    {
      ProbeStepInv(State(), Data(chunk));
      if !connected {
        return;
      }
      var code := ExtractCode(chunk);
      if code == Some(220) || code == Some(250) || code == Some(251) {
        if cmdIndex < |commands| {
          written := written + [commands[cmdIndex]];
          cmdIndex := cmdIndex + 1;
        } else {
          Finish(true);
        }
      } else if code == Some(550) || code == Some(551) || code == Some(553) {
        Finish(false);
      } else {
        Finish(false);
      }
    }

    method OnError()
      requires Valid()
      modifies this
      ensures Valid() && State() == ProbeStep(old(State()), Error)
    {
      ProbeStepInv(State(), Error);
      Finish(false);
    }

    method OnTimeout()
      requires Valid()
      modifies this
      ensures Valid() && State() == ProbeStep(old(State()), Timeout)
    {
      ProbeStepInv(State(), Timeout);
      Finish(false);
    }

    method OnClose()
      requires Valid()
      modifies this
      ensures Valid() && State() == ProbeStep(old(State()), Close)
    {
      ProbeStepInv(State(), Close);
      if !closed {
        Finish(false);
      }
    }

    method OnEnded()
      requires Valid()
      modifies this
      ensures Valid() && State() == ProbeStep(old(State()), Ended)
    {
      writable := false;
    }

    method OnDestroyed()
      requires Valid()
      modifies this
      ensures Valid() && State() == ProbeStep(old(State()), Destroyed)
    {
      writable := false;
      destroyed := true;
    }
  }
}
