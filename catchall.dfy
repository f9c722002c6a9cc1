/** Model of the older catch-all probe `isCatchAllDomain` of
    `src/catchAll/catchAll.ts`.

    The probe classifies server text by substrings ('220', '250', '550')
    anywhere in a chunk rather than by reply code, and drives itself through
    three synthetic events: `next` (send the next command or finish),
    `success(isAccepted)` and `fail`, the last registered with `once`. */
module CatchAll {
  import opened Text
  import opened Socket

  const Quit := "quit\r\n"

  function Helo(mxExchange: string): string { "helo " + mxExchange + "\r\n" }

  function MailFrom(sender: string): string { "mail from: <" + sender + ">\r\n" }

  function RcptTo(testEmail: string): string { "rcpt to: <" + testEmail + ">\r\n" }

  /** The probe's recipient. `r1` and `r2` stand for the two random base-36
      strings of the source; the source builds its "local part" as
      `test_<r1>@<r2>` and then appends `@<domain>`, so the address carries
      two '@' signs. */
  function TestEmail(r1: string, r2: string, domain: string): (e: string)
    ensures StartsWith(e, "test_") && EndsWith(e, "@" + domain)
  {
    "test_" + r1 + "@" + r2 + "@" + domain
  }

  lemma TestEmailHasTwoAts(r1: string, r2: string, domain: string)
    requires '@' !in r1 && '@' !in r2 && '@' !in domain
    ensures CountChar(TestEmail(r1, r2, domain), '@') == 2
  {
    CountCharConcat("test_" + r1, "@", '@');
    CountCharConcat("test_" + r1 + "@", r2, '@');
    CountCharConcat("test_" + r1 + "@" + r2, "@", '@');
    CountCharConcat("test_" + r1 + "@" + r2 + "@", domain, '@');
    CountCharConcat("test_", r1, '@');
    CountCharAbsent("test_", '@');
    CountCharAbsent(r1, '@');
    CountCharAbsent(r2, '@');
    CountCharAbsent(domain, '@');
  }

  /** How one data chunk updates `isAccepted`. */
  function Classified(isAccepted: bool, chunk: string): (r: bool)
    ensures Contains(chunk, "250") ==> r
    ensures !Contains(chunk, "250") && !Contains(chunk, "220") && Contains(chunk, "550") ==> !r
    ensures !Contains(chunk, "250") && (Contains(chunk, "220") || !Contains(chunk, "550")) ==> r == isAccepted
  {
    if Contains(chunk, "220") || Contains(chunk, "250") then
      if Contains(chunk, "250") then true else isAccepted
    else if Contains(chunk, "550") then false
    else isAccepted
  }

  /** `isAccepted` after the chunks `chunks`, starting from `start`. */
  function AcceptedAfter(start: bool, chunks: seq<string>): bool
    decreases |chunks|
  {
    if chunks == [] then start else AcceptedAfter(Classified(start, chunks[0]), chunks[1..])
  }

  /** The probe's variables: `closed`, `i`, `isAccepted`, the commands, the
      socket's flags, the lines written, whether the `once('fail')` listener
      is still attached, and the value the promise was resolved with. */
  datatype ProbeState = ProbeState(
    connected: bool,
    closed: bool,
    i: nat,
    isAccepted: bool,
    commands: seq<string>,
    writable: bool,
    destroyed: bool,
    written: seq<string>,
    failArmed: bool,
    resolved: Option<bool>)

  predicate WellFormed(p: ProbeState) { |p.commands| == 3 && p.i <= 3 }

  function Start(sender: string, mxExchange: string, testEmail: string): (p: ProbeState)
    ensures WellFormed(p) && p.resolved.None? && !p.isAccepted && p.failArmed
  {
    ProbeState(false, false, 0, false, [Helo(mxExchange), MailFrom(sender), RcptTo(testEmail)],
               true, false, [], true, None)
  }

  /** The body shared by the 'fail' and 'success' listeners: close, write
      quit and tear down when writable and not destroyed, then resolve (the
      promise keeps its first value). */
  function TornDown(p: ProbeState, v: bool): (t: ProbeState)
    ensures t.closed && t.resolved == if p.resolved.Some? then p.resolved else Some(v)
    ensures t.i == p.i && t.isAccepted == p.isAccepted && t.commands == p.commands
  {
    var quit := p.writable && !p.destroyed;
    p.(closed := true,
       written := if quit then p.written + [Quit] else p.written,
       writable := p.writable && !quit,
       destroyed := p.destroyed || quit,
       resolved := if p.resolved.Some? then p.resolved else Some(v))
  }

  /** `emit('fail')`: handled once, then the listener is gone. */
  function Failed(p: ProbeState): (t: ProbeState)
    ensures !t.failArmed && t.commands == p.commands && t.i == p.i
    ensures p.failArmed ==> t.resolved == if p.resolved.Some? then p.resolved else Some(false)
    ensures !p.failArmed ==> t == p
  {
    if p.failArmed then TornDown(p.(failArmed := false), false) else p
  }

  /** `emit('next')`. */
  function Nexted(p: ProbeState): (t: ProbeState)
    requires WellFormed(p)
    ensures WellFormed(t) && t.commands == p.commands
  {
    if p.i < 3 then
      if p.writable then p.(written := p.written + [p.commands[p.i]], i := p.i + 1)
      else Failed(p)
    else TornDown(p, p.isAccepted)
  }

  function Step(p: ProbeState, e: Event): (t: ProbeState)
    requires WellFormed(p)
    ensures WellFormed(t) && t.commands == p.commands
  {
    match e
    case Connect => p.(connected := true)
    case Data(chunk) => if p.connected then Nexted(p.(isAccepted := Classified(p.isAccepted, chunk))) else p
    case Error => Failed(p)
    case Timeout => Failed(p)
    case Close => if !p.closed then Failed(p) else p
    case Ended => p.(writable := false)
    case Destroyed => p.(writable := false, destroyed := true)
  }

  function Run(p: ProbeState, evs: seq<Event>): (t: ProbeState)
    requires WellFormed(p)
    ensures WellFormed(t) && t.commands == p.commands
    decreases |evs|
  {
    if evs == [] then p else Run(Step(p, evs[0]), evs[1..])
  }

  /** Invariant of every reachable probe state. */
  ghost predicate Inv(p: ProbeState)
  {
    InvCore(p) && (!p.failArmed ==> p.closed)
  }

  /** `Inv` without the clause on the `once('fail')` listener, which holds
      again as soon as the probe is torn down. */
  ghost predicate InvCore(p: ProbeState)
  {
    WellFormed(p) &&
    Quit !in p.commands &&
    (p.closed <==> p.resolved.Some?) &&
    (p.destroyed ==> !p.writable) &&
    (p.closed ==> !p.writable) &&
    Occurrences(p.written, Quit) <= 1 &&
    (Occurrences(p.written, Quit) == 1 ==> !p.writable) &&
    (!p.closed ==> p.written == p.commands[..p.i])
  }

  lemma StartInv(sender: string, mxExchange: string, testEmail: string)
    ensures Inv(Start(sender, mxExchange, testEmail))
  {
    var p := Start(sender, mxExchange, testEmail);
    assert p.commands[0][0] == 'h' && p.commands[1][0] == 'm' && p.commands[2][0] == 'r';
  }

  lemma TornDownInv(p: ProbeState, v: bool)
    requires InvCore(p)
    ensures Inv(TornDown(p, v))
  {
    if p.writable && !p.destroyed {
      OccurrencesAppend(p.written, Quit, Quit);
    }
  }

  lemma NextedInv(p: ProbeState)
    requires Inv(p)
    ensures Inv(Nexted(p))
  {
    if p.i < 3 {
      if p.writable {
        var c := p.commands[p.i];
        OccurrencesAppend(p.written, c, Quit);
        assert p.commands[..p.i + 1] == p.commands[..p.i] + [c];
      } else if p.failArmed {
        TornDownInv(p.(failArmed := false), false);
      }
    } else {
      TornDownInv(p, p.isAccepted);
    }
  }

  lemma {:induction false} StepInv(p: ProbeState, e: Event)
    requires Inv(p)
    ensures Inv(Step(p, e))
  {
    match e
    case Data(chunk) =>
      if p.connected {
        NextedInv(p.(isAccepted := Classified(p.isAccepted, chunk)));
      }
    case Error => if p.failArmed { TornDownInv(p.(failArmed := false), false); }
    case Timeout => if p.failArmed { TornDownInv(p.(failArmed := false), false); }
    case Close => if !p.closed && p.failArmed { TornDownInv(p.(failArmed := false), false); }
    case _ =>
  }

  lemma {:induction false} RunInv(p: ProbeState, evs: seq<Event>)
    requires Inv(p)
    ensures Inv(Run(p, evs))
    decreases |evs|
  {
    if evs != [] {
      StepInv(p, evs[0]);
      RunInv(Step(p, evs[0]), evs[1..]);
    }
  }

  /** Every state the probe can reach: closed exactly when resolved, quit
      written at most once, and the commands sent strictly in order while
      open. */
  lemma ReachableInv(sender: string, mxExchange: string, testEmail: string, evs: seq<Event>)
    ensures Inv(Run(Start(sender, mxExchange, testEmail), evs))
    ensures Occurrences(Run(Start(sender, mxExchange, testEmail), evs).written, Quit) <= 1
  {
    StartInv(sender, mxExchange, testEmail);
    RunInv(Start(sender, mxExchange, testEmail), evs);
  }

  lemma {:induction false} ResolvedIsFinal(p: ProbeState, evs: seq<Event>)
    requires WellFormed(p) && p.resolved.Some?
    ensures Run(p, evs).resolved == p.resolved
    decreases |evs|
  {
    if evs != [] {
      ResolvedIsFinal(Step(p, evs[0]), evs[1..]);
    }
  }

  /** `error`, `timeout`, and `close` while open, all resolve false; so does
      a `next` that finds the socket no longer writable before the third
      command. */
  lemma FailPaths(p: ProbeState, e: Event)
    requires Inv(p) && !p.closed
    ensures e == Error || e == Timeout || e == Close ==> Step(p, e).resolved == Some(false)
    ensures e.Data? && p.connected && p.i < 3 && !p.writable ==> Step(p, e).resolved == Some(false)
  {
  }

  /** Every data event on a connected probe emits `next`, whatever it says. */
  lemma DataAlwaysNexts(p: ProbeState, chunk: string)
    requires WellFormed(p) && p.connected && !p.closed && p.writable && p.i < 3
    ensures Step(p, Data(chunk)).i == p.i + 1
    ensures Step(p, Data(chunk)).written == p.written + [p.commands[p.i]]
    ensures Step(p, Data(chunk)).resolved == p.resolved
  {
  }

  lemma {:induction false} RunOfData(p: ProbeState, chunks: seq<string>, evs: seq<Event>)
    requires WellFormed(p) && p.connected && p.writable && !p.closed && p.i + |chunks| <= 3
    requires |evs| == |chunks| && forall k :: 0 <= k < |evs| ==> evs[k] == Data(chunks[k])
    ensures Run(p, evs).i == p.i + |chunks| && Run(p, evs).writable && !Run(p, evs).closed
    ensures Run(p, evs).connected && Run(p, evs).resolved == p.resolved && Run(p, evs).destroyed == p.destroyed
    ensures Run(p, evs).written == p.written + p.commands[p.i..p.i + |chunks|]
    ensures Run(p, evs).isAccepted == AcceptedAfter(p.isAccepted, chunks)
    decreases |evs|
  {
    if evs != [] {
      var p1 := Step(p, evs[0]);
      RunOfData(p1, chunks[1..], evs[1..]);
      assert p.commands[p.i..p.i + |chunks|] == [p.commands[p.i]] + p.commands[p.i + 1..p.i + |chunks|];
    }
  }

  /** After the connection, four data events on a writable socket send the
      three commands and resolve with `isAccepted` as the four chunks left it. */
  lemma {:induction false} FourChunksResolve(sender: string, mxExchange: string, testEmail: string,
                                             c0: string, c1: string, c2: string, c3: string)
    ensures var t := Run(Start(sender, mxExchange, testEmail), [Connect, Data(c0), Data(c1), Data(c2), Data(c3)]);
      t.resolved == Some(AcceptedAfter(false, [c0, c1, c2, c3]))
      && t.written == [Helo(mxExchange), MailFrom(sender), RcptTo(testEmail), Quit]
  {
    var p0 := Start(sender, mxExchange, testEmail);
    var p1 := Step(p0, Connect);
    var evs := [Connect, Data(c0), Data(c1), Data(c2), Data(c3)];
    RunOfData(p1, [c0, c1, c2], [Data(c0), Data(c1), Data(c2)]);
    var p4 := Run(p1, [Data(c0), Data(c1), Data(c2)]);
    RunAppend(p1, [Data(c0), Data(c1), Data(c2)], [Data(c3)]);
    assert [Data(c0), Data(c1), Data(c2)] + [Data(c3)] == evs[1..];
    assert Run(p0, evs) == Run(p1, evs[1..]);
    assert Run(p4, [Data(c3)]) == Step(p4, Data(c3));
    assert AcceptedAfter(false, [c0, c1, c2, c3]) == Classified(AcceptedAfter(false, [c0, c1, c2]), c3) by {
      AcceptedAfterSnoc(false, [c0, c1, c2], c3);
      assert [c0, c1, c2] + [c3] == [c0, c1, c2, c3];
    }
    assert p1.commands[0..3] == p1.commands;
  }

  lemma {:induction false} AcceptedAfterSnoc(start: bool, chunks: seq<string>, last: string)
    ensures AcceptedAfter(start, chunks + [last]) == Classified(AcceptedAfter(start, chunks), last)
    decreases |chunks|
  {
    if chunks == [] {
      assert chunks + [last] == [last];
    } else {
      assert (chunks + [last])[1..] == chunks[1..] + [last];
      AcceptedAfterSnoc(Classified(start, chunks[0]), chunks[1..], last);
    }
  }

  lemma {:induction false} RunAppend(p: ProbeState, a: seq<Event>, b: seq<Event>)
    requires WellFormed(p)
    ensures Run(p, a + b) == Run(Run(p, a), b)
    decreases |a|
  {
    if a == [] {
      assert a + b == b;
    } else {
      assert (a + b)[0] == a[0] && (a + b)[1..] == a[1..] + b;
      RunAppend(Step(p, a[0]), a[1..], b);
    }
  }

  /** Substring classification: a chunk holding both '550' and '250'
      counts as accepted. */
  lemma MixedChunkAccepts()
    ensures Classified(false, "550 rejected, see 250")
  {
    assert OccursAt("550 rejected, see 250", "250", 18);
    ContainsIffOccurs("550 rejected, see 250", "250");
  }

  /** A final reply that holds none of '220', '250' and '550' keeps the true
      value left by an earlier 250 reply, whatever the first two replies. */
  lemma {:induction false} NeutralLastReplyKeepsAcceptance(sender: string, mxExchange: string, testEmail: string,
                                                           c0: string, c1: string, c2: string, c3: string)
    requires Contains(c2, "250")
    requires !Contains(c3, "220") && !Contains(c3, "250") && !Contains(c3, "550")
    ensures Run(Start(sender, mxExchange, testEmail), [Connect, Data(c0), Data(c1), Data(c2), Data(c3)]).resolved
            == Some(true)
  {
    AcceptedAfterLastTwo([c0, c1], c2, c3);
    assert [c0, c1] + [c2, c3] == [c0, c1, c2, c3];
    FourChunksResolve(sender, mxExchange, testEmail, c0, c1, c2, c3);
  }

  /** So a probe whose RCPT TO is answered 553 still resolves true. */
  lemma RejectedRcptStillAccepts(sender: string, mxExchange: string, testEmail: string)
    ensures Run(Start(sender, mxExchange, testEmail),
                [Connect, Data("220 ready"), Data("250 hello"), Data("250 ok"), Data("553 bad address")]).resolved
            == Some(true)
  {
    LastReplyIsNeutral();
    assert StartsWith("250 ok", "250");
    NeutralLastReplyKeepsAcceptance(sender, mxExchange, testEmail, "220 ready", "250 hello", "250 ok", "553 bad address");
  }

  /** A chunk holding '250' followed by one holding none of the three
      substrings leaves the probe accepted, whatever came before. */
  lemma AcceptedAfterLastTwo(prefix: seq<string>, c2: string, c3: string)
    requires Contains(c2, "250")
    requires !Contains(c3, "220") && !Contains(c3, "250") && !Contains(c3, "550")
    ensures AcceptedAfter(false, prefix + [c2, c3])
  {
    AcceptedAfterSnoc(false, prefix, c2);
    AcceptedAfterSnoc(false, prefix + [c2], c3);
    assert prefix + [c2] + [c3] == prefix + [c2, c3];
  }

  /** "553 bad address" contains none of the three substrings. */
  lemma LastReplyIsNeutral()
    ensures !Contains("553 bad address", "220")
    ensures !Contains("553 bad address", "250")
    ensures !Contains("553 bad address", "550")
  {
    var s := "553 bad address";
    assert '2' !in s && '0' !in s;
    if Contains(s, "220") { ContainedCharsOccur(s, "220", '2'); }
    if Contains(s, "250") { ContainedCharsOccur(s, "250", '2'); }
    if Contains(s, "550") { ContainedCharsOccur(s, "550", '0'); }
  }

  /** One `isCatchAllDomain` call: its listeners are the methods. */
  class CatchAllProbe {
    var connected: bool
    var closed: bool
    var i: nat
    var isAccepted: bool
    var commands: seq<string>
    var writable: bool
    var destroyed: bool
    var written: seq<string>
    var failArmed: bool
    var resolved: Option<bool>

    function State(): ProbeState
      reads this
    {
      ProbeState(connected, closed, i, isAccepted, commands, writable, destroyed, written, failArmed, resolved)
    }

    ghost predicate Valid()
      reads this
    {
      Inv(State())
    }

    constructor (sender: string, domain: string, mxExchange: string, r1: string, r2: string)
      ensures Valid() && State() == Start(sender, mxExchange, TestEmail(r1, r2, domain))
    {
      connected, closed := false, false;
      i, isAccepted := 0, false;
      commands := [Helo(mxExchange), MailFrom(sender), RcptTo(TestEmail(r1, r2, domain))];
      writable, destroyed := true, false;
      written := [];
      failArmed := true;
      resolved := None;
      StartInv(sender, mxExchange, TestEmail(r1, r2, domain));
    }

    /** The `once('fail')` listener. */
    method Fail()
      modifies this
      ensures State() == Failed(old(State()))
    {
      if !failArmed {
        return;
      }
      failArmed := false;
      closed := true;
      if writable && !destroyed {
        written := written + [Quit];
        writable := false;
        destroyed := true;
      }
      if resolved.None? {
        resolved := Some(false);
      }
    }

    /** The `on('success')` listener. */
    method Success(isCatchAll: bool)
      modifies this
      ensures State() == TornDown(old(State()), isCatchAll)
    {
      closed := true;
      if writable && !destroyed {
        written := written + [Quit];
        writable := false;
        destroyed := true;
      }
      if resolved.None? {
        resolved := Some(isCatchAll);
      }
    }

    /** The `on('next')` listener. */
    method Next()
      requires WellFormed(State())
      modifies this
      ensures State() == Nexted(old(State()))
    {
      if i < 3 {
        if writable {
          written := written + [commands[i]];
          i := i + 1;
        } else {
          Fail();
        }
      } else {
        Success(isAccepted);
      }
    }

    method OnConnect()
      requires Valid()
      modifies this
      ensures Valid() && State() == Step(old(State()), Connect)
    {
      connected := true;
    }

    method OnData(chunk: string)
      requires Valid()
      modifies this
      ensures Valid() && State() == Step(old(State()), Data(chunk))
    {
      StepInv(State(), Data(chunk));
      if !connected {
        return;
      }
      if Contains(chunk, "220") || Contains(chunk, "250") {
        if Contains(chunk, "250") {
          isAccepted := true;
        }
        Next();
      } else if Contains(chunk, "550") {
        isAccepted := false;
        Next();
      } else {
        Next();
      }
    }

    method OnError()
      requires Valid()
      modifies this
      ensures Valid() && State() == Step(old(State()), Error)
    {
      StepInv(State(), Error);
      Fail();
    }

    method OnClose()
      requires Valid()
      modifies this
      ensures Valid() && State() == Step(old(State()), Close)
    {
      StepInv(State(), Close);
      if !closed {
        Fail();
      }
    }

    method OnTimeout()
      requires Valid()
      modifies this
      ensures Valid() && State() == Step(old(State()), Timeout)
    {
      StepInv(State(), Timeout);
      Fail();
    }

    method OnEnded()
      requires Valid()
      modifies this
      ensures Valid() && State() == Step(old(State()), Ended)
    {
      writable := false;
    }

    method OnDestroyed()
      requires Valid()
      modifies this
      ensures Valid() && State() == Step(old(State()), Destroyed)
    {
      writable := false;
      destroyed := true;
    }
  }
}
