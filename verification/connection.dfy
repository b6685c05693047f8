/**
  The pacing loop of `ConnectionSocket::send_data`, as a state machine.

  Each pass of its `while (1)` body makes one line, sends it, and either
  throws (the send returned a negative value) or sleeps `WaitTime` seconds.
  The values the successive `send` calls return are an input sequence; the
  loop is followed for as many passes as that sequence has values. The input
  `reason` is the `strerror(errno)` text at the moment the error message is
  built; calls made after the failing `send` may have changed `errno` by then.
 */
module Connection {
  import opened Logger
  import opened Lines

  /** Seconds slept after each successful send (`WAIT_TIME`). */
  const WaitTime: nat := 5
  const DisconnectMessage: string := "Client disconnected"
  const SendErrorPrefix: string := "Error sending message to client: "

  /** Still inside the loop, or left it by throwing `runtime_error(what)`. */
  datatype Status = Alive | Threw(what: string)

  /**
    A session as far as it has run: its status, every line passed to `send`
    (the failed one included), seconds slept, the next unread `rand()` draw,
    and the log calls made.
   */
  datatype Session = Session(status: Status, sent: seq<string>, slept: nat, next: nat, log: seq<Entry>)

  /** A session that has not yet entered the loop, with `rand()` at draw `pos`. */
  function Start(pos: nat): Session
  {
    Session(Alive, [], 0, pos, [])
  }

  /** Index of the first negative send result, or `|results|` when there is none. */
  function FirstFailure(results: seq<int>): (k: nat)
    ensures k <= |results|
    ensures forall i :: 0 <= i < k ==> results[i] >= 0
    ensures k < |results| ==> results[k] < 0
  {
    if results == [] then 0
    else if results[0] < 0 then 0
    else 1 + FirstFailure(results[1..])
  }

  /** One pass of the loop body, given what `send` returns; a session that threw is finished. */
  function Step(rand: Rand, s: Session, result: int, reason: string): (t: Session)
    ensures s.status.Threw? ==> t == s
    ensures s.status.Alive? ==> |t.sent| == |s.sent| + 1 && t.sent[..|s.sent|] == s.sent
    ensures s.status.Alive? ==> IsTarpitLine(t.sent[|s.sent|])
    ensures s.status.Alive? ==> (t.status.Alive? <==> result >= 0)
  {
    if s.status.Threw? then s
    else
      var g := MakeLine(rand, s.next);
      var u := s.(sent := s.sent + [g.line], next := g.next);
      if result < 0 then
        u.(status := Threw(SendErrorPrefix + reason), log := s.log + [Entry(INFO, DisconnectMessage)])
      else
        u.(slept := s.slept + WaitTime)
  }

  /** The loop run over successive send results. */
  function Run(rand: Rand, s: Session, results: seq<int>, reason: string): Session
    decreases |results|
  {
    if results == [] then s else Run(rand, Step(rand, s, results[0], reason), results[1..], reason)
  }

  /** Once a session has thrown, no further send result is consulted. */
  lemma {:induction false} RunAfterThrow(rand: Rand, s: Session, results: seq<int>, reason: string)
    requires s.status.Threw?
    ensures Run(rand, s, results, reason) == s
    decreases |results|
  {
    if results != [] {
      RunAfterThrow(rand, Step(rand, s, results[0], reason), results[1..], reason);
    }
  }

  /**
    Running from a live session: it throws exactly when some result is
    negative, after one send per result up to and including the first
    negative one.
   */
  lemma {:induction false} RunSends(rand: Rand, s: Session, results: seq<int>, reason: string)
    requires s.status.Alive?
    ensures var t := Run(rand, s, results, reason); var k := FirstFailure(results);
      && (t.status.Threw? <==> k < |results|)
      && |t.sent| == |s.sent| + (if k < |results| then k + 1 else |results|)
    decreases |results|
  {
    if results != [] {
      var u := Step(rand, s, results[0], reason);
      if results[0] < 0 {
        RunAfterThrow(rand, u, results[1..], reason);
      } else {
        RunSends(rand, u, results[1..], reason);
        assert FirstFailure(results) == 1 + FirstFailure(results[1..]);
      }
    }
  }

  /** Running keeps the lines already sent and sends only lines of the tarpit's shape. */
  lemma {:induction false} RunLines(rand: Rand, s: Session, results: seq<int>, reason: string)
    ensures var t := Run(rand, s, results, reason);
      && |s.sent| <= |t.sent|
      && t.sent[..|s.sent|] == s.sent
      && (forall i :: |s.sent| <= i < |t.sent| ==> IsTarpitLine(t.sent[i]))
    decreases |results|
  {
    if results != [] {
      var u := Step(rand, s, results[0], reason);
      RunLines(rand, u, results[1..], reason);
      var t := Run(rand, u, results[1..], reason);
      assert t.sent[..|s.sent|] == t.sent[..|u.sent|][..|s.sent|];
      forall i | |s.sent| <= i < |u.sent|
        ensures IsTarpitLine(t.sent[i])
      {
        assert t.sent[i] == t.sent[..|u.sent|][i] == u.sent[i];
      }
    }
  }

  /** Running from a live session sleeps once per successful send, and never after the failure. */
  lemma {:induction false} RunSleeps(rand: Rand, s: Session, results: seq<int>, reason: string)
    requires s.status.Alive?
    ensures Run(rand, s, results, reason).slept == s.slept + WaitTime * FirstFailure(results)
    decreases |results|
  {
    if results != [] {
      var u := Step(rand, s, results[0], reason);
      if results[0] < 0 {
        RunAfterThrow(rand, u, results[1..], reason);
      } else {
        RunSleeps(rand, u, results[1..], reason);
      }
    }
  }

  /**
    Running from a live session logs nothing while it stays alive; when it
    throws, it has logged the disconnection once and the thrown message
    carries the error text.
   */
  lemma {:induction false} RunReports(rand: Rand, s: Session, results: seq<int>, reason: string)
    requires s.status.Alive?
    ensures var t := Run(rand, s, results, reason);
      && (t.status.Threw? ==> t.status.what == SendErrorPrefix + reason && t.log == s.log + [Entry(INFO, DisconnectMessage)])
      && (t.status.Alive? ==> t.log == s.log)
    decreases |results|
  {
    if results != [] {
      var u := Step(rand, s, results[0], reason);
      if results[0] < 0 {
        RunAfterThrow(rand, u, results[1..], reason);
      } else {
        RunReports(rand, u, results[1..], reason);
      }
    }
  }

  /**
    `send_data` on a fresh connection, followed through `|results|` passes.
    It never leaves the loop except by throwing: the session is still alive
    exactly when every result was consumed without a negative one.
   */
  function SendData(rand: Rand, pos: nat, results: seq<int>, reason: string): (t: Session)
    ensures var k := FirstFailure(results);
      && (t.status.Threw? <==> k < |results|)
      && (t.status.Alive? <==> |t.sent| == |results| && forall i :: 0 <= i < |results| ==> results[i] >= 0)
      && |t.sent| == (if k < |results| then k + 1 else |results|)
      && (forall i :: 0 <= i < |t.sent| ==> IsTarpitLine(t.sent[i]))
      && t.slept == WaitTime * k
      && (t.status.Threw? ==> t.status.what == SendErrorPrefix + reason && t.log == [Entry(INFO, DisconnectMessage)])
      && (t.status.Alive? ==> t.log == [])
  {
    RunSends(rand, Start(pos), results, reason);
    RunLines(rand, Start(pos), results, reason);
    RunSleeps(rand, Start(pos), results, reason);
    RunReports(rand, Start(pos), results, reason);
    Run(rand, Start(pos), results, reason)
  }

  /** The results after the first negative one are never looked at: no send follows the failure. */
  lemma {:induction false} NoSendAfterFailure(rand: Rand, s: Session, results: seq<int>, reason: string)
    requires FirstFailure(results) < |results|
    ensures Run(rand, s, results, reason) == Run(rand, s, results[..FirstFailure(results) + 1], reason)
    decreases |results|
  {
    var k := FirstFailure(results);
    var u := Step(rand, s, results[0], reason);
    assert results[..k + 1][0] == results[0];
    if results[0] < 0 {
      RunAfterThrow(rand, u, results[1..], reason);
      RunAfterThrow(rand, u, results[..k + 1][1..], reason);
    } else {
      NoSendAfterFailure(rand, u, results[1..], reason);
      assert results[..k + 1][1..] == results[1..][..FirstFailure(results[1..]) + 1];
    }
  }

  /**
    Only the sign of each send result matters: a short write, a full write and
    a zero-byte write all continue the loop alike.
   */
  lemma {:induction false} OnlySignMatters(rand: Rand, s: Session, a: seq<int>, b: seq<int>, reason: string)
    requires |a| == |b|
    requires forall i :: 0 <= i < |a| ==> (a[i] < 0 <==> b[i] < 0)
    ensures Run(rand, s, a, reason) == Run(rand, s, b, reason)
    decreases |a|
  {
    if a != [] {
      assert Step(rand, s, a[0], reason) == Step(rand, s, b[0], reason);
      OnlySignMatters(rand, Step(rand, s, a[0], reason), a[1..], b[1..], reason);
    }
  }

  /** A send that returns 0 counts as a success: the session goes on exactly as after a 1-byte write. */
  lemma ZeroIsSuccess(rand: Rand, pos: nat, rest: seq<int>, reason: string)
    ensures SendData(rand, pos, [0] + rest, reason) == SendData(rand, pos, [1] + rest, reason)
    ensures SendData(rand, pos, [0], reason).status == Alive
  {
  }
}
