/**
  The accept loop of `main`: accept a connection, run `send_data` on it, and
  print the message of any `runtime_error` to standard error before accepting
  again. Socket creation, `bind` and `listen` are outside the model; each
  pass of the loop is described by a `Client`.
 */
module Server {
  import opened Logger
  import Lines
  import Connection

  const AcceptingPrefix: string := "Accepting connection from "
  const SocketMessage: string := "Creating additional socket for connection"
  const AcceptErrorPrefix: string := "Error accepting connection: "

  /**
    What the outside world contributes to one pass of the loop: the value
    `accept` returns, the address text `inet_ntop` writes, the values the
    session's `send` calls return, and the `strerror(errno)` text at the
    moment the error message is built (after the logging calls that may have
    changed `errno`).
   */
  datatype Client = Client(fd: int, peer: string, sends: seq<int>, reason: string)

  /**
    The accept loop as far as it has run: the next unread `rand()` draw, the
    log calls, the lines written to standard error, the connection
    descriptors closed, and whether it is still inside a session that has not
    thrown (and so accepts nobody else).
   */
  datatype Loop = Loop(next: nat, log: seq<Entry>, stderr: seq<string>, closed: seq<int>, busy: bool)

  function Start(pos: nat): Loop
  {
    Loop(pos, [], [], [], false)
  }

  /** True when the client's pass ends: `accept` fails or some send fails. */
  predicate Ends(c: Client) {
    c.fd < 0 || Connection.FirstFailure(c.sends) < |c.sends|
  }

  /** The line the `catch` block prints for a client whose pass ends. */
  function Report(c: Client): string {
    if c.fd < 0 then AcceptErrorPrefix + c.reason else Connection.SendErrorPrefix + c.reason
  }

  function Reports(cs: seq<Client>): (r: seq<string>)
    ensures |r| == |cs|
    ensures forall i :: 0 <= i < |cs| ==> r[i] == Report(cs[i])
  {
    if cs == [] then [] else [Report(cs[0])] + Reports(cs[1..])
  }

  /** The descriptors of the clients `accept` succeeded for, in order. */
  function Accepted(cs: seq<Client>): (r: seq<int>)
    ensures |r| <= |cs|
    ensures forall i :: 0 <= i < |r| ==> r[i] >= 0
  {
    if cs == [] then []
    else if cs[0].fd < 0 then Accepted(cs[1..])
    else [cs[0].fd] + Accepted(cs[1..])
  }

  /**
    One pass of the `while (1)` body of `main`. `accept_connection` logs the
    peer before it checks the result of `accept`; a failure there throws
    before any `ConnectionSocket` exists, so nothing is closed. A session that
    throws is unwound, which closes its descriptor, and its message is
    printed. A session that has not thrown keeps the loop busy.
   */
  function Serve(rand: Lines.Rand, st: Loop, c: Client): (t: Loop)
    ensures st.busy ==> t == st
    ensures !st.busy ==> (t.busy <==> !Ends(c))
    ensures !st.busy ==> |t.log| > |st.log| && t.log[..|st.log| + 1] == st.log + [Entry(INFO, AcceptingPrefix + c.peer)]
    ensures !st.busy && Ends(c) ==> t.stderr == st.stderr + [Report(c)]
    ensures !st.busy && Ends(c) ==> t.closed == st.closed + (if c.fd < 0 then [] else [c.fd])
    ensures !st.busy && !Ends(c) ==> t.stderr == st.stderr && t.closed == st.closed
  {
    if st.busy then st
    else
      var log := st.log + [Entry(INFO, AcceptingPrefix + c.peer)];
      if c.fd < 0 then
        st.(log := log, stderr := st.stderr + [AcceptErrorPrefix + c.reason])
      else
        var s := Connection.SendData(rand, st.next, c.sends, c.reason);
        var log' := log + [Entry(DEBUG, SocketMessage)] + s.log;
        assert log'[..|st.log| + 1] == log;
        match s.status
        case Threw(what) => Loop(s.next, log', st.stderr + [what], st.closed + [c.fd], false)
        case Alive => Loop(s.next, log', st.stderr, st.closed, true)
  }

  /** The loop over successive clients. */
  function RunLoop(rand: Lines.Rand, st: Loop, cs: seq<Client>): Loop
    decreases |cs|
  {
    if cs == [] then st else RunLoop(rand, Serve(rand, st, cs[0]), cs[1..])
  }

  lemma AppendAssociative<T>(a: seq<T>, b: seq<T>, c: seq<T>)
    ensures a + (b + c) == a + b + c
  {
  }

  /** A busy loop stays in its session: later clients are never accepted. */
  lemma {:induction false} BusyLoopIgnoresClients(rand: Lines.Rand, st: Loop, cs: seq<Client>)
    requires st.busy
    ensures RunLoop(rand, st, cs) == st
    decreases |cs|
  {
    if cs != [] {
      BusyLoopIgnoresClients(rand, Serve(rand, st, cs[0]), cs[1..]);
    }
  }

  /**
    Per-connection errors never stop the server: when every pass ends in an
    error, the loop is ready for another client and has printed one report per
    client, in order.
   */
  lemma {:induction false} LoopSurvivesErrors(rand: Lines.Rand, st: Loop, cs: seq<Client>)
    requires !st.busy
    requires forall i :: 0 <= i < |cs| ==> Ends(cs[i])
    ensures var t := RunLoop(rand, st, cs); !t.busy && t.stderr == st.stderr + Reports(cs)
    decreases |cs|
  {
    if cs != [] {
      var u := Serve(rand, st, cs[0]);
      assert Ends(cs[0]);
      assert RunLoop(rand, st, cs) == RunLoop(rand, u, cs[1..]);
      assert forall i :: 0 <= i < |cs[1..]| ==> Ends(cs[1..][i]);
      LoopSurvivesErrors(rand, u, cs[1..]);
      assert u.stderr == st.stderr + [Report(cs[0])];
      assert Reports(cs) == [Report(cs[0])] + Reports(cs[1..]);
      AppendAssociative(st.stderr, [Report(cs[0])], Reports(cs[1..]));
    }
  }

  /**
    When every pass ends in an error, the loop has closed exactly the
    descriptors `accept` returned, each once, in order.
   */
  lemma {:induction false} LoopClosesAccepted(rand: Lines.Rand, st: Loop, cs: seq<Client>)
    requires !st.busy
    requires forall i :: 0 <= i < |cs| ==> Ends(cs[i])
    ensures RunLoop(rand, st, cs).closed == st.closed + Accepted(cs)
    decreases |cs|
  {
    if cs != [] {
      var u := Serve(rand, st, cs[0]);
      assert Ends(cs[0]);
      assert RunLoop(rand, st, cs) == RunLoop(rand, u, cs[1..]);
      assert forall i :: 0 <= i < |cs[1..]| ==> Ends(cs[1..][i]);
      LoopClosesAccepted(rand, u, cs[1..]);
      if cs[0].fd < 0 {
        assert u.closed == st.closed && Accepted(cs) == Accepted(cs[1..]);
      } else {
        assert u.closed == st.closed + [cs[0].fd];
        assert Accepted(cs) == [cs[0].fd] + Accepted(cs[1..]);
        AppendAssociative(st.closed, [cs[0].fd], Accepted(cs[1..]));
      }
    }
  }

  /**
    The loop is single-threaded: the first client whose session never throws
    holds it, and no client after that one is ever accepted.
   */
  lemma {:induction false} SessionBlocksLaterClients(rand: Lines.Rand, st: Loop, cs: seq<Client>, k: nat)
    requires !st.busy
    requires k < |cs| && !Ends(cs[k])
    requires forall i :: 0 <= i < k ==> Ends(cs[i])
    ensures RunLoop(rand, st, cs) == RunLoop(rand, st, cs[..k + 1])
    ensures RunLoop(rand, st, cs).busy
    decreases k
  {
    var u := Serve(rand, st, cs[0]);
    assert cs[..k + 1][0] == cs[0];
    if k == 0 {
      BusyLoopIgnoresClients(rand, u, cs[1..]);
      BusyLoopIgnoresClients(rand, u, cs[..1][1..]);
    } else {
      SessionBlocksLaterClients(rand, u, cs[1..], k - 1);
      assert cs[..k + 1][1..] == cs[1..][..k];
    }
  }
}
