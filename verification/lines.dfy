/**
  The line generator of `ConnectionSocket::make_line`: a payload of 10 to 39
  printable ASCII characters, its first character changed to 'X' when it would
  start like a real SSH identification string, then CRLF.

  The C library's `rand()` is not modelled as a generator: its successive
  results are an input stream `rand`, where `rand(i)` is the value of the i-th
  call, and `make_line` starts reading that stream at a given position.
 */
module Lines {

  /** The values returned by successive calls of `rand()`. */
  type Rand = nat -> nat

  /** Shortest payload: the `+ 10` of the length draw. */
  const MinPayload: nat := 10
  /** Number of possible payload lengths: the `% 30` of the length draw. */
  const PayloadSpan: nat := 30
  const MaxPayload: nat := MinPayload + PayloadSpan - 1

  /** First printable ASCII code (space): the `32 +` of a character draw. */
  const FirstPrintable: nat := 32
  /** Number of printable ASCII codes: the `% 95` of a character draw. */
  const PrintableCount: nat := 95
  const LastPrintable: nat := FirstPrintable + PrintableCount - 1

  /** The prefix of a genuine SSH identification line. */
  const Banner: string := "SSH-"
  /** The character written over the first one of a colliding payload. */
  const Replacement: char := 'X'
  const Crlf: string := "\r\n"

  predicate IsPrintable(c: char) {
    FirstPrintable <= c as int <= LastPrintable
  }

  /** True when `s` starts with "SSH-" (the `rfind("SSH-", 0) == 0` test). */
  predicate StartsWithBanner(s: string) {
    Banner <= s
  }

  /** What every payload satisfies: its length range, its alphabet, and no banner prefix. */
  predicate IsPayload(p: string) {
    && MinPayload <= |p| <= MaxPayload
    && (forall i :: 0 <= i < |p| ==> IsPrintable(p[i]))
    && !StartsWithBanner(p)
  }

  /** A line as the tarpit sends it: a payload followed by CRLF. */
  predicate IsTarpitLine(line: string) {
    |line| >= |Crlf| && line[|line| - |Crlf|..] == Crlf && IsPayload(line[..|line| - |Crlf|])
  }

  /** Payload length chosen by one draw: `rand() % 30 + 10`. */
  function PayloadLength(draw: nat): (n: nat)
    ensures MinPayload <= n <= MaxPayload
  {
    draw % PayloadSpan + MinPayload
  }

  /** Character chosen by one draw: `char(32 + rand() % 95)`. */
  function PrintableChar(draw: nat): (c: char)
    ensures IsPrintable(c)
  {
    (FirstPrintable + draw % PrintableCount) as char
  }

  /** Every length in range is chosen by some draw. */
  lemma PayloadLengthOnto(n: nat)
    requires MinPayload <= n <= MaxPayload
    ensures PayloadLength(n - MinPayload) == n
  {
  }

  /** Every printable character is chosen by some draw. */
  lemma PrintableCharOnto(c: char)
    requires IsPrintable(c)
    ensures PrintableChar(c as int - FirstPrintable) == c
  {
  }

  /**
    The characters appended by the `for` loop of `make_line`, one per draw,
    reading `count` draws from position `from` on.
   */
  function Chars(rand: Rand, from: nat, count: nat): (s: string)
    ensures |s| == count
    ensures forall i :: 0 <= i < count ==> s[i] == PrintableChar(rand(from + i))
    decreases count
  {
    if count == 0 then [] else Chars(rand, from, count - 1) + [PrintableChar(rand(from + count - 1))]
  }

  /** The collision rewrite: a payload starting with "SSH-" gets 'X' as its first character. */
  function Defang(p: string): (r: string)
    ensures |r| == |p|
    ensures !StartsWithBanner(r)
    ensures StartsWithBanner(p) ==> r[..|Banner|] == "XSH-"
    ensures !StartsWithBanner(p) ==> r == p
    ensures forall i :: 0 < i < |p| ==> r[i] == p[i]
  {
    if StartsWithBanner(p) then
      var r := p[0 := Replacement];
      assert r[0] != Banner[0];
      r
    else p
  }

  /** Rewriting twice is rewriting once. */
  lemma DefangIdempotent(p: string)
    ensures Defang(Defang(p)) == Defang(p)
  {
  }

  /** The rewrite leaves a string alone exactly when it does not start with "SSH-". */
  lemma DefangFixedPoints(p: string)
    ensures Defang(p) == p <==> !StartsWithBanner(p)
  {
  }

  /** A generated line and the position of the first draw it left unread. */
  datatype Generated = Generated(line: string, next: nat)

  /**
    `make_line`, reading the length draw at `pos` and one character draw per
    payload character after it.
   */
  function MakeLine(rand: Rand, pos: nat): (g: Generated)
    ensures IsTarpitLine(g.line)
    ensures g.next == pos + 1 + (|g.line| - |Crlf|)
    ensures |g.line| - |Crlf| == PayloadLength(rand(pos))
    ensures forall i :: 0 < i < |g.line| - |Crlf| ==> g.line[i] == PrintableChar(rand(pos + 1 + i))
  {
    var n := PayloadLength(rand(pos));
    var line := Defang(Chars(rand, pos + 1, n)) + Crlf;
    assert line[..n] == Defang(Chars(rand, pos + 1, n));
    Generated(line, pos + 1 + n)
  }

  /**
    The first character of a line is its own draw, unless the first four
    draws spell "SSH-", in which case it is 'X'.
   */
  lemma MakeLineFirstChar(rand: Rand, pos: nat)
    ensures var drawn := Chars(rand, pos + 1, |Banner|);
      MakeLine(rand, pos).line[0] == if drawn == Banner then Replacement else drawn[0]
  {
  }

  /** Draws that make `MakeLine` at `pos` produce the payload `p` unchanged. */
  function DrawsFor(p: string, pos: nat): Rand
    requires IsPayload(p)
  {
    i =>
      if i == pos then |p| - MinPayload
      else if pos < i <= pos + |p| then p[i - pos - 1] as int - FirstPrintable
      else 0
  }

  /**
    The converse of `MakeLine`'s contract: every line of the tarpit's shape is
    produced by some sequence of draws, so that contract describes the
    generator's outputs exactly.
   */
  lemma MakeLineComplete(line: string, pos: nat)
    requires IsTarpitLine(line)
    ensures MakeLine(DrawsFor(line[..|line| - |Crlf|], pos), pos).line == line
  {
    var p := line[..|line| - |Crlf|];
    var rand := DrawsFor(p, pos);
    PayloadLengthOnto(|p|);
    var raw := Chars(rand, pos + 1, |p|);
    forall i | 0 <= i < |p|
      ensures raw[i] == p[i]
    {
      assert rand(pos + 1 + i) == p[i] as int - FirstPrintable;
      PrintableCharOnto(p[i]);
    }
    assert raw == p;
    assert p + Crlf == line;
  }
}
