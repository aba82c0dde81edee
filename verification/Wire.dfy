/** Messages as lines over a stream (internal/api/wire.go): what is read does not
    depend on how the reader's buffer cuts the stream up. */
module Wire {
  import opened Wrappers
  import opened Text

  const MAX_MESSAGE: nat := 1048576
  const NEWLINE: Byte := 10
  const RETURN: Byte := 13

  type Bytes = seq<Byte>

  /** How a stream ends: cleanly, or with a failure. */
  datatype End = Eof | Broken

  datatype Outcome = Line(body: Bytes) | TooLong | Ended(end: End)

  // ------------------------------------------------------------ what a line is

  /** Where the first newline is; the length when there is none. */
  function Newline(s: Bytes): (k: nat)
    ensures k <= |s| && NEWLINE !in s[..k] && (k < |s| ==> s[k] == NEWLINE)
  {
    if s == [] then 0
    else if s[0] == NEWLINE then 0
    else
      var k := Newline(s[1..]);
      assert s[..k + 1] == [s[0]] + s[1..][..k];
      k + 1
  }

  /** Without one carriage return at the end. */
  function Trimmed(s: Bytes): Bytes {
    if s != [] && s[|s| - 1] == RETURN then s[..|s| - 1] else s
  }

  /** The first line of a stream: up to the first newline, else all of it. */
  function FirstLine(s: Bytes, end: End): Outcome {
    var k := Newline(s);
    if k < |s| then if k + 1 > MAX_MESSAGE then TooLong else Line(Trimmed(s[..k]))
    else if |s| >= MAX_MESSAGE then TooLong
    else if s != [] && end == Eof then Line(Trimmed(s))
    else Ended(end)
  }

  /** What is left after the first line. */
  function AfterLine(s: Bytes): Bytes { if Newline(s) < |s| then s[Newline(s) + 1..] else [] }

  // ------------------------------------------------------------------- reader

  datatype Stop = Found | BufferFull | AtEnd

  /** A buffered reader over a stream. */
  class Reader {
    const end: End
    /** What was not read yet. */
    var rest: Bytes

    constructor (s: Bytes, end: End)
      ensures rest == s && this.end == end
    {
      rest, this.end := s, end;
    }

    /** Reads up to a newline, or what the buffer holds before one: cut anywhere. */
    method ReadSlice() returns (frag: Bytes, stop: Stop)
      modifies this`rest
      ensures old(rest) == frag + rest
      ensures stop == Found ==> frag != [] && frag[|frag| - 1] == NEWLINE && NEWLINE !in frag[..|frag| - 1]
      ensures stop == BufferFull ==> frag != [] && NEWLINE !in frag
      ensures stop == AtEnd ==> rest == [] && NEWLINE !in frag
    {
      var k := Newline(rest);
      var cut: nat := *;
      if 0 < cut <= k {
        frag, stop := rest[..cut], BufferFull;
        forall i | 0 <= i < cut ensures rest[i] != NEWLINE { assert rest[i] == rest[..k][i]; }
        rest := rest[cut..];
      } else if k < |rest| {
        frag, stop := rest[..k + 1], Found;
        assert frag[..|frag| - 1] == rest[..k];
        rest := rest[k + 1..];
      } else {
        frag, stop := rest, AtEnd;
        assert rest[..k] == rest;
        rest := [];
      }
    }
  }

  lemma NewlineIs(s: Bytes, k: nat)
    requires k <= |s| && NEWLINE !in s[..k] && (k < |s| ==> s[k] == NEWLINE)
    ensures Newline(s) == k
  {
    var n := Newline(s);
    forall i | 0 <= i < k ensures s[i] != NEWLINE { assert s[i] == s[..k][i]; }
    forall i | 0 <= i < n ensures s[i] != NEWLINE { assert s[i] == s[..n][i]; }
  }

  /** Messages, one a line. */
  class Conn {
    const r: Reader
    var sent: Bytes

    constructor (r: Reader)
      ensures this.r == r && sent == []
    {
      this.r, sent := r, [];
    }

    /** Reads one line, and nothing past its newline. */
    method ReadLine() returns (res: Outcome)
      modifies r`rest
      ensures res == FirstLine(old(r.rest), r.end)
      ensures res.Line? ==> r.rest == AfterLine(old(r.rest))
    {
      var line: Bytes := [];
      ghost var s := r.rest;
      while true
        invariant s == line + r.rest && NEWLINE !in line && |line| < MAX_MESSAGE
        decreases |r.rest|
      {
        ghost var before := r.rest;
        var frag, stop := r.ReadSlice();
        Grows(s, line, before, frag, r.rest, stop);
        var more := line + frag;
        if |more| > MAX_MESSAGE || (stop != Found && |more| >= MAX_MESSAGE) {
          TooLongIs(s, more, r.rest, stop, r.end);
          return TooLong;
        }
        line := more;
        if stop == Found {
          FoundIs(s, line, r.rest, r.end);
          return Line(Trimmed(line[..|line| - 1]));
        }
        if stop == AtEnd {
          assert line == s;
          EndIs(s, r.end);
          if r.end == Eof && line != [] { return Line(Trimmed(line)); }
          return Ended(r.end);
        }
      }
    }

    /** Writes a message's encoding as one line. */
    method Write(b: Bytes) returns (ok: bool)
      modifies this`sent
      ensures ok ==> |b| < MAX_MESSAGE && sent == old(sent) + b + [NEWLINE]
      ensures |b| >= MAX_MESSAGE ==> !ok && sent == old(sent)
    {
      if |b| >= MAX_MESSAGE { return false; }
      var fails: bool := *;
      if fails {
        var part: Bytes := *;
        sent := sent + part;
        return false;
      }
      sent := sent + b + [NEWLINE];
      ok := true;
    }
  }

  /** What was read so far, with the next slice. */
  lemma Grows(s: Bytes, line: Bytes, before: Bytes, frag: Bytes, rest: Bytes, stop: Stop)
    requires s == line + before && NEWLINE !in line && before == frag + rest
    requires if stop == Found then frag != [] && frag[|frag| - 1] == NEWLINE && NEWLINE !in frag[..|frag| - 1] else NEWLINE !in frag
    ensures s == (line + frag) + rest
    ensures var more := line + frag;
      if stop == Found then more != [] && more[|more| - 1] == NEWLINE && NEWLINE !in more[..|more| - 1] else NEWLINE !in more
  {
    if stop == Found { assert (line + frag)[..|line + frag| - 1] == line + frag[..|frag| - 1]; }
  }

  /** A line that has grown too long is too long however it was cut. */
  lemma TooLongIs(s: Bytes, line: Bytes, rest: Bytes, stop: Stop, end: End)
    requires s == line + rest && |line| >= MAX_MESSAGE && (stop == Found ==> |line| > MAX_MESSAGE)
    requires if stop == Found then line[|line| - 1] == NEWLINE && NEWLINE !in line[..|line| - 1] else NEWLINE !in line
    ensures FirstLine(s, end) == TooLong
  {
    var n := if stop == Found then |line| - 1 else |line|;
    forall i | 0 <= i < n ensures s[i] != NEWLINE { assert s[i] == line[i] == line[..n][i]; }
    assert line[..|line|] == line;
  }

  lemma FoundIs(s: Bytes, line: Bytes, rest: Bytes, end: End)
    requires s == line + rest && line != [] && |line| <= MAX_MESSAGE
    requires line[|line| - 1] == NEWLINE && NEWLINE !in line[..|line| - 1]
    ensures FirstLine(s, end) == Line(Trimmed(line[..|line| - 1]))
    ensures AfterLine(s) == rest
  {
    assert s[..|line| - 1] == line[..|line| - 1];
    NewlineIs(s, |line| - 1);
  }

  lemma EndIs(s: Bytes, end: End)
    requires NEWLINE !in s && |s| < MAX_MESSAGE
    ensures FirstLine(s, end) == if s != [] && end == Eof then Line(Trimmed(s)) else Ended(end)
    ensures AfterLine(s) == []
  {
    assert s[..|s|] == s;
    NewlineIs(s, |s|);
  }

  // ---------------------------------------------------------------- round trip

  /** What survives framing: no newline in it, no carriage return at its end. */
  predicate Framable(b: Bytes) { |b| < MAX_MESSAGE && NEWLINE !in b && Trimmed(b) == b }

  function Framed(bodies: seq<Bytes>): Bytes {
    if bodies == [] then [] else bodies[0] + [NEWLINE] + Framed(bodies[1..])
  }

  /** The lines of a stream, as far as they can be read. */
  function Lines(s: Bytes, end: End): seq<Bytes>
    decreases |s|
  {
    var first := FirstLine(s, end);
    if first.Line? then
      assert s != [];
      [first.body] + Lines(AfterLine(s), end)
    else []
  }

  /** A body that is written is read back unchanged exactly when it is framable. */
  lemma ReadBackWhen(b: Bytes, rest: Bytes, end: End)
    ensures FirstLine(b + [NEWLINE] + rest, end) == Line(b) && AfterLine(b + [NEWLINE] + rest) == rest <==> Framable(b)
  {
    var s := b + [NEWLINE] + rest;
    if NEWLINE !in b {
      assert s[..|b|] == b && s[|b| + 1..] == rest;
      NewlineIs(s, |b|);
    } else {
      var k := Newline(b);
      assert b[..|b|] == b;
      assert s[..k] == b[..k];
      NewlineIs(s, k);
      assert |Trimmed(s[..k])| < |b|;
    }
  }

  /** Any sequence of framable bodies is read back, unchanged and in order. */
  lemma {:induction false} RoundTrip(bodies: seq<Bytes>, end: End)
    requires forall b | b in bodies :: Framable(b)
    ensures Lines(Framed(bodies), end) == bodies
  {
    if bodies != [] {
      ReadBackWhen(bodies[0], Framed(bodies[1..]), end);
      RoundTrip(bodies[1..], end);
    }
  }

  lemma LinesStep(s: Bytes, end: End, bodies: seq<Bytes>)
    ensures var first := FirstLine(s, end);
      bodies + Lines(s, end) == if first.Line? then (bodies + [first.body]) + Lines(AfterLine(s), end) else bodies
    ensures FirstLine(s, end).Line? ==> |AfterLine(s)| < |s|
  {}

  /** Reads messages until the stream ends; over what a peer wrote, all of them. */
  method ReadAll(c: Conn) returns (bodies: seq<Bytes>, last: Outcome)
    modifies c.r`rest
    ensures bodies == Lines(old(c.r.rest), c.r.end) && !last.Line?
  {
    bodies := [];
    ghost var all := Lines(c.r.rest, c.r.end);
    while true
      invariant all == bodies + Lines(c.r.rest, c.r.end)
      decreases |c.r.rest|
    {
      LinesStep(c.r.rest, c.r.end, bodies);
      last := c.ReadLine();
      if !last.Line? { return; }
      bodies := bodies + [last.body];
    }
  }
}
