/** The writer that puts a prefix before each line of a byte stream that arrives in pieces. */
module Writer {

  newtype byte = b: int | 0 <= b < 256

  const NEWLINE: byte := 10

  type Bytes = seq<byte>

  /** What comes before the next byte. */
  function Lead(prefix: Bytes, atLine: bool): Bytes {
    if atLine then prefix else []
  }

  /** The output for `p`, where `atLine` says that a new line starts here. */
  function Render(prefix: Bytes, atLine: bool, p: Bytes): Bytes
    decreases |p|
  {
    if p == [] then [] else Lead(prefix, atLine) + ([p[0]] + Render(prefix, p[0] == NEWLINE, p[1..]))
  }

  /** Does a new line start after `p`? */
  function LineAfter(atLine: bool, p: Bytes): bool {
    if p == [] then atLine else p[|p| - 1] == NEWLINE
  }

  lemma Regroup(lead: Bytes, b: byte, tail: Bytes, after: Bytes)
    ensures lead + ([b] + (tail + after)) == (lead + ([b] + tail)) + after
  {
  }

  lemma LineAfterTail(atLine: bool, p: Bytes)
    requires p != []
    ensures LineAfter(p[0] == NEWLINE, p[1..]) == LineAfter(atLine, p)
  {
  }

  lemma LineAfterBoth(atLine: bool, p: Bytes, q: Bytes)
    ensures LineAfter(atLine, p + q) == LineAfter(LineAfter(atLine, p), q)
  {
    assert q == [] ==> p + q == p;
  }

  lemma {:induction false} RenderAppend(prefix: Bytes, atLine: bool, p: Bytes, q: Bytes)
    ensures Render(prefix, atLine, p + q) == Render(prefix, atLine, p) + Render(prefix, LineAfter(atLine, p), q)
    ensures LineAfter(atLine, p + q) == LineAfter(LineAfter(atLine, p), q)
    decreases |p|
  {
    LineAfterBoth(atLine, p, q);
    if p == [] {
      assert p + q == q;
    } else {
      assert (p + q)[1..] == p[1..] + q;
      RenderAppend(prefix, p[0] == NEWLINE, p[1..], q);
      LineAfterTail(atLine, p);
      hide LineAfter;
      var after := Render(prefix, LineAfter(atLine, p), q);
      Regroup(Lead(prefix, atLine), p[0], Render(prefix, p[0] == NEWLINE, p[1..]), after);
      hide Lead;
    }
  }

  /** A piece with no newline before its last byte gets no prefix inside. */
  lemma {:induction false} RenderPiece(prefix: Bytes, p: Bytes)
    requires forall k :: 0 <= k < |p| - 1 ==> p[k] != NEWLINE
    ensures Render(prefix, false, p) == p
    decreases |p|
  {
    if |p| == 1 {
      assert Render(prefix, p[0] == NEWLINE, p[1..]) == [];
    } else if p != [] {
      RenderPiece(prefix, p[1..]);
    }
  }

  /** The rendering of a piece is the piece, after the prefix if a line starts there. */
  lemma RenderOpened(prefix: Bytes, atLine: bool, p: Bytes)
    requires p != [] && forall k :: 0 <= k < |p| - 1 ==> p[k] != NEWLINE
    ensures Render(prefix, atLine, p) == Lead(prefix, atLine) + p
  {
    RenderPiece(prefix, p);
    var line := [p[0]] + Render(prefix, p[0] == NEWLINE, p[1..]);
    assert Render(prefix, false, p) == [] + line == line;
  }

  function Joined(pieces: seq<Bytes>): Bytes {
    if pieces == [] then [] else pieces[0] + Joined(pieces[1..])
  }

  /** The output of one write for each piece, in order. */
  function RenderAll(prefix: Bytes, atLine: bool, pieces: seq<Bytes>): Bytes
    decreases |pieces|
  {
    if pieces == [] then []
    else Render(prefix, atLine, pieces[0]) + RenderAll(prefix, LineAfter(atLine, pieces[0]), pieces[1..])
  }

  /** However the stream is cut into pieces, the output is that of a single write. */
  lemma {:induction false} PiecesDoNotMatter(prefix: Bytes, atLine: bool, pieces: seq<Bytes>)
    ensures RenderAll(prefix, atLine, pieces) == Render(prefix, atLine, Joined(pieces))
    decreases |pieces|
  {
    if pieces != [] {
      PiecesDoNotMatter(prefix, LineAfter(atLine, pieces[0]), pieces[1..]);
      RenderAppend(prefix, atLine, pieces[0], Joined(pieces[1..]));
    }
  }

  /** The output with the prefix of each line taken away. */
  function Stripped(prefix: Bytes, atLine: bool, out: Bytes): Bytes
    decreases |out|
  {
    var rest := if atLine && prefix <= out then out[|prefix|..] else out;
    if rest == [] then [] else [rest[0]] + Stripped(prefix, rest[0] == NEWLINE, rest[1..])
  }

  /** Taking the prefixes away gives the input back. */
  lemma {:induction false} StripRender(prefix: Bytes, atLine: bool, p: Bytes)
    ensures Stripped(prefix, atLine, Render(prefix, atLine, p)) == p
    decreases |p|
  {
    if p != [] {
      var tail := Render(prefix, p[0] == NEWLINE, p[1..]);
      var line := [p[0]] + tail;
      var out := Lead(prefix, atLine) + line;
      assert line[1..] == tail;
      if atLine {
        assert out[..|prefix|] == prefix && out[|prefix|..] == line;
      } else {
        assert out == line;
      }
      StripRender(prefix, p[0] == NEWLINE, p[1..]);
      assert p == [p[0]] + p[1..];
    }
  }

  /**
   Line by line: a line with its newline comes out after the prefix, or as it is if it was begun before,
   and what follows it starts a line; a last line without a newline comes out the same way.
   */
  lemma RenderByLines(prefix: Bytes, line: Bytes, rest: Bytes)
    requires NEWLINE !in line
    ensures Render(prefix, true, (line + [10]) + rest) == prefix + (line + [10]) + Render(prefix, true, rest)
    ensures Render(prefix, false, (line + [10]) + rest) == (line + [10]) + Render(prefix, true, rest)
    ensures Render(prefix, true, line) == if line == [] then [] else prefix + line
    ensures Render(prefix, false, line) == line
  {
    RenderAppend(prefix, true, line + [10], rest);
    RenderAppend(prefix, false, line + [10], rest);
    RenderOpened(prefix, true, line + [10]);
    RenderOpened(prefix, false, line + [10]);
    if line != [] {
      RenderOpened(prefix, true, line);
      RenderOpened(prefix, false, line);
      assert [] + line == line;
    }
    assert [] + (line + [10]) == line + [10];
  }

  /** The rendering of a leading part is a leading part of the rendering. */
  lemma Split(prefix: Bytes, atLine: bool, input: Bytes, n: nat)
    requires n <= |input|
    ensures Render(prefix, atLine, input[..n]) <= Render(prefix, atLine, input)
  {
    assert input == input[..n] + input[n..];
    RenderAppend(prefix, atLine, input[..n], input[n..]);
  }

  /** One more piece, up to and with the next newline, adds the lead and the piece. */
  lemma NextPiece(prefix: Bytes, atLine: bool, input: Bytes, n: nat, size: nat)
    requires n + size <= |input| && 0 < size
    requires forall k :: n <= k < n + size - 1 ==> input[k] != NEWLINE
    ensures Render(prefix, atLine, input[..n + size]) ==
            Render(prefix, atLine, input[..n]) + (Lead(prefix, LineAfter(atLine, input[..n])) + input[n..n + size])
    ensures LineAfter(atLine, input[..n + size]) == (input[n + size - 1] == NEWLINE)
  {
    var piece := input[n..n + size];
    assert input[..n + size] == input[..n] + piece;
    RenderAppend(prefix, atLine, input[..n], piece);
    RenderOpened(prefix, LineAfter(atLine, input[..n]), piece);
    hide Render;
    hide Lead;
  }

  /** The sink holds what it had at the start and the rendering of `done`. */
  ghost predicate Wrote(start: Bytes, prefix: Bytes, line: bool, done: Bytes, data: Bytes) {
    data == start + Render(prefix, line, done)
  }

  lemma WroteNothing(start: Bytes, prefix: Bytes, line: bool)
    ensures Wrote(start, prefix, line, [], start)
  {
  }

  /** The sink holds the rendering of `written` bytes, and `m` bytes of the prefix of a line that starts there. */
  predicate BreaksAt(start: Bytes, prefix: Bytes, line: bool, input: Bytes, written: nat, data: Bytes, m: nat) {
    && written <= |input| && m <= |prefix|
    && (m > 0 ==> written < |input| && LineAfter(line, input[..written]))
    && data == start + Render(prefix, line, input[..written]) + prefix[..m]
  }

  /** Exactly `written` bytes of the input reached the sink, in a leading part of the whole output. */
  ghost predicate Partly(start: Bytes, prefix: Bytes, line: bool, input: Bytes, written: nat, data: Bytes) {
    && (exists m: nat :: BreaksAt(start, prefix, line, input, written, data, m))
    && data <= start + Render(prefix, line, input)
  }

  lemma WroteAll(start: Bytes, prefix: Bytes, line: bool, input: Bytes, data: Bytes)
    requires Wrote(start, prefix, line, input, data)
    ensures data == start + Render(prefix, line, input)
    ensures Partly(start, prefix, line, input, |input|, data)
  {
    assert input[..|input|] == input;
    PartlyAt(start, prefix, line, input, |input|, data);
  }

  predicate OneLine(input: Bytes, n: nat, size: nat) {
    n + size <= |input| && 0 < size && forall k :: n <= k < n + size - 1 ==> input[k] != NEWLINE
  }

  lemma NothingYet(line: bool)
    ensures LineAfter(line, []) == line
  {
  }

  /** Up to and with the first newline of the rest is one line. */
  lemma NextLine(line: bool, input: Bytes, n: nat, size: nat, index: int)
    requires n < |input|
    requires index == -1 ==> NEWLINE !in input[n..] && size == |input| - n
    requires index != -1 ==>
      0 <= index < |input| - n && input[n..][index] == NEWLINE && NEWLINE !in input[n..][..index] && size == index + 1
    ensures OneLine(input, n, size) && input[n..][..size] == input[n..n + size]
    ensures n + size <= |input| && LineAfter(line, input[..n + size]) == (index != -1)
    ensures index == -1 ==> input[..n + size] == input
    ensures input[n..][size..] == input[n + size..]
  {
    assert input[..n + size][n + size - 1] == input[n..][size - 1];
    forall k | n <= k < n + size - 1 ensures input[k] != NEWLINE {
      if index == -1 {
        assert input[n..][k - n] == input[k];
      } else {
        assert input[n..][..index][k - n] == input[k];
      }
    }
  }

  lemma LeadIs(prefix: Bytes, before: Bytes, mid: Bytes, atLine: bool)
    requires mid == if atLine then before + prefix else before
    ensures mid == before + Lead(prefix, atLine)
  {
  }

  /** A line written completely: the lead, and then the line. */
  lemma WroteNext(start: Bytes, prefix: Bytes, line: bool, input: Bytes, n: nat, size: nat,
                  before: Bytes, mid: Bytes, after: Bytes)
    requires OneLine(input, n, size) && Wrote(start, prefix, line, input[..n], before)
    requires mid == before + Lead(prefix, LineAfter(line, input[..n])) && after == mid + input[n..n + size]
    ensures Wrote(start, prefix, line, input[..n + size], after)
  {
    NextPiece(prefix, line, input, n, size);
  }

  lemma Between(start: Bytes, done: Bytes, part: Bytes, next: Bytes, whole: Bytes)
    requires part <= next && done + next <= whole
    ensures (start + done) + part <= start + whole
  {
    assert (start + done) + part == start + (done + part);
  }

  /** Exactly the first `n` bytes have been rendered. */
  lemma PartlyAt(start: Bytes, prefix: Bytes, line: bool, input: Bytes, n: nat, after: Bytes)
    requires n <= |input| && after == start + Render(prefix, line, input[..n])
    ensures Partly(start, prefix, line, input, n, after)
  {
    Split(prefix, line, input, n);
    hide Render;
    assert after == after + prefix[..0];
    assert BreaksAt(start, prefix, line, input, n, after, 0);
  }

  /** The prefix of the next line broke off. */
  lemma BrokenLead(start: Bytes, prefix: Bytes, line: bool, input: Bytes, n: nat, size: nat,
                   before: Bytes, got: nat, after: Bytes)
    requires OneLine(input, n, size) && Wrote(start, prefix, line, input[..n], before)
    requires LineAfter(line, input[..n]) && got <= |prefix| && after == before + prefix[..got]
    ensures Partly(start, prefix, line, input, n, after)
  {
    NextPiece(prefix, line, input, n, size);
    Split(prefix, line, input, n + size);
    assert Lead(prefix, LineAfter(line, input[..n])) == prefix;
    hide Render;
    hide Lead;
    hide LineAfter;
    var next := prefix + input[n..n + size];
    Between(start, Render(prefix, line, input[..n]), prefix[..got], next, Render(prefix, line, input));
    assert BreaksAt(start, prefix, line, input, n, after, got);
  }

  /** The next line itself broke off, after its lead. */
  lemma BrokenLine(start: Bytes, prefix: Bytes, line: bool, input: Bytes, n: nat, size: nat,
                   before: Bytes, mid: Bytes, got: nat, after: Bytes)
    requires OneLine(input, n, size) && Wrote(start, prefix, line, input[..n], before) && got <= size
    requires mid == before + Lead(prefix, LineAfter(line, input[..n])) && after == mid + input[n..n + size][..got]
    ensures Partly(start, prefix, line, input, n + got, after)
  {
    hide Render;
    assert input[n..n + size][..got] == input[n..n + got];
    if got > 0 {
      WroteNext(start, prefix, line, input, n, got, before, mid, after);
      PartlyAt(start, prefix, line, input, n + got, after);
    } else if LineAfter(line, input[..n]) {
      assert after == before + prefix[..|prefix|];
      BrokenLead(start, prefix, line, input, n, size, before, |prefix|, after);
    } else {
      assert after == before;
      PartlyAt(start, prefix, line, input, n, after);
    }
  }

  /** Does a line start after the bytes written, with its prefix not yet complete? */
  predicate LeadOwed(start: Bytes, prefix: Bytes, line: bool, input: Bytes, written: nat, data: Bytes)
    requires written <= |input|
  {
    LineAfter(line, input[..written]) && |data| < |start| + |Render(prefix, line, input[..written])| + |prefix|
  }

  lemma OwedLead(start: Bytes, prefix: Bytes, line: bool, input: Bytes, n: nat, before: Bytes, got: nat, after: Bytes)
    requires n <= |input| && Wrote(start, prefix, line, input[..n], before)
    requires LineAfter(line, input[..n]) && got < |prefix| && after == before + prefix[..got]
    ensures LeadOwed(start, prefix, line, input, n, after)
  {
    hide Render;
  }

  lemma OwedLine(start: Bytes, prefix: Bytes, line: bool, input: Bytes, n: nat, size: nat,
                 before: Bytes, mid: Bytes, got: nat, after: Bytes)
    requires OneLine(input, n, size) && Wrote(start, prefix, line, input[..n], before) && got < size
    requires mid == before + Lead(prefix, LineAfter(line, input[..n])) && after == mid + input[n..n + size][..got]
    ensures !LeadOwed(start, prefix, line, input, n + got, after)
  {
    hide Render;
    if got > 0 {
      assert input[..n + got][n + got - 1] == input[n + got - 1];
    }
  }

  /** A destination that takes `room` more bytes, or any number if there is no limit, and then fails. */
  class Sink {
    var data: Bytes
    const limited: bool
    var room: nat

    constructor (limited: bool, room: nat)
      ensures data == [] && this.limited == limited && this.room == room
    {
      data := [];
      this.limited := limited;
      this.room := room;
    }

    method Write(p: Bytes) returns (n: nat, failed: bool)
      modifies this
      ensures n <= |p| && data == old(data) + p[..n]
      ensures failed <==> n < |p|
      ensures !failed ==> data == old(data) + p
      ensures !limited ==> n == |p|
    {
      n := if limited && room < |p| then room else |p|;
      data := data + p[..n];
      assert n == |p| ==> p[..n] == p;
      if limited {
        room := room - n;
      }
      failed := n < |p|;
    }
  }

  method IndexOfNewline(p: Bytes) returns (index: int)
    ensures index == -1 ==> NEWLINE !in p
    ensures index != -1 ==> 0 <= index < |p| && p[index] == NEWLINE && NEWLINE !in p[..index]
  {
    for k := 0 to |p|
      invariant NEWLINE !in p[..k]
    {
      if p[k] == NEWLINE {
        return k;
      }
      assert p[..k + 1] == p[..k] + [p[k]];
    }
    assert p[..|p|] == p;
    return -1;
  }

  class PrefixedWriter {
    const sink: Sink
    const prefix: Bytes
    var atLineUp: bool

    constructor (sink: Sink, prefix: Bytes)
      ensures this.sink == sink && this.prefix == prefix && atLineUp
    {
      this.sink := sink;
      this.prefix := prefix;
      atLineUp := true;
    }

    /**
     Without a failure the sink gets the rendering of the input. The result counts the input bytes that
     reached the sink, prefixes not counted, also when the sink fails; the next write then starts with a
     prefix exactly if one was owed and not completed.
     */
    method Write(input: Bytes) returns (written: nat, failed: bool)
      modifies this, sink
      ensures !failed ==> sink.data == old(sink.data) + Render(prefix, old(atLineUp), input)
      ensures !failed ==> atLineUp == LineAfter(old(atLineUp), input) && written == |input|
      ensures Partly(old(sink.data), prefix, old(atLineUp), input, written, sink.data)
      ensures written <= |input|
      ensures failed ==> (atLineUp <==> LeadOwed(old(sink.data), prefix, old(atLineUp), input, written, sink.data))
      ensures !sink.limited ==> !failed
    {
      hide Render;
      hide Wrote;
      hide Partly;
      hide LeadOwed;
      hide OneLine;
      hide LineAfter;
      hide Lead;
      written := 0;
      NothingYet(atLineUp);
      var p := input;
      ghost var start, line := sink.data, atLineUp;
      WroteNothing(start, prefix, line);
      while p != []
        invariant written <= |input| && p == input[written..]
        invariant Wrote(start, prefix, line, input[..written], sink.data)
        invariant atLineUp == LineAfter(line, input[..written])
        decreases |p|
      {
        ghost var before, n0 := sink.data, written;
        var index := IndexOfNewline(p);
        var size := if index == -1 then |p| else index + 1;
        var chunk := p[..size];
        NextLine(line, input, n0, size, index);
        if atLineUp {
          var n, bad := sink.Write(prefix);
          if bad {
            BrokenLead(start, prefix, line, input, n0, size, before, n, sink.data);
            OwedLead(start, prefix, line, input, n0, before, n, sink.data);
            return written, true;
          }
          atLineUp := false;
        }
        ghost var mid := sink.data;
        LeadIs(prefix, before, mid, LineAfter(line, input[..n0]));
        var n, bad := sink.Write(chunk);
        written := written + n;
        if bad {
          BrokenLine(start, prefix, line, input, n0, size, before, mid, n, sink.data);
          OwedLine(start, prefix, line, input, n0, size, before, mid, n, sink.data);
          return written, true;
        }
        WroteNext(start, prefix, line, input, n0, size, before, mid, sink.data);
        if index == -1 {
          WroteAll(start, prefix, line, input, sink.data);
          return written, false;
        }
        atLineUp := true;
        p := p[size..];
      }
      assert input[..written] == input;
      WroteAll(start, prefix, line, input, sink.data);
      return written, false;
    }
  }
}
