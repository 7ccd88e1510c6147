/** Framing of the event stream: lines end at CR or LF, empty lines are dropped, and chunk borders do not matter. */
module LineFraming {
  import opened Options

  newtype byte = x: int | 0 <= x < 256

  const CR: byte := 13
  const LF: byte := 10

  predicate Ends(b: byte) {
    b == CR || b == LF
  }

  /** The pieces that a terminator ends, and what follows the last terminator. */
  datatype Split = Split(pieces: seq<seq<byte>>, rest: seq<byte>)

  function SplitOf(s: seq<byte>): Split {
    if s == [] then Split([], [])
    else
      var t := SplitOf(s[1..]);
      if Ends(s[0]) then Split([[]] + t.pieces, t.rest)
      else if t.pieces == [] then Split([], [s[0]] + t.rest)
      else Split([[s[0]] + t.pieces[0]] + t.pieces[1..], t.rest)
  }

  function NonEmpty(ps: seq<seq<byte>>): seq<seq<byte>> {
    if ps == [] then [] else (if ps[0] == [] then [] else [ps[0]]) + NonEmpty(ps[1..])
  }

  /** The lines of a whole stream, and its unfinished last line. */
  function Lines(s: seq<byte>): seq<seq<byte>> {
    NonEmpty(SplitOf(s).pieces)
  }

  function Residual(s: seq<byte>): seq<byte> {
    SplitOf(s).rest
  }

  // ----- how the split grows with the stream

  lemma {:induction false} SplitSnoc(s: seq<byte>, b: byte)
    ensures SplitOf(s + [b]) ==
            if Ends(b) then Split(SplitOf(s).pieces + [SplitOf(s).rest], [])
            else Split(SplitOf(s).pieces, SplitOf(s).rest + [b])
  {
    if s == [] {
      assert (s + [b])[1..] == [];
    } else {
      assert (s + [b])[1..] == s[1..] + [b];
      SplitSnoc(s[1..], b);
    }
  }

  lemma {:induction false} NonEmptySnoc(ps: seq<seq<byte>>, p: seq<byte>)
    ensures NonEmpty(ps + [p]) == NonEmpty(ps) + if p == [] then [] else [p]
  {
    if ps == [] {
      assert (ps + [p])[1..] == [];
    } else {
      assert (ps + [p])[1..] == ps[1..] + [p];
      NonEmptySnoc(ps[1..], p);
    }
  }

  lemma GrowByOne(s: seq<byte>, b: byte)
    ensures Ends(b) ==> Residual(s + [b]) == []
    ensures Ends(b) ==> Lines(s + [b]) == Lines(s) + if Residual(s) == [] then [] else [Residual(s)]
    ensures !Ends(b) ==> Residual(s + [b]) == Residual(s) + [b] && Lines(s + [b]) == Lines(s)
  {
    SplitSnoc(s, b);
    NonEmptySnoc(SplitOf(s).pieces, SplitOf(s).rest);
  }

  /** A stream read in two parts: the second part only needs the residual of the first. */
  lemma {:induction false} ReadInTwoParts(a: seq<byte>, b: seq<byte>)
    ensures Lines(a + b) == Lines(a) + Lines(Residual(a) + b)
    ensures Residual(a + b) == Residual(Residual(a) + b)
    decreases |b|
  {
    if b == [] {
      assert a + b == a && Residual(a) + b == Residual(a);
      ResidualHasNoLines(a);
    } else {
      var n := |b| - 1;
      ReadInTwoParts(a, b[..n]);
      assert a + b == (a + b[..n]) + [b[n]];
      assert Residual(a) + b == (Residual(a) + b[..n]) + [b[n]];
      GrowByOne(a + b[..n], b[n]);
      GrowByOne(Residual(a) + b[..n], b[n]);
    }
  }

  lemma {:induction false} NoEndsOneLine(s: seq<byte>)
    requires forall i :: 0 <= i < |s| ==> !Ends(s[i])
    ensures SplitOf(s) == Split([], s)
  {
    if s == [] {
    } else {
      NoEndsOneLine(s[1..]);
    }
  }

  lemma Unfinished(s: seq<byte>)
    requires forall i :: 0 <= i < |s| ==> !Ends(s[i])
    ensures Lines(s) == [] && Residual(s) == s
  {
    NoEndsOneLine(s);
  }

  lemma {:induction false} ResidualClean(s: seq<byte>)
    ensures forall i :: 0 <= i < |Residual(s)| ==> !Ends(Residual(s)[i])
  {
    if s == [] {
    } else {
      var n := |s| - 1;
      ResidualClean(s[..n]);
      assert s == s[..n] + [s[n]];
      GrowByOne(s[..n], s[n]);
    }
  }

  lemma ResidualHasNoLines(s: seq<byte>)
    ensures Lines(Residual(s)) == [] && Residual(Residual(s)) == Residual(s)
  {
    ResidualClean(s);
    NoEndsOneLine(Residual(s));
  }

  // ----- chunks

  function Concat(chunks: seq<seq<byte>>): seq<byte> {
    if chunks == [] then [] else Concat(chunks[..|chunks| - 1]) + chunks[|chunks| - 1]
  }

  /** Lines and residual after reading chunk by chunk, keeping only the residual between chunks. */
  function ReadChunks(chunks: seq<seq<byte>>): (seq<seq<byte>>, seq<byte>) {
    if chunks == [] then ([], [])
    else
      var (lines, buf) := ReadChunks(chunks[..|chunks| - 1]);
      var s := buf + chunks[|chunks| - 1];
      (lines + Lines(s), Residual(s))
  }

  /** However the stream is cut into chunks, the result is that of the stream in one piece. */
  lemma {:induction false} ChunkingIrrelevant(chunks: seq<seq<byte>>)
    ensures ReadChunks(chunks) == (Lines(Concat(chunks)), Residual(Concat(chunks)))
  {
    if chunks == [] {
    } else {
      var n := |chunks| - 1;
      ChunkingIrrelevant(chunks[..n]);
      ReadInTwoParts(Concat(chunks[..n]), chunks[n]);
    }
  }

  // ----- writing and reading back

  ghost predicate Writable(lines: seq<seq<byte>>) {
    forall k :: 0 <= k < |lines| ==> lines[k] != [] && forall i :: 0 <= i < |lines[k]| ==> !Ends(lines[k][i])
  }

  /** Lines as they are written: each followed by CR LF. */
  function Written(lines: seq<seq<byte>>): seq<byte> {
    if lines == [] then [] else Written(lines[..|lines| - 1]) + lines[|lines| - 1] + [CR] + [LF]
  }

  /** Written lines are read back one for one, with nothing left over. */
  lemma {:induction false} WrittenReadsBack(lines: seq<seq<byte>>)
    requires Writable(lines)
    ensures Lines(Written(lines)) == lines && Residual(Written(lines)) == []
  {
    if lines == [] {
    } else {
      hide Lines, Residual;
      var n := |lines| - 1;
      var before, line := Written(lines[..n]), lines[n];
      WrittenReadsBack(lines[..n]);
      ReadInTwoParts(before, line);
      Unfinished(line);
      assert [] + line == line && lines[..n] + [] + [line] == lines;
      GrowByOne(before + line, CR);
      GrowByOne(before + line + [CR], LF);
    }
  }

  /** What is read back is always writable: non-empty lines without terminators. */
  lemma {:induction false} LinesWritable(s: seq<byte>)
    ensures Writable(Lines(s))
  {
    if s == [] {
    } else {
      var n := |s| - 1;
      LinesWritable(s[..n]);
      ResidualClean(s[..n]);
      assert s == s[..n] + [s[n]];
      GrowByOne(s[..n], s[n]);
    }
  }

  /** The stream without its terminators. */
  function Kept(s: seq<byte>): seq<byte> {
    if s == [] then [] else Kept(s[..|s| - 1]) + if Ends(s[|s| - 1]) then [] else [s[|s| - 1]]
  }

  lemma ConcatSnoc(ls: seq<seq<byte>>, l: seq<byte>)
    ensures Concat(ls + [l]) == Concat(ls) + l
  {
    assert (ls + [l])[..|ls|] == ls;
  }

  /** Nothing is lost or invented: lines and residual together are the stream without its terminators, in order. */
  lemma {:induction false} NothingLost(s: seq<byte>)
    ensures Concat(Lines(s)) + Residual(s) == Kept(s)
  {
    if s == [] {
    } else {
      var n := |s| - 1;
      NothingLost(s[..n]);
      assert s == s[..n] + [s[n]];
      GrowByOne(s[..n], s[n]);
      var ls, r := Lines(s[..n]), Residual(s[..n]);
      ConcatSnoc(ls, r);
      if Ends(s[n]) {
        assert Concat(Lines(s)) == Concat(ls) + r by {
          if r == [] { assert Lines(s) == ls && Concat(ls) + r == Concat(ls); }
        }
      } else {
        assert Concat(ls) + (r + [s[n]]) == Concat(ls) + r + [s[n]];
      }
    }
  }

  // ----- the connection

  class Conn {
    var lines: seq<seq<byte>>
    var buf: seq<byte>
    ghost var received: seq<byte>
    ghost var delivered: seq<seq<byte>>

    /** Everything delivered or waiting is what the stream received so far says. */
    ghost predicate Valid()
      reads this
    {
      delivered + lines == Lines(received) && buf == Residual(received)
    }

    constructor ()
      ensures Valid() && received == [] && delivered == []
    {
      lines, buf, received, delivered := [], [], [], [];
    }

    /** Takes in one chunk from the socket. */
    method Take(s: seq<byte>)
      requires Valid()
      modifies this`lines, this`buf, this`received
      ensures Valid() && received == old(received) + s
      ensures old(lines) <= lines
    {
      var i0, i := 0, 0;
      ghost var base := received;
      assert base + s[..0] == base;
      while i < |s|
        invariant 0 <= i0 <= i <= |s| && received == base
        invariant delivered + lines == Lines(base + s[..i])
        invariant buf + s[i0..i] == Residual(base + s[..i])
        invariant old(lines) <= lines
      {
        assert base + s[..i + 1] == (base + s[..i]) + [s[i]];
        GrowByOne(base + s[..i], s[i]);
        if s[i] == CR || s[i] == LF {
          buf := buf + s[i0..i];
          if buf != [] {
            assert delivered + (lines + [buf]) == (delivered + lines) + [buf];
            lines := lines + [buf];
            buf := [];
          }
          i0 := i + 1;
        } else {
          assert buf + s[i0..i + 1] == (buf + s[i0..i]) + [s[i]];
        }
        i := i + 1;
      }
      buf := buf + s[i0..];
      assert s[..i] == s && s[i0..i] == s[i0..];
      received := received + s;
    }

    /** The next line; None when the chunks at hand end before there is one, where the source goes on waiting. */
    method ReadLine(chunks: seq<seq<byte>>) returns (line: Option<seq<byte>>, used: nat)
      requires Valid()
      modifies this
      ensures Valid() && used <= |chunks|
      ensures received == old(received) + Concat(chunks[..used])
      ensures line.Some? ==> delivered == old(delivered) + [line.value]
      ensures line.None? ==> delivered == old(delivered) && lines == [] && used == |chunks|
      ensures old(lines) != [] ==> line == Some(old(lines)[0]) && used == 0
    {
      used := 0;
      while lines == [] && used < |chunks|
        invariant Valid() && used <= |chunks| && delivered == old(delivered)
        invariant received == old(received) + Concat(chunks[..used])
        invariant old(lines) != [] ==> used == 0 && lines == old(lines)
      {
        Take(chunks[used]);
        used := used + 1;
        assert chunks[..used][..used - 1] == chunks[..used - 1];
      }
      if lines == [] {
        return None, used;
      }
      line := Some(lines[0]);
      assert delivered + lines == (delivered + [lines[0]]) + lines[1..];
      delivered := delivered + [lines[0]];
      lines := lines[1..];
    }
  }
}
