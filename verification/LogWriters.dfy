/** The writers behind a function's log: a line splitter for the logger and a limited buffer for
    the store, fed the same stream in arbitrary chunks. */
module LogWriters {
  import opened ByteOrder
  import opened Lists

  const NEWLINE: byte := 10

  // ---------------------------------------------------------------------------- lines

  predicate HasLine(s: Bytes) { IndexOf(s, NEWLINE) < |s| }

  function FirstLine(s: Bytes): Bytes
    requires HasLine(s)
  {
    s[..IndexOf(s, NEWLINE) + 1]
  }

  function Behind(s: Bytes): (r: Bytes)
    requires HasLine(s)
    ensures |r| < |s|
  {
    s[IndexOf(s, NEWLINE) + 1..]
  }

  /** The complete lines of a text, each with its newline. */
  function Lines(s: Bytes): seq<Bytes>
    decreases |s|
  {
    if HasLine(s) then [FirstLine(s)] + Lines(Behind(s)) else []
  }

  /** What is left of a text after its first `k` lines. */
  function Drop(s: Bytes, k: nat): Bytes
    decreases k
  {
    if k == 0 || !HasLine(s) then s else Drop(Behind(s), k - 1)
  }

  /** The unfinished last line. */
  function Rest(s: Bytes): Bytes { Drop(s, |Lines(s)|) }

  predicate IsLine(l: Bytes) { |l| > 0 && l[|l| - 1] == NEWLINE && forall j :: 0 <= j < |l| - 1 ==> l[j] != NEWLINE }

  predicate NoNewline(s: Bytes) { forall j :: 0 <= j < |s| ==> s[j] != NEWLINE }

  lemma {:induction false} OneLine(s: Bytes)
    requires HasLine(s)
    ensures IsLine(FirstLine(s)) && s == FirstLine(s) + Behind(s)
    ensures Lines(s) == [FirstLine(s)] + Lines(Behind(s)) && Rest(s) == Rest(Behind(s))
  {
    LineHead(s);
    hide IndexOf, IsLine, FirstLine, Behind, HasLine;
    assert Lines(s) == [FirstLine(s)] + Lines(Behind(s));
    assert Drop(s, |Lines(s)|) == Drop(Behind(s), |Lines(Behind(s))|);
  }

  lemma {:induction false} LineHead(s: Bytes)
    requires HasLine(s)
    ensures IsLine(FirstLine(s)) && s == FirstLine(s) + Behind(s)
  {
    var i := IndexOf(s, NEWLINE);
    assert FirstLine(s)[i] == NEWLINE;
    hide IndexOf;
  }

  /** The lines and the rest are the newline split of the text: nothing lost, nothing added. */
  lemma {:induction false} LinesAreTheSplit(s: Bytes)
    ensures Flat(Lines(s)) + Rest(s) == s
    ensures forall i :: 0 <= i < |Lines(s)| ==> IsLine(Lines(s)[i])
    ensures NoNewline(Rest(s))
    decreases |s|
  {
    if HasLine(s) {
      hide Rest, Lines, Flat, FirstLine, Behind, IsLine, NoNewline, IndexOf;
      OneLine(s);
      LinesAreTheSplit(Behind(s));
      FlatHead(FirstLine(s), Lines(Behind(s)));
    }
  }

  lemma FirstLineStays(s: Bytes, b: Bytes)
    requires HasLine(s)
    ensures HasLine(s + b) && FirstLine(s + b) == FirstLine(s) && Behind(s + b) == Behind(s) + b
  {
    var i := IndexOf(s, NEWLINE);
    assert (s + b)[i] == NEWLINE && forall j :: 0 <= j < i ==> (s + b)[j] == s[j];
    assert IndexOf(s + b, NEWLINE) == i;
  }

  /** More input does not change the lines already complete. */
  lemma {:induction false} MoreInput(s: Bytes, b: Bytes, k: nat)
    requires k <= |Lines(s)|
    ensures k <= |Lines(s + b)| && Lines(s + b)[..k] == Lines(s)[..k] && Drop(s + b, k) == Drop(s, k) + b
    decreases k
  {
    if k > 0 {
      FirstLineStays(s, b);
      MoreInput(Behind(s), b, k - 1);
      var more, less := Lines(s + b), Lines(s);
      assert more[..k] == [more[0]] + more[1..][..k - 1] && less[..k] == [less[0]] + less[1..][..k - 1];
    }
  }

  /** Splitting goes on where it stopped. */
  lemma {:induction false} Resume(s: Bytes, k: nat, m: nat)
    requires k <= |Lines(s)|
    ensures Lines(Drop(s, k)) == Lines(s)[k..] && Drop(Drop(s, k), m) == Drop(s, k + m)
    decreases k
  {
    if k > 0 {
      Resume(Behind(s), k - 1, m);
      assert Lines(s)[k..] == Lines(s)[1..][k - 1..];
    }
  }

  // ---------------------------------------------------------------------- line writer

  datatype LineState = LineState(emitted: seq<Bytes>, buffer: Bytes)

  /** A write of which the underlying writer took `accepted` lines before it failed, if it did. */
  datatype Chunk = Chunk(b: Bytes, accepted: nat)

  function WriteLines(s: LineState, c: Chunk): LineState {
    var x := s.buffer + c.b;
    var k := if c.accepted <= |Lines(x)| then c.accepted else |Lines(x)|;
    LineState(s.emitted + Lines(x)[..k], Drop(x, k))
  }

  function AfterWrites(cs: seq<Chunk>): LineState {
    if cs == [] then LineState([], []) else WriteLines(AfterWrites(cs[..|cs| - 1]), cs[|cs| - 1])
  }

  function Stream(cs: seq<Chunk>): Bytes {
    if cs == [] then [] else Stream(cs[..|cs| - 1]) + cs[|cs| - 1].b
  }

  /** Whatever the chunks and the failures, what went out is a run of leading lines of the whole
      stream and the buffer holds exactly what follows them. */
  lemma {:induction false} WritesFollowTheStream(cs: seq<Chunk>) returns (m: nat)
    ensures m <= |Lines(Stream(cs))|
    ensures AfterWrites(cs) == LineState(Lines(Stream(cs))[..m], Drop(Stream(cs), m))
    ensures cs == [] || cs[|cs| - 1].accepted >= |Stream(cs)| ==> m == |Lines(Stream(cs))|
  {
    if cs == [] {
      m := 0;
    } else {
      var n := |cs| - 1;
      var m' := WritesFollowTheStream(cs[..n]);
      m := Continues(Stream(cs[..n]), m', AfterWrites(cs[..n]), cs[n]);
      LinesAreShort(Stream(cs));
    }
  }

  lemma {:induction false} LinesAreShort(s: Bytes)
    ensures |Lines(s)| <= |s|
    decreases |s|
  {
    if HasLine(s) { LinesAreShort(Behind(s)); }
  }

  lemma Continues(t: Bytes, m: nat, s: LineState, c: Chunk) returns (m': nat)
    requires m <= |Lines(t)| && s == LineState(Lines(t)[..m], Drop(t, m))
    ensures m' <= |Lines(t + c.b)| && WriteLines(s, c) == LineState(Lines(t + c.b)[..m'], Drop(t + c.b, m'))
    ensures c.accepted >= |Lines(s.buffer + c.b)| ==> m' == |Lines(t + c.b)|
    ensures c.accepted >= |Lines(t + c.b)| ==> m' == |Lines(t + c.b)|
  {
    hide Lines, Drop;
    var x := s.buffer + c.b;
    MoreInput(t, c.b, m);
    assert x == Drop(t + c.b, m);
    var k := if c.accepted <= |Lines(x)| then c.accepted else |Lines(x)|;
    Resume(t + c.b, m, k);
    m' := m + k;
    var all := Lines(t + c.b);
    assert all[..m'] == all[..m] + all[m..][..k];
  }

  /** With a writer that never fails, the output depends on the stream alone, not on its chunks. */
  lemma ChunksDoNotMatter(cs: seq<Chunk>)
    requires forall i :: 0 <= i < |cs| ==> cs[i].accepted >= |Stream(cs)|
    ensures AfterWrites(cs) == LineState(Lines(Stream(cs)), Rest(Stream(cs)))
  {
    var m := WritesFollowTheStream(cs);
    var all := Lines(Stream(cs));
    assert all[..|all|] == all;
  }

  /** `Close` adds the unfinished line, completed by a newline. */
  function CloseLines(s: LineState): LineState {
    if s.buffer == [] then s
    else s.(emitted := s.emitted + [Terminated(s.buffer)])
  }

  function Terminated(s: Bytes): Bytes
    requires s != []
  {
    if s[|s| - 1] != NEWLINE then s + [NEWLINE] else s
  }

  /** After `Close` the whole stream is out, line by line, with a final newline. */
  lemma ClosedOutput(cs: seq<Chunk>)
    requires forall i :: 0 <= i < |cs| ==> cs[i].accepted >= |Stream(cs)|
    ensures var t := Stream(cs); var out := CloseLines(AfterWrites(cs)).emitted;
      && Flat(out) == (if t == [] then [] else Terminated(t))
      && forall i :: 0 <= i < |out| ==> IsLine(out[i])
  {
    hide AfterWrites, Lines, Drop, Rest, Stream;
    ChunksDoNotMatter(cs);
    LinesAreTheSplit(Stream(cs));
    ClosedSplit(Stream(cs), Lines(Stream(cs)), Rest(Stream(cs)));
  }

  lemma ClosedSplit(t: Bytes, lines: seq<Bytes>, rest: Bytes)
    requires t == Flat(lines) + rest && NoNewline(rest) && forall i :: 0 <= i < |lines| ==> IsLine(lines[i])
    ensures var out := CloseLines(LineState(lines, rest)).emitted;
      && Flat(out) == (if t == [] then [] else Terminated(t))
      && forall i :: 0 <= i < |out| ==> IsLine(out[i])
  {
    if rest != [] {
      var out := lines + [rest + [NEWLINE]];
      assert out[..|out| - 1] == lines;
      assert t[|t| - 1] == rest[|rest| - 1];
    } else if lines != [] {
      var last := lines[|lines| - 1];
      assert t == Flat(lines[..|lines| - 1]) + last;
      assert t[|t| - 1] == last[|last| - 1];
    }
  }

  /** `lineWriter`, with the lines that its underlying writer took; attempt `i` to write to
      that one fails if `fails(i)`, and then reports `short(i)` bytes. */
  class LineWriter {
    var buffer: Bytes
    var emitted: seq<Bytes>
    var attempts: nat
    const fails: nat -> bool
    const short: nat -> nat

    constructor (fails: nat -> bool, short: nat -> nat)
      ensures State() == LineState([], []) && this.fails == fails && this.short == short
    {
      buffer, emitted, attempts := [], [], 0;
      this.fails, this.short := fails, short;
    }

    function State(): LineState
      reads this
    {
      LineState(emitted, buffer)
    }

    method Write(b: Bytes) returns (n: nat, ok: bool, ghost accepted: nat)
      modifies this
      ensures State() == WriteLines(old(State()), Chunk(b, accepted))
      ensures ok <==> accepted == |Lines(old(buffer) + b)|
      ensures ok ==> n == |b|
      ensures !ok ==> attempts > 0 && fails(attempts - 1) && n == short(attempts - 1)
    {
      hide Lines, Drop;
      buffer := buffer + b;
      ghost var x, out := buffer, emitted;
      accepted := 0;
      WriteBegins(x);
      while HasLine(buffer)
        invariant accepted <= |Lines(x)| && buffer == Drop(x, accepted)
        invariant emitted == out + Lines(x)[..accepted]
        decreases |buffer|
      {
        NextLine(x, accepted);
        attempts := attempts + 1;
        if fails(attempts - 1) {
          return short(attempts - 1), false, accepted;
        }
        emitted := emitted + [FirstLine(buffer)];
        buffer := Behind(buffer);
        accepted := accepted + 1;
      }
      NoMoreLines(x, accepted);
      return |b|, true, accepted;
    }

    method Close() returns (ok: bool)
      modifies this
      ensures ok ==> State() == CloseLines(old(State()))
      ensures !ok ==> State() == old(State()) && fails(old(attempts))
    {
      if |buffer| == 0 {
        return true;
      }
      attempts := attempts + 1;
      if fails(attempts - 1) {
        return false;
      }
      emitted := emitted + [if buffer[|buffer| - 1] != NEWLINE then buffer + [NEWLINE] else buffer];
      return true;
    }
  }

  lemma WriteBegins(x: Bytes)
    ensures Drop(x, 0) == x && Lines(x)[..0] == []
  {
  }

  lemma NextLine(x: Bytes, k: nat)
    requires k <= |Lines(x)| && HasLine(Drop(x, k))
    ensures k < |Lines(x)| && Lines(x)[k] == FirstLine(Drop(x, k)) && Behind(Drop(x, k)) == Drop(x, k + 1)
    ensures Lines(x)[..k + 1] == Lines(x)[..k] + [Lines(x)[k]]
  {
    Resume(x, k, 1);
    assert Lines(x)[k] == Lines(x)[k..][0];
  }

  lemma NoMoreLines(x: Bytes, k: nat)
    requires k <= |Lines(x)| && !HasLine(Drop(x, k))
    ensures k == |Lines(x)|
  {
    Resume(x, k, 0);
  }

  // -------------------------------------------------------------------- limited writer

  /** `limitDiscardWriter`: bytes counted, the limit, and the buffer behind it. */
  datatype LimitState = LimitState(n: nat, max: int, stored: Bytes)

  function Digit(d: nat): Bytes
    requires d < 10
  {
    [48 + d]
  }

  function Decimal(v: nat): Bytes { if v < 10 then Digit(v) else Decimal(v / 10) + Digit(v % 10) }

  function Ascii(s: string): Bytes { seq(|s|, i requires 0 <= i < |s| => s[i] as int % 256) }

  /** The truncation notice, which names the limit. */
  function Notice(max: nat): Bytes {
    Ascii("\n-----max log size ") + Decimal(max) + Ascii(" bytes exceeded, truncating log-----\n")
  }

  function WriteLimited(s: LimitState, b: Bytes): LimitState {
    if s.n >= s.max then s
    else
      var cut := if s.n + |b| >= s.max then b[..s.max - s.n] else b;
      var n := s.n + |cut|;
      LimitState(n, s.max, s.stored + cut + if n >= s.max then Notice(s.max) else [])
  }

  function AfterLimited(max: int, chunks: seq<Bytes>): LimitState {
    if chunks == [] then LimitState(0, max, [])
    else WriteLimited(AfterLimited(max, chunks[..|chunks| - 1]), chunks[|chunks| - 1])
  }

  /** What the limited buffer holds for a whole stream: its first `max` bytes, and the notice
      once the limit is reached.  Without a positive limit it holds nothing. */
  function Limited(max: int, t: Bytes): LimitState {
    if max <= 0 then LimitState(0, max, [])
    else if |t| >= max then LimitState(max, max, t[..max] + Notice(max))
    else LimitState(|t|, max, t)
  }

  /** Any chunking of the stream stores the same. */
  lemma {:induction false} LimitIgnoresChunks(max: int, chunks: seq<Bytes>)
    ensures AfterLimited(max, chunks) == Limited(max, Flat(chunks))
  {
    if chunks != [] {
      var n := |chunks| - 1;
      LimitIgnoresChunks(max, chunks[..n]);
      var t, b := Flat(chunks[..n]), chunks[n];
      LimitStep(max, t, b);
    }
  }

  lemma LimitStep(max: int, t: Bytes, b: Bytes)
    ensures WriteLimited(Limited(max, t), b) == Limited(max, t + b)
  {
    hide Notice;
    if 0 < max <= |t| {
      assert (t + b)[..max] == t[..max];
    } else if |t| < max <= |t| + |b| {
      assert (t + b)[..max] == t + b[..max - |t|];
    }
  }

  class LimitWriter {
    var n: nat
    var stored: Bytes
    const max: int

    constructor (max: int)
      ensures State() == LimitState(0, max, [])
    {
      n, stored := 0, [];
      this.max := max;
    }

    function State(): LimitState
      reads this
    {
      LimitState(n, max, stored)
    }

    /** Always reports a full write. */
    method Write(b: Bytes) returns (reported: nat)
      modifies this
      ensures State() == WriteLimited(old(State()), b)
      ensures reported == |b|
    {
      if n >= max {
        return |b|;
      }
      var cut := b;
      if n + |b| >= max {
        cut := b[..max - n];
      }
      stored := stored + cut;
      n := n + |cut|;
      if n >= max {
        stored := stored + Notice(max);
      }
      return |b|;
    }
  }

  // ---------------------------------------------------------------------- both of them

  /** `multiWriteCloser` over the two: the limited buffer is skipped if the logger failed.
      `stream` is all that was written, `passed` the chunks that the logger took. */
  class FuncLogger {
    const line: LineWriter
    const limit: LimitWriter
    ghost var stream: Bytes
    ghost var passed: Bytes
    ghost var out: nat

    /** The lines out are the first `out` lines of the stream, the line buffer holds what follows
        them, and the limited buffer is that of the chunks that passed.  With a logger that never
        fails this is the newline split and the limited form of one and the same stream. */
    ghost predicate Valid()
      reads this, line, limit
    {
      && out <= |Lines(stream)| && line.State() == LineState(Lines(stream)[..out], Drop(stream, out))
      && limit.State() == Limited(limit.max, passed)
      && ((forall i :: !line.fails(i)) ==>
            && passed == stream
            && line.State() == LineState(Lines(stream), Rest(stream))
            && limit.State() == Limited(limit.max, stream))
    }

    constructor (maxSize: int, fails: nat -> bool, short: nat -> nat)
      ensures Valid() && fresh(line) && fresh(limit) && stream == passed == []
      ensures line.fails == fails && line.short == short && limit.max == maxSize
    {
      line := new LineWriter(fails, short);
      limit := new LimitWriter(maxSize);
      stream, passed, out := [], [], 0;
      new;
      assert Lines([]) == [] && Drop([], 0) == [];
    }

    method Write(b: Bytes) returns (n: nat, ok: bool)
      requires Valid()
      modifies this, line, limit
      ensures Valid() && stream == old(stream) + b
      ensures passed == if ok then old(passed) + b else old(passed)
      ensures ok ==> n == |b|
      ensures !ok ==> line.attempts > 0 && line.fails(line.attempts - 1) && n == line.short(line.attempts - 1)
    {
      hide Lines, Drop, Limited, WriteLines, WriteLimited;
      ghost var t, s := stream, line.State();
      ghost var accepted: nat;
      n, ok, accepted := line.Write(b);
      out := Continues(t, out, s, Chunk(b, accepted));
      stream := t + b;
      if ok {
        n := limit.Write(b);
        LimitStep(limit.max, passed, b);
        passed := passed + b;
        AllOut(stream, out);
      }
    }

    /** `Close`: the unfinished line goes out, then both buffers are reset for reuse. */
    method Close() returns (ok: bool)
      requires Valid()
      modifies line, limit
      ensures ok ==> line.emitted == CloseLines(old(line.State())).emitted && line.buffer == [] && limit.stored == []
      ensures (forall i :: !line.fails(i)) ==>
        ok && Flat(line.emitted) == if stream == [] then [] else Terminated(stream)
    {
      ghost var whole := Lines(stream);
      LinesAreTheSplit(stream);
      ClosedSplit(stream, whole, Rest(stream));
      ok := line.Close();
      if ok {
        line.buffer := [];
        limit.stored := [];
      }
    }
  }

  lemma AllOut(t: Bytes, m: nat)
    ensures m == |Lines(t)| ==> LineState(Lines(t)[..m], Drop(t, m)) == LineState(Lines(t), Rest(t))
  {
    if m == |Lines(t)| { assert Lines(t)[..m] == Lines(t); }
  }
}
