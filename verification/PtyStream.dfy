/**
 The filter's read/strip/write loop, and what a whole session writes.
 */
module PtyStream {
  import opened Regex
  import opened PtyFilter
  import opened PtyTokens

  const READ_SIZE := 65536

  datatype IoEvent = Read(got: seq<byte>) | Write(bytes: seq<byte>) | Flush

  // The process's two descriptors: what successive reads will return, and a log of every
  // system call made.
  class Io {
    var pending: seq<seq<byte>>
    var log: seq<IoEvent>

    ghost predicate Valid()
      reads this
    {
      forall c :: c in pending ==> 0 < |c| <= READ_SIZE
    }

    constructor (chunks: seq<seq<byte>>)
      requires forall c :: c in chunks ==> 0 < |c| <= 65536
      ensures Valid() && pending == chunks && log == []
    {
      pending := chunks;
      log := [];
    }

    // A short read: whatever is available, nothing at end of file.
    method ReadSome(size: nat) returns (buf: seq<byte>)
      requires Valid() && size == READ_SIZE
      modifies this
      ensures Valid()
      ensures buf == if old(pending) == [] then [] else old(pending)[0]
      ensures pending == if old(pending) == [] then [] else old(pending)[1..]
      ensures log == old(log) + [Read(buf)]
    {
      buf := [];
      if pending != [] {
        buf := pending[0];
        pending := pending[1..];
      }
      log := log + [Read(buf)];
    }

    method WriteAll(buf: seq<byte>)
      modifies this`log
      ensures log == old(log) + [Write(buf)]
    {
      log := log + [Write(buf)];
    }

    method FlushOut()
      modifies this`log
      ensures log == old(log) + [Flush]
    {
      log := log + [Flush];
    }
  }

  // The inner loop: the five deletions in order.
  method StripChunk(chunk: seq<byte>) returns (buf: seq<byte>)
    ensures buf == Filter(chunk)
  {
    buf := chunk;
    for i := 0 to |STRIP_PATTERNS|
      invariant buf == Passes(i, chunk)
    {
      buf := Sub(STRIP_PATTERNS[i], buf);
    }
    PassesAreFilter(chunk);
  }

  method FilterStream(io: Io)
    requires io.Valid()
    modifies io
    ensures io.pending == [] && io.log == old(io.log) + Session(old(io.pending))
    ensures forall c :: c in old(io.pending) ==> |c| <= 65536
  {
    ghost var goal := io.log + Session(io.pending);
    while true
      invariant io.Valid() && io.log + Session(io.pending) == goal
      decreases |io.pending|
    {
      SessionStep(io.log, io.pending);
      var buf := io.ReadSome(READ_SIZE);
      if buf == [] {
        break;
      }
      buf := StripChunk(buf);
      io.WriteAll(buf);
      io.FlushOut();
    }
  }

  lemma SessionStep(log: seq<IoEvent>, chunks: seq<seq<byte>>)
    ensures chunks == [] ==> log + Session(chunks) == log + [Read([])]
    ensures chunks != [] ==>
      log + Session(chunks) == log + [Read(chunks[0])] + [Write(Filter(chunks[0]))] + [Flush] + Session(chunks[1..])
  {}

  // The calls of a whole run: each read paired with one write and one flush, up to the
  // read that reports end of file.
  function Session(chunks: seq<seq<byte>>): seq<IoEvent> {
    if chunks == [] then [Read([])]
    else [Read(chunks[0]), Write(Filter(chunks[0])), Flush] + Session(chunks[1..])
  }

  function Written(log: seq<IoEvent>): seq<byte> {
    if log == [] then []
    else (if log[0].Write? then log[0].bytes else []) + Written(log[1..])
  }

  // Nothing is held back: at every read, all that was written before it has been flushed.
  predicate FlushedAtReads(log: seq<IoEvent>, dirty: bool) {
    log == [] ||
    match log[0]
    case Read(_) => !dirty && FlushedAtReads(log[1..], dirty)
    case Write(_) => FlushedAtReads(log[1..], true)
    case Flush => FlushedAtReads(log[1..], false)
  }

  function FilterAll(chunks: seq<seq<byte>>): seq<byte> {
    if chunks == [] then [] else Filter(chunks[0]) + FilterAll(chunks[1..])
  }

  lemma {:induction false} SessionWrites(chunks: seq<seq<byte>>)
    ensures Written(Session(chunks)) == FilterAll(chunks)
    ensures FlushedAtReads(Session(chunks), false)
  {
    if chunks != [] {
      SessionWrites(chunks[1..]);
      var s, rest, w := Session(chunks), Session(chunks[1..]), Filter(chunks[0]);
      var s1, s2 := s[1..], s[1..][1..];
      assert s[0] == Read(chunks[0]) && s1[0] == Write(w) && s2[0] == Flush && s2[1..] == rest;
      assert Written(s2) == Written(rest);
    }
  }

  function Concat(chunks: seq<seq<byte>>): seq<byte> {
    if chunks == [] then [] else chunks[0] + Concat(chunks[1..])
  }

  // For arbitrary bytes and any cut into reads: the transcript is a subsequence of the
  // stream, and a stream without ESC arrives byte for byte.
  lemma {:induction false} StreamOnlyDeletes(chunks: seq<seq<byte>>)
    ensures Subseq(FilterAll(chunks), Concat(chunks))
    ensures (forall c :: c in chunks ==> EscFree(c)) ==> FilterAll(chunks) == Concat(chunks)
  {
    if chunks != [] {
      FilterOnlyDeletes(chunks[0]);
      StreamOnlyDeletes(chunks[1..]);
      SubseqConcat(Filter(chunks[0]), chunks[0], FilterAll(chunks[1..]), Concat(chunks[1..]));
    }
  }

  function Flatten(groups: seq<seq<Token>>): seq<Token> {
    if groups == [] then [] else groups[0] + Flatten(groups[1..])
  }

  function RenderEach(groups: seq<seq<Token>>): seq<seq<byte>> {
    if groups == [] then [] else [Render(groups[0])] + RenderEach(groups[1..])
  }

  lemma {:induction false} VisibleConcat(a: seq<Token>, b: seq<Token>)
    ensures Visible(a + b) == Visible(a) + Visible(b)
  {
    if a == [] {
      assert a + b == b;
    } else {
      assert (a + b)[1..] == a[1..] + b;
      VisibleConcat(a[1..], b);
      ConcatAssociative(Shown(a[0]), Visible(a[1..]), Visible(b));
    }
  }

  predicate NoneSwallowed(groups: seq<seq<Token>>) {
    groups == [] || (NothingSwallowed(groups[0]) && NoneSwallowed(groups[1..]))
  }

  // Main result for streams: however a well-formed token stream is grouped into reads, the
  // session writes the visible tokens of the whole stream exactly when no single read
  // swallows visible output; otherwise it writes strictly less.
  lemma {:induction false} StreamOfTokens(groups: seq<seq<Token>>)
    requires forall g :: g in groups ==> AllWellFormed(g)
    ensures NoneSwallowed(groups) ==> FilterAll(RenderEach(groups)) == Visible(Flatten(groups))
    ensures !NoneSwallowed(groups) ==> |FilterAll(RenderEach(groups))| < |Visible(Flatten(groups))|
  {
    if groups != [] {
      var g, rest := groups[0], groups[1..];
      FilterOfTokens(g);
      FirstPassLoses(g);
      StreamOfTokens(rest);
      VisibleConcat(g, Flatten(rest));
      assert RenderEach(groups)[1..] == RenderEach(rest);
      assert FilterAll(RenderEach(groups)) == Filter(Render(g)) + FilterAll(RenderEach(rest));
    }
  }

  // Two cuts of the same stream between tokens produce the same transcript.
  lemma CutsDoNotMatter(a: seq<seq<Token>>, b: seq<seq<Token>>)
    requires forall g :: g in a ==> AllWellFormed(g)
    requires forall g :: g in b ==> AllWellFormed(g)
    requires Flatten(a) == Flatten(b) && NoneSwallowed(a) && NoneSwallowed(b)
    ensures Written(Session(RenderEach(a))) == Written(Session(RenderEach(b)))
  {
    StreamOfTokens(a);
    StreamOfTokens(b);
    SessionWrites(RenderEach(a));
    SessionWrites(RenderEach(b));
  }
}
