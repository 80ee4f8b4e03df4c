/** Standard input of the client: a reader thread cuts the byte stream into lines, and a ring of lines hands them
    to the Lua side. */
module StdinLines {
  import opened Bytes
  import opened Options

  const NEWLINE: byte := 10
  const RETURN: byte := 13
  const LONGEST: nat := 1023
  const SLOTS: nat := 1024

  // ---------- cutting the stream ----------

  /** The pieces cut so far and the bytes of the piece being filled. */
  datatype Cutter = Cutter(pieces: seq<seq<byte>>, line: seq<byte>)

  predicate Complete(piece: seq<byte>) { |piece| == LONGEST || (piece != [] && piece[|piece| - 1] == NEWLINE) }

  function Feed(c: Cutter, b: byte): (c': Cutter) {
    var line := c.line + [b];
    if b == NEWLINE || |line| == LONGEST then Cutter(c.pieces + [line], []) else Cutter(c.pieces, line)
  }

  function FeedAll(c: Cutter, bytes: seq<byte>): (c': Cutter) {
    if bytes == [] then c else Feed(FeedAll(c, bytes[..|bytes| - 1]), bytes[|bytes| - 1])
  }

  function Concat(pieces: seq<seq<byte>>): (bytes: seq<byte>) {
    if pieces == [] then [] else Concat(pieces[..|pieces| - 1]) + pieces[|pieces| - 1]
  }

  /** The end of the stream: what is left over becomes the last piece. */
  function Finish(c: Cutter): (pieces: seq<seq<byte>>) { if c.line == [] then c.pieces else c.pieces + [c.line] }

  const EMPTY: Cutter := Cutter([], [])

  /** The pieces of a whole stream. */
  function Pieces(stream: seq<byte>): (pieces: seq<seq<byte>>) { Finish(FeedAll(EMPTY, stream)) }

  lemma {:induction false} FeedTogether(c: Cutter, x: seq<byte>, y: seq<byte>)
    ensures FeedAll(FeedAll(c, x), y) == FeedAll(c, x + y)
    decreases |y|
  {
    if y == [] {
      assert x + y == x;
    } else {
      var n := |y| - 1;
      FeedTogether(c, x, y[..n]);
      assert (x + y)[..|x + y| - 1] == x + y[..n];
    }
  }

  function FeedChunks(c: Cutter, chunks: seq<seq<byte>>): (c': Cutter) {
    if chunks == [] then c else FeedAll(FeedChunks(c, chunks[..|chunks| - 1]), chunks[|chunks| - 1])
  }

  /** However the reads fragment the stream, the pieces are those of the stream. */
  lemma {:induction false} FragmentsDoNotMatter(chunks: seq<seq<byte>>)
    ensures FeedChunks(EMPTY, chunks) == FeedAll(EMPTY, Concat(chunks))
  {
    if chunks != [] {
      var n := |chunks| - 1;
      FragmentsDoNotMatter(chunks[..n]);
      FeedTogether(EMPTY, Concat(chunks[..n]), chunks[n]);
    }
  }

  /** A piece: not empty, not too long, and no newline before its last byte. */
  predicate IsPiece(p: seq<byte>) { 0 < |p| <= LONGEST && forall i :: 0 <= i < |p| - 1 ==> p[i] != NEWLINE }

  /** What it means to be cut correctly, without saying how: the pieces join up to the stream, every one is a piece,
      and all but the last are complete. */
  predicate IsCut(pieces: seq<seq<byte>>, stream: seq<byte>) {
    && Concat(pieces) == stream && (forall i :: 0 <= i < |pieces| ==> IsPiece(pieces[i]))
    && forall i :: 0 <= i < |pieces| - 1 ==> Complete(pieces[i])
  }

  predicate CutterOk(c: Cutter, stream: seq<byte>) {
    && Concat(c.pieces) + c.line == stream && |c.line| < LONGEST
    && (forall i :: 0 <= i < |c.line| ==> c.line[i] != NEWLINE)
    && forall i :: 0 <= i < |c.pieces| ==> IsPiece(c.pieces[i]) && Complete(c.pieces[i])
  }

  lemma {:induction false} ConcatMore(pieces: seq<seq<byte>>, p: seq<byte>)
    ensures Concat(pieces + [p]) == Concat(pieces) + p
  {
    assert (pieces + [p])[..|pieces|] == pieces;
  }

  lemma {:induction false} FeedMore(c: Cutter, bytes: seq<byte>, b: byte)
    ensures FeedAll(c, bytes + [b]) == Feed(FeedAll(c, bytes), b)
  {
    assert (bytes + [b])[..|bytes|] == bytes;
  }

  lemma {:induction false} FeedKeeps(c: Cutter, stream: seq<byte>, b: byte)
    requires CutterOk(c, stream)
    ensures CutterOk(Feed(c, b), stream + [b])
  {
    var line := c.line + [b];
    assert Concat(c.pieces) + line == stream + [b];
    if b == NEWLINE || |line| == LONGEST {
      ConcatMore(c.pieces, line);
      CutKeeps(c, line);
      assert stream + [b] + [] == stream + [b];
    }
  }

  lemma {:induction false} CutKeeps(c: Cutter, line: seq<byte>)
    requires forall i :: 0 <= i < |c.pieces| ==> IsPiece(c.pieces[i]) && Complete(c.pieces[i])
    requires IsPiece(line) && Complete(line)
    ensures forall i :: 0 <= i < |c.pieces + [line]| ==> IsPiece((c.pieces + [line])[i]) && Complete((c.pieces + [line])[i])
  {
  }

  lemma {:induction false} CutterIsOk(stream: seq<byte>)
    ensures CutterOk(FeedAll(EMPTY, stream), stream)
  {
    if stream != [] {
      var n := |stream| - 1;
      CutterIsOk(stream[..n]);
      FeedKeeps(FeedAll(EMPTY, stream[..n]), stream[..n], stream[n]);
      assert stream[..n] + [stream[n]] == stream;
    }
  }

  /** The pieces are a correct cut of the stream. */
  lemma {:induction false} PiecesCut(stream: seq<byte>)
    ensures IsCut(Pieces(stream), stream)
  {
    CutterIsOk(stream);
    var c := FeedAll(EMPTY, stream);
    if c.line == [] {
      assert Concat(c.pieces) + [] == Concat(c.pieces);
    } else {
      var pieces := c.pieces + [c.line];
      assert pieces[..|pieces| - 1] == c.pieces;
    }
  }

  /** Feeding an unfinished beginning of a piece only fills the line. */
  lemma {:induction false} FeedStart(c: Cutter, p: seq<byte>)
    requires c.line == [] && |p| < LONGEST && forall i :: 0 <= i < |p| ==> p[i] != NEWLINE
    ensures FeedAll(c, p) == Cutter(c.pieces, p)
  {
    if p != [] {
      var n := |p| - 1;
      FeedStart(c, p[..n]);
      assert p[..n] + [p[n]] == p;
    }
  }

  lemma {:induction false} FeedLast(c: Cutter, start: seq<byte>, b: byte, p: seq<byte>)
    requires c.line == [] && |start| < LONGEST && p == start + [b] && forall i :: 0 <= i < |start| ==> start[i] != NEWLINE
    ensures FeedAll(c, p) == if b == NEWLINE || |p| == LONGEST then Cutter(c.pieces + [p], []) else Cutter(c.pieces, p)
  {
    FeedStart(c, start);
    FeedMore(c, start, b);
  }

  lemma {:induction false} FeedPiece(c: Cutter, p: seq<byte>)
    requires c.line == [] && IsPiece(p)
    ensures FeedAll(c, p) == if Complete(p) then Cutter(c.pieces + [p], []) else Cutter(c.pieces, p)
  {
    var n := |p| - 1;
    var start := p[..n];
    assert p == start + [p[n]];
    FeedLast(c, start, p[n], p);
  }

  lemma {:induction false} FeedPieces(pieces: seq<seq<byte>>)
    requires forall i :: 0 <= i < |pieces| ==> IsPiece(pieces[i]) && Complete(pieces[i])
    ensures FeedAll(EMPTY, Concat(pieces)) == Cutter(pieces, [])
  {
    if pieces != [] {
      var n := |pieces| - 1;
      FeedPieces(pieces[..n]);
      FeedTogether(EMPTY, Concat(pieces[..n]), pieces[n]);
      FeedPiece(Cutter(pieces[..n], []), pieces[n]);
      assert pieces[..n] + [pieces[n]] == pieces;
    }
  }

  /** There is only one correct cut. */
  lemma {:induction false} CutIsUnique(pieces: seq<seq<byte>>, stream: seq<byte>)
    requires IsCut(pieces, stream)
    ensures pieces == Pieces(stream)
  {
    if pieces != [] {
      var n := |pieces| - 1;
      FeedPieces(pieces[..n]);
      FeedTogether(EMPTY, Concat(pieces[..n]), pieces[n]);
      FeedPiece(Cutter(pieces[..n], []), pieces[n]);
      assert pieces[..n] + [pieces[n]] == pieces;
    }
  }

  /** read_input: the loops over reads and bytes with one line buffer. */
  method ReadInput(chunks: seq<seq<byte>>) returns (pieces: seq<seq<byte>>)
    ensures pieces == Pieces(Concat(chunks)) && IsCut(pieces, Concat(chunks))
  {
    var line := new byte[SLOTS];
    var length: nat := 0;
    pieces := [];
    for n := 0 to |chunks|
      invariant length < LONGEST && Cutter(pieces, line[..length]) == FeedChunks(EMPTY, chunks[..n])
    {
      assert chunks[..n + 1][..n] == chunks[..n];
      pieces, length := ReadChunk(chunks[n], line, pieces, length);
    }
    assert chunks[..|chunks|] == chunks;
    FragmentsDoNotMatter(chunks);
    PiecesCut(Concat(chunks));
    if length != 0 { pieces := pieces + [line[..length]]; }
  }

  /** The bytes of one read. */
  method ReadChunk(bytes: seq<byte>, line: array<byte>, pieces: seq<seq<byte>>, start: nat) returns (all: seq<seq<byte>>, length: nat)
    requires line.Length == SLOTS && start < LONGEST
    modifies line
    ensures length < LONGEST && Cutter(all, line[..length]) == FeedAll(Cutter(pieces, old(line[..start])), bytes)
  {
    ghost var before := Cutter(pieces, line[..start]);
    all, length := pieces, start;
    for i := 0 to |bytes|
      invariant length < LONGEST && Cutter(all, line[..length]) == FeedAll(before, bytes[..i])
    {
      assert bytes[..i + 1][..i] == bytes[..i];
      ghost var was := line[..length];
      line[length] := bytes[i];
      length := length + 1;
      assert line[..length] == was + [bytes[i]];
      if bytes[i] == NEWLINE || length == LONGEST {
        all := all + [line[..length]];
        length := 0;
      }
    }
    assert bytes[..|bytes|] == bytes;
  }

  // ---------- what is queued ----------

  predicate IsEnd(b: byte) { b == NEWLINE || b == RETURN }

  function Trim(piece: seq<byte>): (line: seq<byte>)
    ensures line <= piece
  {
    if piece != [] && IsEnd(piece[|piece| - 1]) then Trim(piece[..|piece| - 1]) else piece
  }

  /** The loop at the top of queue_line. */
  method TrimLoop(piece: seq<byte>) returns (line: seq<byte>)
    ensures line == Trim(piece) && line <= piece
    ensures (line == [] || !IsEnd(line[|line| - 1])) && forall i :: |line| <= i < |piece| ==> IsEnd(piece[i])
  {
    var length: nat := |piece|;
    assert piece[..length] == piece;
    while length > 0 && IsEnd(piece[length - 1])
      invariant length <= |piece| && Trim(piece[..length]) == Trim(piece)
      invariant forall i :: length <= i < |piece| ==> IsEnd(piece[i])
    {
      assert piece[..length][..length - 1] == piece[..length - 1];
      length := length - 1;
    }
    line := piece[..length];
  }

  // ---------- the ring ----------

  /** What the reader thread and the Lua side share. */
  datatype Shared = Shared(queue: seq<seq<byte>>, overflow: bool, failed: bool, eof: bool)

  const QUIET: Shared := Shared([], false, false, false)

  datatype Op =
    | Offer(piece: seq<byte>, memory: bool)
    | End(result: int)
    | NoThread
    | Read

  /** What a call of readstdin gives to Lua: a line, nil with a reason, or nothing yet. */
  datatype Answer = Line(text: seq<byte>) | Overflow | Error | Eof | NoneYet

  /** queue_line, with the allocation of the copy succeeding or not. */
  function Offered(s: Shared, piece: seq<byte>, memory: bool): (s': Shared) {
    if !memory then s.(failed := true)
    else if |s.queue| == LONGEST then s.(overflow := true)
    else s.(queue := s.queue + [Trim(piece)])
  }

  /** The end of read_input. */
  function Ended(s: Shared, result: int): (s': Shared) { s.(eof := result == 0, failed := s.failed || result < 0) }

  /** A line is handed over as a C string. */
  function CString(line: seq<byte>): (text: seq<byte>) {
    if line == [] || line[0] == 0 then [] else [line[0]] + CString(line[1..])
  }

  function ReadFrom(s: Shared): (r: (Shared, Answer)) {
    if s.queue != [] then (s.(queue := s.queue[1..]), Line(CString(s.queue[0])))
    else (s, if s.overflow then Overflow else if s.failed then Error else if s.eof then Eof else NoneYet)
  }

  function Apply(s: Shared, op: Op): (s': Shared) {
    match op
    case Offer(piece, memory) => Offered(s, piece, memory)
    case End(result) => Ended(s, result)
    case NoThread => s.(failed := true)
    case Read => ReadFrom(s).0
  }

  ghost predicate Execution(run: seq<Shared>, ops: seq<Op>) {
    |run| == |ops| + 1 && run[0] == QUIET && forall i :: 0 <= i < |ops| ==> run[i + 1] == Apply(run[i], ops[i])
  }

  /** The trimmed lines offered in the first n operations. */
  function AllLines(ops: seq<Op>, n: nat): (lines: seq<seq<byte>>)
    requires n <= |ops|
  {
    if n == 0 then [] else AllLines(ops, n - 1) + if ops[n - 1].Offer? then [Trim(ops[n - 1].piece)] else []
  }

  /** Those of them that met room in the ring. */
  function Admitted(run: seq<Shared>, ops: seq<Op>, n: nat): (lines: seq<seq<byte>>)
    requires n <= |ops| < |run|
  {
    if n == 0 then []
    else Admitted(run, ops, n - 1)
         + if ops[n - 1].Offer? && ops[n - 1].memory && |run[n - 1].queue| < LONGEST then [Trim(ops[n - 1].piece)] else []
  }

  /** The line an operation takes out of the ring. */
  function Takes(s: Shared, op: Op): (lines: seq<seq<byte>>) { if op.Read? && s.queue != [] then [s.queue[0]] else [] }

  /** The lines taken out by readstdin. */
  function TakenOut(run: seq<Shared>, ops: seq<Op>, n: nat): (lines: seq<seq<byte>>)
    requires n <= |ops| < |run|
  {
    if n == 0 then [] else TakenOut(run, ops, n - 1) + Takes(run[n - 1], ops[n - 1])
  }

  /** The n-th operation found the ring full. */
  predicate Dropped(run: seq<Shared>, ops: seq<Op>, n: nat)
    requires n < |ops| < |run|
  {
    ops[n].Offer? && ops[n].memory && |run[n].queue| == LONGEST
  }

  /** One operation moves lines from the offers to the queue to the reader. */
  lemma {:induction false} MovesOn(out: seq<seq<byte>>, s: Shared, op: Op)
    requires |s.queue| <= LONGEST
    ensures var s' := Apply(s, op);
            var out' := out + Takes(s, op);
            var more := if op.Offer? && op.memory && |s.queue| < LONGEST then [Trim(op.piece)] else [];
            out' + s'.queue == out + s.queue + more && |s'.queue| <= LONGEST
  {
    match op
    case Offer(piece, memory) => Joined(out, s.queue, if memory && |s.queue| < LONGEST then [Trim(piece)] else []);
    case Read => if s.queue != [] { Joined(out, [s.queue[0]], s.queue[1..]); assert [s.queue[0]] + s.queue[1..] == s.queue; }
    case _ =>
  }

  lemma {:induction false} Joined<T>(x: seq<T>, y: seq<T>, z: seq<T>)
    ensures x + y + z == x + (y + z) && x + [] == x
  {
  }

  lemma {:induction false} LinesConserved(run: seq<Shared>, ops: seq<Op>, n: nat)
    requires Execution(run, ops) && n <= |ops|
    ensures TakenOut(run, ops, n) + run[n].queue == Admitted(run, ops, n) && |run[n].queue| <= LONGEST
    decreases n
  {
    if n > 0 {
      LinesConserved(run, ops, n - 1);
      assert run[n - 1 + 1] == Apply(run[n - 1], ops[n - 1]);
      MovesOn(TakenOut(run, ops, n - 1), run[n - 1], ops[n - 1]);
    }
  }

  /** The ring is a queue of at most 1023 lines: lines come out in the order they were admitted, a line is refused
      exactly when 1023 are waiting, and then the overflow flag is up. */
  lemma {:induction false} RingIsQueue(run: seq<Shared>, ops: seq<Op>, n: nat)
    requires Execution(run, ops) && n <= |ops|
    ensures TakenOut(run, ops, n) + run[n].queue == Admitted(run, ops, n) && |run[n].queue| <= LONGEST
    ensures run[n].overflow <==> exists i :: 0 <= i < n && Dropped(run, ops, i)
    decreases n
  {
    LinesConserved(run, ops, n);
    if n > 0 {
      RingIsQueue(run, ops, n - 1);
      assert run[n - 1 + 1] == Apply(run[n - 1], ops[n - 1]);
      if run[n].overflow && !run[n - 1].overflow { assert Dropped(run, ops, n - 1); }
    }
  }

  lemma {:induction false} NoLossUnflagged(run: seq<Shared>, ops: seq<Op>, n: nat)
    requires Execution(run, ops) && n <= |ops| && !run[n].overflow && !run[n].failed
    ensures Admitted(run, ops, n) == AllLines(ops, n)
    decreases n
  {
    if n > 0 {
      assert run[n - 1 + 1] == Apply(run[n - 1], ops[n - 1]);
      NoLossUnflagged(run, ops, n - 1);
      RingIsQueue(run, ops, n - 1);
    }
  }

  // ---------- what Lua gets ----------

  /** The text an operation answers with. */
  function Says(s: Shared, op: Op): (texts: seq<seq<byte>>) {
    if op.Read? && ReadFrom(s).1.Line? then [ReadFrom(s).1.text] else []
  }

  /** The texts readstdin has answered with. */
  function Handed(run: seq<Shared>, ops: seq<Op>, n: nat): (texts: seq<seq<byte>>)
    requires n <= |ops| < |run|
  {
    if n == 0 then [] else Handed(run, ops, n - 1) + Says(run[n - 1], ops[n - 1])
  }

  function Texts(lines: seq<seq<byte>>): (texts: seq<seq<byte>>) {
    if lines == [] then [] else [CString(lines[0])] + Texts(lines[1..])
  }

  /** A text is its line up to the first zero byte. */
  lemma {:induction false} StringStops(line: seq<byte>)
    ensures CString(line) <= line && 0 !in CString(line)
    ensures |CString(line)| < |line| ==> line[|CString(line)|] == 0
    ensures CString(line) == line <==> 0 !in line
  {
    if line != [] && line[0] != 0 {
      StringStops(line[1..]);
      assert line == [line[0]] + line[1..];
    }
  }

  lemma {:induction false} TextsJoin(x: seq<seq<byte>>, y: seq<seq<byte>>)
    ensures Texts(x + y) == Texts(x) + Texts(y)
  {
    if x == [] {
      assert x + y == y;
    } else {
      TextsJoin(x[1..], y);
      assert (x + y)[1..] == x[1..] + y;
    }
  }

  lemma {:induction false} SaysText(s: Shared, op: Op)
    ensures Says(s, op) == Texts(Takes(s, op))
  {
    if op.Read? && s.queue != [] { assert Takes(s, op)[1..] == []; }
  }

  lemma {:induction false} TextsFollow(texts: seq<seq<byte>>, lines: seq<seq<byte>>, s: Shared, op: Op)
    requires texts == Texts(lines)
    ensures texts + Says(s, op) == Texts(lines + Takes(s, op))
  {
    SaysText(s, op);
    TextsJoin(lines, Takes(s, op));
  }

  lemma {:induction false} HandedTexts(run: seq<Shared>, ops: seq<Op>, n: nat)
    requires n <= |ops| < |run|
    ensures Handed(run, ops, n) == Texts(TakenOut(run, ops, n))
    decreases n
  {
    if n > 0 {
      HandedTexts(run, ops, n - 1);
      TextsFollow(Handed(run, ops, n - 1), TakenOut(run, ops, n - 1), run[n - 1], ops[n - 1]);
    }
  }

  /** Nothing is lost in silence: as long as neither flag is up, every line offered has been or will be handed out, in order,
      each up to its first zero byte. */
  lemma {:induction false} NothingLostInSilence(run: seq<Shared>, ops: seq<Op>, n: nat)
    requires Execution(run, ops) && n <= |ops| && !run[n].overflow && !run[n].failed
    ensures Handed(run, ops, n) + Texts(run[n].queue) == Texts(AllLines(ops, n))
  {
    RingIsQueue(run, ops, n);
    NoLossUnflagged(run, ops, n);
    HandedTexts(run, ops, n);
    TextsJoin(TakenOut(run, ops, n), run[n].queue);
  }

  /** End of file is reported only when every line offered so far has been handed out; no line waits, and none was refused. */
  lemma {:induction false} EofMeansAll(run: seq<Shared>, ops: seq<Op>, n: nat)
    requires Execution(run, ops) && n < |ops| && ops[n].Read? && ReadFrom(run[n]).1 == Eof
    ensures Handed(run, ops, n) == Texts(AllLines(ops, n)) && forall i :: 0 <= i < n ==> !Dropped(run, ops, i)
  {
    NothingLostInSilence(run, ops, n);
    RingIsQueue(run, ops, n);
    assert Handed(run, ops, n) + [] == Handed(run, ops, n);
  }

  // ---------- what of the stream Lua gets ----------

  /** From here on nothing but carriage returns comes before the next newline or the end of the stream. */
  predicate EndsLine(rest: seq<byte>) {
    rest == [] || rest[0] == NEWLINE || (rest[0] == RETURN && EndsLine(rest[1..]))
  }

  /** The stream without its line ends: newlines, and carriage returns in front of a newline or of the end. */
  function Content(stream: seq<byte>): (bytes: seq<byte>) {
    if stream == [] then []
    else if stream[0] == NEWLINE || (stream[0] == RETURN && EndsLine(stream[1..])) then Content(stream[1..])
    else [stream[0]] + Content(stream[1..])
  }

  /** The pieces one after the other. */
  function Join(pieces: seq<seq<byte>>): (bytes: seq<byte>) {
    if pieces == [] then [] else pieces[0] + Join(pieces[1..])
  }

  lemma {:induction false} JoinMore(pieces: seq<seq<byte>>, p: seq<byte>)
    ensures Join(pieces + [p]) == Join(pieces) + p
  {
    if pieces == [] {
      assert [p][1..] == [] && Join([p]) == p + [];
    } else {
      JoinMore(pieces[1..], p);
      assert (pieces + [p])[1..] == pieces[1..] + [p];
      Joined(pieces[0], Join(pieces[1..]), p);
    }
  }

  lemma {:induction false} JoinIsConcat(pieces: seq<seq<byte>>)
    ensures Join(pieces) == Concat(pieces)
  {
    if pieces != [] {
      var n := |pieces| - 1;
      JoinIsConcat(pieces[..n]);
      JoinMore(pieces[..n], pieces[n]);
      assert pieces[..n] + [pieces[n]] == pieces;
    }
  }

  function Trimmed(pieces: seq<seq<byte>>): (lines: seq<seq<byte>>) {
    if pieces == [] then [] else [Trim(pieces[0])] + Trimmed(pieces[1..])
  }

  /** A piece that was cut for its length right behind a carriage return, with more of the line to come. */
  predicate Bites(p: seq<byte>, rest: seq<byte>) {
    p != [] && p[|p| - 1] == RETURN && !EndsLine(rest)
  }

  /** The bytes of the content a piece loses. */
  function Lost(p: seq<byte>, rest: seq<byte>): (n: nat) {
    if Bites(p, rest) then |p| - |Trim(p)| else 0
  }

  lemma {:induction false} TrimShortens(p: seq<byte>)
    ensures Trim(p) <= p && (Trim(p) == [] || !IsEnd(Trim(p)[|Trim(p)| - 1]))
    ensures forall i :: |Trim(p)| <= i < |p| ==> IsEnd(p[i])
    ensures Trim(p) == p <==> p == [] || !IsEnd(p[|p| - 1])
  {
    if p != [] && IsEnd(p[|p| - 1]) { TrimShortens(p[..|p| - 1]); }
  }

  lemma {:induction false} NotAtEnd(x: seq<byte>, rest: seq<byte>)
    requires x != [] && !IsEnd(x[|x| - 1]) && NEWLINE !in x
    ensures !EndsLine(x + rest)
  {
    if x[0] == RETURN {
      assert (x + rest)[1..] == x[1..] + rest;
      NotAtEnd(x[1..], rest);
    }
  }

  /** What a trimmed line holds is content. */
  lemma {:induction false} BodyIsContent(body: seq<byte>, rest: seq<byte>)
    requires body == [] || !IsEnd(body[|body| - 1])
    requires NEWLINE !in body
    ensures Content(body + rest) == body + Content(rest)
  {
    if body == [] {
      assert body + rest == rest;
    } else {
      var more := body[1..];
      assert (body + rest)[1..] == more + rest;
      BodyIsContent(more, rest);
      if body[0] == RETURN { NotAtEnd(more, rest); }
      assert [body[0]] + more == body;
      Joined([body[0]], more, Content(rest));
    }
  }

  /** Carriage returns are content exactly if they do not end a line. */
  lemma {:induction false} ReturnsAreContent(ends: seq<byte>, rest: seq<byte>)
    requires forall i :: 0 <= i < |ends| ==> ends[i] == RETURN
    ensures EndsLine(ends + rest) == EndsLine(rest)
    ensures Content(ends + rest) == (if EndsLine(rest) then [] else ends) + Content(rest)
  {
    if ends == [] {
      assert ends + rest == rest;
    } else {
      assert (ends + rest)[1..] == ends[1..] + rest;
      ReturnsAreContent(ends[1..], rest);
      assert [ends[0]] + ends[1..] == ends;
      Joined([ends[0]], ends[1..], Content(rest));
    }
  }

  /** A line end that is complete is no content. */
  lemma {:induction false} EndIsNoContent(ends: seq<byte>, rest: seq<byte>)
    requires ends != [] && ends[|ends| - 1] == NEWLINE && forall i :: 0 <= i < |ends| - 1 ==> ends[i] == RETURN
    ensures Content(ends + rest) == Content(rest)
  {
    var n := |ends| - 1;
    ReturnsAreContent(ends[..n], [NEWLINE] + rest);
    assert ends + rest == ends[..n] + ([NEWLINE] + rest);
    assert ([NEWLINE] + rest)[1..] == rest;
  }

  /** The content of a piece with what follows: the trimmed line, and the carriage returns it should have kept. */
  lemma {:induction false} PieceContent(p: seq<byte>, rest: seq<byte>)
    requires IsPiece(p)
    ensures Content(p + rest) == Trim(p) + (if Bites(p, rest) then p[|Trim(p)|..] else []) + Content(rest)
  {
    TrimShortens(p);
    var body, ends := Trim(p), p[|Trim(p)|..];
    assert p + rest == body + (ends + rest);
    BodyIsContent(body, ends + rest);
    if ends != [] && ends[|ends| - 1] == NEWLINE {
      EndIsNoContent(ends, rest);
    } else {
      ReturnsAreContent(ends, rest);
    }
    Joined(body, if Bites(p, rest) then ends else [], Content(rest));
  }

  /** The bytes of the content that the lines of some pieces lack. */
  function AllLost(pieces: seq<seq<byte>>): (n: nat) {
    if pieces == [] then 0 else Lost(pieces[0], Join(pieces[1..])) + AllLost(pieces[1..])
  }

  lemma {:induction false} LineAgainstContent(p: seq<byte>, rest: seq<byte>)
    requires IsPiece(p)
    ensures |Content(p + rest)| == |Trim(p)| + Lost(p, rest) + |Content(rest)|
    ensures Lost(p, rest) == 0 ==> Content(p + rest) == Trim(p) + Content(rest)
  {
    PieceContent(p, rest);
    TrimShortens(p);
  }

  lemma {:induction false} TrimmedFirst(pieces: seq<seq<byte>>)
    requires pieces != []
    ensures Join(Trimmed(pieces)) == Trim(pieces[0]) + Join(Trimmed(pieces[1..]))
  {
    assert Trimmed(pieces)[1..] == Trimmed(pieces[1..]);
  }

  lemma {:induction false} LinesAgainstContent(pieces: seq<seq<byte>>)
    requires forall i :: 0 <= i < |pieces| ==> IsPiece(pieces[i])
    ensures |Content(Join(pieces))| == |Join(Trimmed(pieces))| + AllLost(pieces)
    ensures AllLost(pieces) == 0 ==> Content(Join(pieces)) == Join(Trimmed(pieces))
  {
    if pieces != [] {
      LinesAgainstContent(pieces[1..]);
      LineAgainstContent(pieces[0], Join(pieces[1..]));
      TrimmedFirst(pieces);
    }
  }

  /** Some piece is cut between a carriage return and the rest of its line. */
  predicate SomeBite(pieces: seq<seq<byte>>) {
    exists i :: 0 <= i < |pieces| && Bites(pieces[i], Join(pieces[i + 1..]))
  }

  lemma {:induction false} LossNeedsBite(pieces: seq<seq<byte>>)
    ensures AllLost(pieces) > 0 <==> SomeBite(pieces)
  {
    if pieces != [] {
      var more := pieces[1..];
      LossNeedsBite(more);
      TrimShortens(pieces[0]);
      if SomeBite(more) {
        var i :| 0 <= i < |more| && Bites(more[i], Join(more[i + 1..]));
        assert more[i] == pieces[i + 1] && more[i + 1..] == pieces[i + 2..];
        assert Bites(pieces[i + 1], Join(pieces[i + 1 + 1..]));
      }
      if SomeBite(pieces) {
        var i :| 0 <= i < |pieces| && Bites(pieces[i], Join(pieces[i + 1..]));
        if i > 0 {
          assert more[i - 1] == pieces[i] && more[i - 1 + 1..] == pieces[i + 1..];
          assert Bites(more[i - 1], Join(more[i - 1 + 1..]));
        }
      }
    }
  }

  /** Only a cut for length can bite: another piece ends with a newline or with the stream. */
  lemma {:induction false} BiteIsLong(stream: seq<byte>, i: nat)
    requires i < |Pieces(stream)| && Bites(Pieces(stream)[i], Join(Pieces(stream)[i + 1..]))
    ensures |Pieces(stream)[i]| == LONGEST && i + 1 < |Pieces(stream)|
  {
    PiecesCut(stream);
    assert Pieces(stream)[|Pieces(stream)|..] == [];
  }

  lemma {:induction false} TextsShorten(lines: seq<seq<byte>>)
    ensures |Join(Texts(lines))| <= |Join(lines)|
    ensures 0 in Join(lines) ==> |Join(Texts(lines))| < |Join(lines)|
    ensures 0 !in Join(lines) ==> Texts(lines) == lines
  {
    if lines != [] {
      TextsShorten(lines[1..]);
      StringStops(lines[0]);
      assert Texts(lines)[1..] == Texts(lines[1..]);
      assert [lines[0]] + lines[1..] == lines;
    }
  }

  /** Zero bytes are content and no line end. */
  lemma {:induction false} ZeroStays(pieces: seq<seq<byte>>)
    ensures 0 in Join(Trimmed(pieces)) <==> 0 in Join(pieces)
  {
    if pieces != [] {
      ZeroStays(pieces[1..]);
      assert Trimmed(pieces)[1..] == Trimmed(pieces[1..]);
      var p := pieces[0];
      TrimShortens(p);
      if 0 in p {
        var i :| 0 <= i < |p| && p[i] == 0;
        assert p[i] == Trim(p)[i];
      }
    }
  }

  /** What Lua gets of a whole stream is its content, if and only if the stream holds no zero byte and no line of it is cut for
      its length between a carriage return and more of the line. */
  lemma {:induction false} TextsAreContent(stream: seq<byte>)
    ensures Join(Texts(Trimmed(Pieces(stream)))) == Content(stream) <==> 0 !in stream && !SomeBite(Pieces(stream))
  {
    var pieces := Pieces(stream);
    PiecesCut(stream);
    JoinIsConcat(pieces);
    LinesAgainstContent(pieces);
    LossNeedsBite(pieces);
    TextsShorten(Trimmed(pieces));
    ZeroStays(pieces);
  }

  /** The pieces offered in the first n operations. */
  function Offers(ops: seq<Op>, n: nat): (pieces: seq<seq<byte>>)
    requires n <= |ops|
  {
    if n == 0 then [] else Offers(ops, n - 1) + if ops[n - 1].Offer? then [ops[n - 1].piece] else []
  }

  lemma {:induction false} TrimmedMore(pieces: seq<seq<byte>>, more: seq<seq<byte>>)
    ensures Trimmed(pieces + more) == Trimmed(pieces) + Trimmed(more)
  {
    if pieces == [] {
      assert pieces + more == more;
    } else {
      TrimmedMore(pieces[1..], more);
      assert (pieces + more)[1..] == pieces[1..] + more;
    }
  }

  lemma {:induction false} LinesAreOffers(ops: seq<Op>, n: nat)
    requires n <= |ops|
    ensures AllLines(ops, n) == Trimmed(Offers(ops, n))
    decreases n
  {
    if n > 0 {
      LinesAreOffers(ops, n - 1);
      var more := if ops[n - 1].Offer? then [ops[n - 1].piece] else [];
      TrimmedMore(Offers(ops, n - 1), more);
      assert more != [] ==> more[1..] == [];
    }
  }

  /** A run in which the reader has offered the whole stream, everything has been read and no flag is up: the answers joined
      are the content of the stream exactly under the condition of TextsAreContent. */
  lemma {:induction false} AnswersReproduceStream(run: seq<Shared>, ops: seq<Op>, n: nat, stream: seq<byte>)
    requires Execution(run, ops) && n <= |ops| && Offers(ops, n) == Pieces(stream)
    requires run[n].queue == [] && !run[n].overflow && !run[n].failed
    ensures Join(Handed(run, ops, n)) == Content(stream) <==> 0 !in stream && !SomeBite(Pieces(stream))
  {
    NothingLostInSilence(run, ops, n);
    LinesAreOffers(ops, n);
    TextsAreContent(stream);
    assert Handed(run, ops, n) + [] == Handed(run, ops, n);
  }

  /** A zero byte cuts a line short: the three bytes 65, 0, 66 come out as the text of one byte. */
  lemma {:induction false} ZeroCutsLine()
    ensures var ops := [Offer([65, 0, 66], true), Read];
            exists run :: Execution(run, ops) && Handed(run, ops, 2) == [[65]] && run[2] == QUIET
  {
    var ops := [Offer([65, 0, 66], true), Read];
    var line: seq<byte> := [65, 0, 66];
    var waiting := QUIET.(queue := [line]);
    var run := [QUIET, waiting, QUIET];
    assert Trim(line) == line;
    assert [] + [line] == [line] && [line][1..] == [];
    assert run[1] == Apply(run[0], ops[0]) && run[2] == Apply(run[1], ops[1]);
    assert line[1..][0] == 0;
    assert CString(line) == [65] + CString(line[1..]) == [65];
    assert Handed(run, ops, 2) == Handed(run, ops, 1) + [[65]] && Handed(run, ops, 1) == Handed(run, ops, 0) + [];
    assert Execution(run, ops);
  }

  lemma {:induction false} TwoPieces(x: seq<byte>, y: seq<byte>)
    ensures Concat([x, y]) == x + y && Join([y]) == y
  {
    ConcatMore([x], y);
    assert [x] + [y] == [x, y];
    ConcatMore([], x);
    assert [] + [x] == [x] && [] + x == x;
    assert [y][1..] == [] && y + [] == y;
  }

  /** 1022 bytes, a carriage return and one more byte: the line is cut behind the carriage return, which is lost. */
  lemma {:induction false} CutLosesReturn(start: seq<byte>)
    requires |start| == LONGEST - 1 && NEWLINE !in start
    ensures var stream := start + [RETURN, 65];
            && Pieces(stream) == [start + [RETURN], [65]] && SomeBite(Pieces(stream))
            && Join(Texts(Trimmed(Pieces(stream)))) != Content(stream)
  {
    var stream := start + [RETURN, 65];
    var first, second: seq<byte> := start + [RETURN], [65];
    TwoPieces(first, second);
    assert first + second == stream;
    CutIsUnique([first, second], stream);
    assert [first, second][0 + 1..] == [second];
    assert Bites([first, second][0], Join([first, second][0 + 1..]));
    TextsAreContent(stream);
  }

  /** The k-th slot behind another. */
  function Index(start: nat, k: nat): (i: nat)
    requires start < SLOTS && k <= SLOTS
    ensures i < SLOTS
  {
    if start + k < SLOTS then start + k else start + k - SLOTS
  }

  lemma {:induction false} NextSlot(start: nat)
    requires start < SLOTS
    ensures (start + 1) % SLOTS == Index(start, 1)
  {
  }

  /** The ring in place: 1024 slots, one always free. */
  class Ring {
    const lines: array<Option<seq<byte>>>
    var head: nat
    var tail: nat
    var overflow: bool
    var failed: bool
    var eof: bool
    ghost var queue: seq<seq<byte>>

    ghost predicate Valid()
      reads this, lines
    {
      && lines.Length == SLOTS && head < SLOTS && tail < SLOTS && |queue| <= LONGEST && tail == Index(head, |queue|)
      && forall k :: 0 <= k < |queue| ==> Slot(k)
    }

    ghost predicate Slot(k: nat)
      requires lines.Length == SLOTS && head < SLOTS && k < |queue| <= LONGEST
      reads this, lines
    {
      lines[Index(head, k)] == Some(queue[k])
    }

    ghost function View(): (s: Shared)
      reads this
    {
      Shared(queue, overflow, failed, eof)
    }

    constructor ()
      ensures Valid() && View() == QUIET && fresh(lines)
    {
      lines := new Option<seq<byte>>[SLOTS](i => None);
      head, tail, overflow, failed, eof, queue := 0, 0, false, false, false, [];
    }

    /** queue_line. */
    method Offer(piece: seq<byte>, memory: bool)
      requires Valid()
      modifies this, lines
      ensures Valid() && View() == Offered(old(View()), piece, memory)
    {
      var line := TrimLoop(piece);
      NextSlot(tail);
      var next := (tail + 1) % SLOTS;
      if !memory {
        Raise(overflow, true);
      } else if next == head {
        Raise(true, failed);
      } else {
        Store(line, next);
      }
    }

    method Raise(overflow: bool, failed: bool)
      requires Valid()
      modifies this`overflow, this`failed
      ensures Valid() && this.overflow == overflow && this.failed == failed
    {
      this.overflow, this.failed := overflow, failed;
      forall k | 0 <= k < |queue| ensures Slot(k) { assert old(Slot(k)); }
    }

    method Store(line: seq<byte>, next: nat)
      requires Valid() && next == Index(tail, 1) && next != head
      modifies this`tail, this`queue, lines
      ensures Valid() && queue == old(queue) + [line]
    {
      lines[tail] := Some(line);
      tail, queue := next, queue + [line];
      forall k | 0 <= k < |queue| ensures Slot(k) { if k < |queue| - 1 { assert old(Slot(k)); } }
    }

    /** The end of read_input. */
    method End(result: int)
      requires Valid()
      modifies this
      ensures Valid() && View() == Ended(old(View()), result)
    {
      eof, failed := result == 0, failed || result < 0;
      forall k | 0 <= k < |queue| ensures Slot(k) { assert old(Slot(k)); }
    }

    /** The head slot is emptied. */
    method Take() returns (line: seq<byte>)
      requires Valid() && head != tail
      modifies this`head, this`queue, lines
      ensures Valid() && old(queue) != [] && line == old(queue)[0] && queue == old(queue)[1..]
    {
      assert Slot(0);
      NextSlot(head);
      line := lines[head].value;
      lines[head] := None;
      head, queue := (head + 1) % SLOTS, queue[1..];
      forall k | 0 <= k < |queue| ensures Slot(k) { assert old(Slot(k + 1)); }
    }

    /** skyuv_client_readstdin. */
    method ReadLine() returns (answer: Answer)
      requires Valid()
      modifies this, lines
      ensures Valid() && (View(), answer) == ReadFrom(old(View()))
    {
      if head != tail {
        var line := Take();
        return Line(CString(line));
      }
      answer := if overflow then Overflow else if failed then Error else if eof then Eof else NoneYet;
    }
  }
}
