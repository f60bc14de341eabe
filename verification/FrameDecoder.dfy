/** The incremental decoder that keeps broker frames out of a Script's ordinary stdout. Text is
    ASCII, so bytes and characters are the same thing. */
module FrameDecoder {
  import opened Wrappers
  import opened Sequences

  const SCRIPT_BROWSER_REQUEST_FRAME_PREFIX: string := "___PERSAI_BROWSER_REQUEST_V1___"
  const MAX_SCRIPT_BROWSER_REQUEST_BYTES := 64 * 1024
  const MAX_ENCODED := (MAX_SCRIPT_BROWSER_REQUEST_BYTES * 4 + 2) / 3

  datatype Failure = FrameRejected | BufferOversized

  /** What a decoder has produced so far. */
  datatype Output<Request> = Output(frames: seq<Request>, ordinary: string, failed: bool)

  predicate IsFrame(line: string) { SCRIPT_BROWSER_REQUEST_FRAME_PREFIX <= line }

  /** Base64url, JSON and field checks of a frame body; `None` when any of them rejects it. */
  type BodyParser<!Request> = string -> Option<Request>

  function ParseFrame<Request>(decode: BodyParser<Request>, line: string): Option<Request>
    requires IsFrame(line)
  {
    var encoded := line[|SCRIPT_BROWSER_REQUEST_FRAME_PREFIX|..];
    if |encoded| == 0 || |encoded| > MAX_ENCODED then None else decode(encoded)
  }

  function IndexOf(c: char, s: string): (i: Option<nat>)
    ensures i.None? <==> c !in s
    ensures i.Some? ==> i.value < |s| && s[i.value] == c && c !in s[..i.value]
  {
    if s == [] then None
    else if s[0] == c then Some(0)
    else
      var rest := IndexOf(c, s[1..]);
      if rest.None? then None
      else
        assert s[..rest.value + 1] == [s[0]] + s[1..][..rest.value];
        Some(rest.value + 1)
  }

  // ---------------------------------------------------------------- the whole-stream meaning

  /** Reads `text` line by line after output `out`. `open` means that the beginning of the first
      line has already gone to ordinary output. This definition knows no chunks and no buffer. */
  function LineByLine<Request>(decode: BodyParser<Request>, out: Output<Request>, open: bool, text: string): Output<Request>
    decreases |text|
  {
    if out.failed then out
    else match IndexOf('\n', text)
      case None =>
        if !open && IsFrame(text) then out.(failed := true) else out.(ordinary := out.ordinary + text)
      case Some(i) =>
        LineByLine(decode, OneLine(decode, out, open, text[..i]), false, text[i + 1..])
  }

  /** One complete line. */
  function OneLine<Request>(decode: BodyParser<Request>, out: Output<Request>, open: bool, line: string): Output<Request> {
    if !open && IsFrame(line) then
      match ParseFrame(decode, line)
      case Some(request) => out.(frames := out.frames + [request])
      case None => out.(failed := true)
    else out.(ordinary := out.ordinary + line + "\n")
  }

  lemma {:induction false} IndexOfIsFirst(c: char, s: string, i: nat)
    requires i < |s| && s[i] == c && c !in s[..i]
    ensures IndexOf(c, s) == Some(i)
  {
    if i > 0 {
      assert s[..i][0] == s[0];
      assert s[1..][..i - 1] == s[..i][1..];
      IndexOfIsFirst(c, s[1..], i - 1);
    }
  }

  lemma IndexOfPast(text: string, rest: string)
    requires '\n' !in text
    ensures '\n' in rest ==> IndexOf('\n', text + rest) == Some(|text| + IndexOf('\n', rest).value)
    ensures '\n' !in rest ==> IndexOf('\n', text + rest) == None
  {
    if '\n' in rest {
      var i := IndexOf('\n', rest).value;
      assert (text + rest)[..|text| + i] == text + rest[..i];
      IndexOfIsFirst('\n', text + rest, |text| + i);
    }
  }

  lemma FrameOrNotIsDecided(text: string, rest: string)
    requires |text| >= |SCRIPT_BROWSER_REQUEST_FRAME_PREFIX|
    ensures IsFrame(text + rest) == IsFrame(text)
  {
    PrefixIsDecided(SCRIPT_BROWSER_REQUEST_FRAME_PREFIX, text, rest);
  }

  lemma PrefixIsDecided(p: string, text: string, rest: string)
    requires |text| >= |p|
    ensures p <= text + rest <==> p <= text
  {
    assert (text + rest)[..|p|] == text[..|p|];
  }

  lemma UnfoldLine<Request>(decode: BodyParser<Request>, out: Output<Request>, open: bool, text: string, line: string, behind: string)
    requires !out.failed && '\n' !in line && text == line + "\n" + behind
    ensures LineByLine(decode, out, open, text) == LineByLine(decode, OneLine(decode, out, open, line), false, behind)
  {
    assert text[..|line|] == line && text[|line| + 1..] == behind;
    IndexOfIsFirst('\n', text, |line|);
  }

  /** Taking one complete line off the buffer keeps the meaning of everything still to come. */
  lemma LineKeepsMeaning<Request>(decode: BodyParser<Request>, out: Output<Request>, open: bool, text: string, rest: string)
    requires !out.failed && '\n' in text
    ensures var i := IndexOf('\n', text).value;
      LineByLine(decode, out, open, text + rest)
      == LineByLine(decode, OneLine(decode, out, open, text[..i]), false, text[i + 1..] + rest)
  {
    var i := IndexOf('\n', text).value;
    assert text + rest == text[..i] + "\n" + (text[i + 1..] + rest);
    UnfoldLine(decode, out, open, text + rest, text[..i], text[i + 1..] + rest);
  }

  lemma SpillOneLine<Request>(decode: BodyParser<Request>, out: Output<Request>, open: bool, text: string, tail: string)
    requires |text| >= |SCRIPT_BROWSER_REQUEST_FRAME_PREFIX| && (open || !IsFrame(text))
    ensures OneLine(decode, out, open, text + tail) == OneLine(decode, out.(ordinary := out.ordinary + text), true, tail)
  {
    FrameOrNotIsDecided(text, tail);
    assert out.ordinary + (text + tail) + "\n" == out.ordinary + text + tail + "\n";
  }

  /** The first line of `head + tail` ends where that of `tail` does. */
  lemma FirstLineOf<Request>(decode: BodyParser<Request>, out: Output<Request>, open: bool, head: string, tail: string)
    requires !out.failed && '\n' !in head && '\n' in tail
    ensures var i := IndexOf('\n', tail).value;
      LineByLine(decode, out, open, head + tail)
      == LineByLine(decode, OneLine(decode, out, open, head + tail[..i]), false, tail[i + 1..])
  {
    var i := IndexOf('\n', tail).value;
    assert head + tail == (head + tail[..i]) + "\n" + tail[i + 1..];
    UnfoldLine(decode, out, open, head + tail, head + tail[..i], tail[i + 1..]);
  }

  /** Forwarding an ordinary, unfinished line keeps the meaning. */
  lemma SpillKeepsMeaning<Request>(decode: BodyParser<Request>, out: Output<Request>, open: bool, text: string, rest: string)
    requires !out.failed && '\n' !in text && |text| >= |SCRIPT_BROWSER_REQUEST_FRAME_PREFIX| && (open || !IsFrame(text))
    ensures LineByLine(decode, out, open, text + rest)
         == LineByLine(decode, out.(ordinary := out.ordinary + text), true, rest)
  {
    if '\n' in rest {
      FirstLineOf(decode, out, open, text, rest);
      SpillOneLine(decode, out, open, text, rest[..IndexOf('\n', rest).value]);
    } else {
      IndexOfPast(text, rest);
      FrameOrNotIsDecided(text, rest);
      assert out.ordinary + (text + rest) == out.ordinary + text + rest;
    }
  }

  /** A frame that outgrows the buffer cannot be completed: its line is too long for any frame. */
  lemma OverlongFrameFails<Request>(decode: BodyParser<Request>, out: Output<Request>, text: string, rest: string)
    requires !out.failed && '\n' !in text && IsFrame(text) && |text| > MAX_SCRIPT_BROWSER_REQUEST_BYTES * 2
    ensures LineByLine(decode, out, false, text + rest) == out.(failed := true)
  {
    IndexOfPast(text, rest);
    FrameOrNotIsDecided(text, rest);
    if '\n' in rest {
      var i := IndexOf('\n', rest).value;
      assert (text + rest)[..|text| + i] == text + rest[..i];
      FrameOrNotIsDecided(text, rest[..i]);
    }
  }

  // ---------------------------------------------------------------- what a decoder notices

  /** Whether text that has arrived makes a decoder fail: a complete frame line was rejected, with what
      is `behind` it, or an unfinished frame has outgrown the buffer. */
  datatype Verdict = Fine | Rejected(behind: string) | Oversized

  function Judge<Request>(decode: BodyParser<Request>, open: bool, text: string): Verdict
    decreases |text|
  {
    match IndexOf('\n', text)
    case None => if !open && IsFrame(text) && |text| > MAX_SCRIPT_BROWSER_REQUEST_BYTES * 2 then Oversized else Fine
    case Some(i) =>
      if Rejects(decode, open, text[..i]) then Rejected(text[i + 1..]) else Judge(decode, false, text[i + 1..])
  }

  predicate Rejects<Request>(decode: BodyParser<Request>, open: bool, line: string) {
    !open && IsFrame(line) && ParseFrame(decode, line).None?
  }

  lemma JudgeUnfold<Request>(decode: BodyParser<Request>, open: bool, text: string, line: string, behind: string)
    requires '\n' !in line && text == line + "\n" + behind
    ensures Judge(decode, open, text) == if Rejects(decode, open, line) then Rejected(behind) else Judge(decode, false, behind)
  {
    assert text[..|line|] == line && text[|line| + 1..] == behind;
    IndexOfIsFirst('\n', text, |line|);
  }

  lemma JudgeLine<Request>(decode: BodyParser<Request>, open: bool, text: string, rest: string)
    requires '\n' in text
    ensures var i := IndexOf('\n', text).value;
      Judge(decode, open, text + rest)
      == if Rejects(decode, open, text[..i]) then Rejected(text[i + 1..] + rest) else Judge(decode, false, text[i + 1..] + rest)
  {
    var i := IndexOf('\n', text).value;
    assert text + rest == text[..i] + "\n" + (text[i + 1..] + rest);
    JudgeUnfold(decode, open, text + rest, text[..i], text[i + 1..] + rest);
  }

  lemma SpillKeepsVerdictOnLine<Request>(decode: BodyParser<Request>, open: bool, text: string, rest: string)
    requires '\n' !in text && |text| >= |SCRIPT_BROWSER_REQUEST_FRAME_PREFIX| && (open || !IsFrame(text)) && '\n' in rest
    ensures Judge(decode, open, text + rest) == Judge(decode, true, rest)
  {
    var i := IndexOf('\n', rest).value;
    var line, behind := rest[..i], rest[i + 1..];
    assert rest == line + "\n" + behind && text + rest == (text + line) + "\n" + behind;
    FrameOrNotIsDecided(text, line);
    JudgeUnfold(decode, open, text + rest, text + line, behind);
    JudgeUnfold(decode, true, rest, line, behind);
  }

  /** Forwarding an ordinary, unfinished line keeps the verdict on everything still to come. */
  lemma SpillKeepsVerdict<Request>(decode: BodyParser<Request>, open: bool, text: string, rest: string)
    requires '\n' !in text && |text| >= |SCRIPT_BROWSER_REQUEST_FRAME_PREFIX| && (open || !IsFrame(text))
    ensures Judge(decode, open, text + rest) == Judge(decode, true, rest)
  {
    if '\n' in rest {
      SpillKeepsVerdictOnLine(decode, open, text, rest);
    } else {
      IndexOfPast(text, rest);
      FrameOrNotIsDecided(text, rest);
    }
  }

  /** A complete line at the end of `head` is rejected, whatever comes behind. */
  ghost predicate RejectedAfter<Request(!new)>(decode: BodyParser<Request>, open: bool, head: string) {
    forall rest :: Judge(decode, open, head + rest) == Rejected(rest)
  }

  lemma RejectedFirstLine<Request(!new)>(decode: BodyParser<Request>, open: bool, line: string)
    requires '\n' !in line && Rejects(decode, open, line)
    ensures RejectedAfter(decode, open, line + "\n")
  {
    forall rest ensures Judge(decode, open, line + "\n" + rest) == Rejected(rest) {
      JudgeUnfold(decode, open, line + "\n" + rest, line, rest);
    }
  }

  lemma RejectedLaterLine<Request(!new)>(decode: BodyParser<Request>, open: bool, line: string, head: string)
    requires '\n' !in line && !Rejects(decode, open, line) && RejectedAfter(decode, false, head)
    ensures RejectedAfter(decode, open, line + "\n" + head)
  {
    forall rest ensures Judge(decode, open, line + "\n" + head + rest) == Rejected(rest) {
      RejoinLine(line, head, rest);
      JudgeUnfold(decode, open, line + "\n" + head + rest, line, head + rest);
    }
  }

  lemma RejoinLine(line: string, head: string, rest: string)
    ensures line + "\n" + head + rest == line + "\n" + (head + rest)
  {
  }

  /** A rejected line is rejected as soon as it has ended. */
  lemma {:induction false} RejectedAtItsEnd<Request(!new)>(decode: BodyParser<Request>, open: bool, text: string) returns (head: string)
    requires Judge(decode, open, text).Rejected?
    ensures text == head + Judge(decode, open, text).behind && RejectedAfter(decode, open, head)
    decreases |text|
  {
    var i := IndexOf('\n', text).value;
    var line, later := text[..i], text[i + 1..];
    assert text == line + "\n" + later;
    if Rejects(decode, open, line) {
      head := line + "\n";
      RejectedFirstLine(decode, open, line);
    } else {
      var more := RejectedAtItsEnd(decode, false, later);
      head := line + "\n" + more;
      RejectedLaterLine(decode, open, line, more);
      RejoinLine(line, more, Judge(decode, false, later).behind);
    }
  }

  /** More text does not undo a rejection. */
  lemma RejectionStays<Request(!new)>(decode: BodyParser<Request>, open: bool, text: string, rest: string)
    requires Judge(decode, open, text).Rejected?
    ensures Judge(decode, open, text + rest) == Rejected(Judge(decode, open, text).behind + rest)
  {
    var head := RejectedAtItsEnd(decode, open, text);
    assert Judge(decode, open, head + (Judge(decode, open, text).behind + rest)).Rejected?;
    Associative(head, Judge(decode, open, text).behind, rest);
  }

  lemma Associative(a: string, b: string, c: string)
    ensures a + b + c == a + (b + c)
  {
  }

  // ---------------------------------------------------------------- the decoder

  class ScriptBrowserFrameDecoder<Request(!new)> {
    const decode: BodyParser<Request>
    var pending: string
    var ordinaryLineOpen: bool
    var failure: Option<Failure>
    var frames: seq<Request>
    var ordinary: string

    constructor (decode: BodyParser<Request>)
      ensures this.decode == decode && State() == Output([], "", false) && pending == "" && !ordinaryLineOpen
    {
      this.decode := decode;
      pending, ordinaryLineOpen, failure, frames, ordinary := "", false, None, [], "";
    }

    function State(): Output<Request>
      reads this
    {
      Output(frames, ordinary, failure.Some?)
    }

    /** What the stream will have meant if `rest` is all that still comes. */
    function Meaning(rest: string): Output<Request>
      reads this
    {
      LineByLine(decode, State(), ordinaryLineOpen, pending + rest)
    }

    /** What the decoder will notice if `rest` comes in one chunk. */
    function VerdictOn(rest: string): Verdict
      reads this
    {
      Judge(decode, ordinaryLineOpen, pending + rest)
    }

    /** One chunk. A stream that has failed is destroyed and takes no more chunks. */
    method Write(chunk: string)
      modifies this
      ensures forall rest :: Meaning(rest) == old(Meaning(chunk + rest))
      ensures failure.None? ==> '\n' !in pending && |pending| <= MAX_SCRIPT_BROWSER_REQUEST_BYTES * 2
      ensures old(failure).Some? ==> State() == old(State()) && pending == old(pending) && ordinaryLineOpen == old(ordinaryLineOpen)
      ensures old(failure).None? ==>
                match old(VerdictOn(chunk))
                case Rejected(behind) => failure == Some(FrameRejected) && pending == behind && !ordinaryLineOpen
                case Oversized => failure == Some(BufferOversized) && IsFrame(pending) && !ordinaryLineOpen
                case Fine => failure.None? && forall rest :: VerdictOn(rest) == old(VerdictOn(chunk + rest))
    {
      if failure.Some? {
        return;
      }
      ghost var open0, text0, out0 := ordinaryLineOpen, pending + chunk, State();
      pending := pending + chunk;
      while '\n' in pending
        invariant failure.None?
        invariant forall rest :: Meaning(rest) == LineByLine(decode, out0, open0, text0 + rest)
        invariant forall rest :: VerdictOn(rest) == Judge(decode, open0, text0 + rest)
        decreases |pending|
      {
        forall rest {
          JudgeLine(decode, ordinaryLineOpen, pending, rest);
        }
        TakeLine();
        if failure.Some? {
          EqualContinuations(old(pending), chunk, text0);
          assert pending + "" == pending && text0 + "" == text0;
          return;
        }
      }
      assert pending + "" == pending && text0 + "" == text0;
      LimitPending();
      EqualContinuations(old(pending), chunk, text0);
    }

    /** Takes one complete line off the buffer: the rest of an open line, a frame, or ordinary text. */
    method TakeLine()
      requires failure.None? && '\n' in pending
      modifies this
      ensures forall rest :: Meaning(rest) == old(Meaning(rest))
      ensures |pending| < old(|pending|)
      ensures var newline := IndexOf('\n', old(pending)).value;
        && pending == old(pending)[newline + 1..] && !ordinaryLineOpen
        && failure == if Rejects(decode, old(ordinaryLineOpen), old(pending)[..newline]) then Some(FrameRejected) else None
    {
      var newline := IndexOf('\n', pending).value;
      var line := pending[..newline];
      forall rest {
        LineKeepsMeaning(decode, State(), ordinaryLineOpen, pending, rest);
      }
      pending := pending[newline + 1..];
      if ordinaryLineOpen {
        ordinary := ordinary + line + "\n";
        ordinaryLineOpen := false;
      } else if IsFrame(line) {
        match ParseFrame(decode, line) {
          case Some(request) => frames := frames + [request];
          case None => failure := Some(FrameRejected);
        }
      } else {
        ordinary := ordinary + line + "\n";
      }
    }

    /** The size check at the end of a chunk, when no complete line is left in the buffer. */
    method LimitPending()
      requires failure.None? && '\n' !in pending
      modifies this
      ensures forall rest :: Meaning(rest) == old(Meaning(rest))
      ensures failure.None? ==> '\n' !in pending && |pending| <= MAX_SCRIPT_BROWSER_REQUEST_BYTES * 2
      ensures failure.None? ==> old(VerdictOn("")).Fine? && forall rest :: VerdictOn(rest) == old(VerdictOn(rest))
      ensures failure.Some? ==> && failure == Some(BufferOversized) && IsFrame(pending) && !ordinaryLineOpen
                                && old(VerdictOn("")).Oversized?
    {
      assert pending + "" == pending;
      if |pending| > MAX_SCRIPT_BROWSER_REQUEST_BYTES * 2 {
        if !ordinaryLineOpen && (IsFrame(pending) || pending <= SCRIPT_BROWSER_REQUEST_FRAME_PREFIX) {
          forall rest {
            OverlongFrameFails(decode, State(), pending, rest);
          }
          failure := Some(BufferOversized);
        } else {
          forall rest {
            SpillKeepsMeaning(decode, State(), ordinaryLineOpen, pending, rest);
          }
          forall rest {
            SpillKeepsVerdict(decode, ordinaryLineOpen, pending, rest);
          }
          ordinary := ordinary + pending;
          pending := "";
          ordinaryLineOpen := true;
          assert forall rest :: pending + rest == rest;
        }
      }
    }

    lemma EqualContinuations(before: string, chunk: string, text: string)
      requires text == before + chunk
      ensures forall rest :: before + (chunk + rest) == text + rest
    {
      forall rest ensures before + (chunk + rest) == text + rest {
      }
    }

    /** The end of the stream: an unfinished line is ordinary unless it is a frame. */
    method FlushRemainder() returns (unterminated: bool)
      modifies this
      ensures unterminated <==> old(pending) != "" && !old(ordinaryLineOpen) && IsFrame(old(pending))
      ensures unterminated ==> State() == old(State()) && pending == old(pending)
      ensures !unterminated ==> State() == old(State().(ordinary := ordinary + pending)) && pending == ""
    {
      unterminated := false;
      if |pending| > 0 {
        if !ordinaryLineOpen && IsFrame(pending) {
          return true;
        }
        ordinary := ordinary + pending;
        pending := "";
      }
    }
  }

  // ---------------------------------------------------------------- any cutting of the stream

  /** What a stream means as a whole: its lines, read one by one. */
  function StreamMeaning<Request>(decode: BodyParser<Request>, stream: string): Output<Request> {
    LineByLine(decode, Output([], "", false), false, stream)
  }

  /** What a flush forwards of a buffer that starts a line. */
  function Forwarded(pending: string): string { if IsFrame(pending) then "" else pending }

  /** What a flush still forwards after a failed write, if `chunks` come one by one after `before`. */
  function Spilled<Request>(decode: BodyParser<Request>, before: string, chunks: seq<string>): string
    decreases |chunks|
  {
    if chunks == [] then ""
    else match Judge(decode, false, before + chunks[0])
      case Rejected(behind) => Forwarded(behind)
      case Oversized => ""
      case Fine => Spilled(decode, before + chunks[0], chunks[1..])
  }

  /** What a flush forwards after a failed write, once `chunks` have come, if the decoder has read
      exactly `seen` and has not failed before; `None` if its state does not fit that history. */
  ghost function WillSpill<Request(!new)>(decoder: ScriptBrowserFrameDecoder<Request>, seen: string, chunks: seq<string>): Option<string>
    reads decoder
  {
    if decoder.failure.Some? then if decoder.ordinaryLineOpen then None else Some(Forwarded(decoder.pending))
    else if Agrees(decoder.decode, decoder.ordinaryLineOpen, decoder.pending, seen)
    then Some(Spilled(decoder.decode, seen, chunks)) else None
  }

  method Feed<Request(!new)>(decoder: ScriptBrowserFrameDecoder<Request>, ghost seen: string, chunks: seq<string>)
    requires chunks != [] && WillSpill(decoder, seen, chunks).Some?
    modifies decoder
    ensures decoder.Meaning(Flatten(chunks[1..])) == old(decoder.Meaning(Flatten(chunks)))
    ensures WillSpill(decoder, seen + chunks[0], chunks[1..]) == old(WillSpill(decoder, seen, chunks))
    ensures decoder.failure.None? ==> '\n' !in decoder.pending
  {
    assert chunks == [chunks[0]] + chunks[1..];
    FlattenCons(chunks[0], chunks[1..]);
    ghost var open, pending := decoder.ordinaryLineOpen, decoder.pending;
    decoder.Write(chunks[0]);
    if decoder.failure.None? { AgreementGoesOn(decoder.decode, open, pending, seen, chunks[0], decoder.ordinaryLineOpen, decoder.pending); }
  }

  /** A decoder that has read `seen` and buffers `pending` judges what comes as if it had kept it all. */
  ghost predicate Agrees<Request(!new)>(decode: BodyParser<Request>, open: bool, pending: string, seen: string) {
    forall rest :: Judge(decode, open, pending + rest) == Judge(decode, false, seen + rest)
  }

  lemma AgreementGoesOn<Request(!new)>(decode: BodyParser<Request>, open: bool, pending: string, seen: string, chunk: string,
                                       open': bool, pending': string)
    requires Agrees(decode, open, pending, seen)
    requires forall rest :: Judge(decode, open', pending' + rest) == Judge(decode, open, pending + (chunk + rest))
    ensures Agrees(decode, open', pending', seen + chunk)
  {
    forall rest ensures Judge(decode, open', pending' + rest) == Judge(decode, false, seen + chunk + rest) {
      assert Judge(decode, open, pending + (chunk + rest)) == Judge(decode, false, seen + (chunk + rest));
      Associative(seen, chunk, rest);
    }
  }

  /** The flush at the end, and what it means. */
  method Finish<Request(!new)>(decoder: ScriptBrowserFrameDecoder<Request>, ghost seen: string)
    returns (out: Output<Request>, spill: string)
    requires WillSpill(decoder, seen, []).Some? && (decoder.failure.None? ==> '\n' !in decoder.pending)
    modifies decoder
    ensures out == old(decoder.Meaning("")) && Some(spill) == old(WillSpill(decoder, seen, []))
    ensures !out.failed ==> spill == ""
  {
    assert decoder.pending + "" == decoder.pending;
    var before, hadFailed := decoder.State(), decoder.failure.Some?;
    var unterminated := decoder.FlushRemainder();
    assert (before.ordinary + old(decoder.pending))[|before.ordinary|..] == old(decoder.pending);
    assert before.ordinary[|before.ordinary|..] == "";
    out := if hadFailed then before else decoder.State().(failed := unterminated);
    spill := if hadFailed then decoder.ordinary[|before.ordinary|..] else "";
  }

  /** Feeds a stream cut into arbitrary chunks and flushes. However the stream is cut, the frames
      dispatched, success or failure, and the ordinary output (up to a failure, if there is one) are
      those of the whole stream. `spill` is what the flush still forwards after a failed write. */
  method DecodeStream<Request(!new)>(decode: BodyParser<Request>, chunks: seq<string>)
    returns (out: Output<Request>, spill: string)
    ensures out == StreamMeaning(decode, Flatten(chunks))
    ensures spill == Spilled(decode, "", chunks)
    ensures !out.failed ==> spill == ""
  {
    var decoder := new ScriptBrowserFrameDecoder(decode);
    ghost var seen, whole, spilled := "", StreamMeaning(decode, Flatten(chunks)), Spilled(decode, "", chunks);
    assert "" + Flatten(chunks) == Flatten(chunks);
    var later := chunks;
    while later != []
      invariant decoder.decode == decode && decoder.Meaning(Flatten(later)) == whole
      invariant decoder.failure.None? ==> '\n' !in decoder.pending
      invariant WillSpill(decoder, seen, later) == Some(spilled)
      decreases |later|
    {
      Feed(decoder, seen, later);
      seen, later := seen + later[0], later[1..];
    }
    out, spill := Finish(decoder, seen);
  }

  // ---------------------------------------------------------------- streams made of lines

  /** The lines, each ended. */
  function Terminated(lines: seq<string>): string {
    if lines == [] then "" else lines[0] + "\n" + Terminated(lines[1..])
  }

  /** What stands behind the prefix of a frame line. */
  function BodyOf(line: string): string
    requires IsFrame(line)
  {
    line[|SCRIPT_BROWSER_REQUEST_FRAME_PREFIX|..]
  }

  /** A frame whose body has 1 to `MAX_ENCODED` characters and decodes. */
  predicate GoodFrame<Request>(decode: BodyParser<Request>, line: string) {
    IsFrame(line) && 1 <= |BodyOf(line)| <= MAX_ENCODED && decode(BodyOf(line)).Some?
  }

  /** Complete lines all of whose frames are good. */
  predicate GoodLines<Request>(decode: BodyParser<Request>, lines: seq<string>) {
    forall i :: 0 <= i < |lines| ==> '\n' !in lines[i] && (IsFrame(lines[i]) ==> GoodFrame(decode, lines[i]))
  }

  /** The decoded bodies of the frames, in order. */
  function RequestsOf<Request>(decode: BodyParser<Request>, lines: seq<string>): seq<Request>
    requires GoodLines(decode, lines)
  {
    if lines == [] then []
    else (if IsFrame(lines[0]) then [decode(BodyOf(lines[0])).value] else []) + RequestsOf(decode, lines[1..])
  }

  /** The lines that are no frames, in order, each ended. */
  function OrdinaryOf(lines: seq<string>): string {
    if lines == [] then "" else (if IsFrame(lines[0]) then "" else lines[0] + "\n") + OrdinaryOf(lines[1..])
  }

  lemma Regroup<T>(a: seq<T>, b: seq<T>, c: seq<T>)
    ensures a + b + c == a + (b + c)
  {
  }

  /** Reading good lines dispatches their frames and forwards the others. */
  lemma {:induction false} GoodLinesAreRead<Request>(decode: BodyParser<Request>, out: Output<Request>, lines: seq<string>, rest: string)
    requires !out.failed && GoodLines(decode, lines)
    ensures LineByLine(decode, out, false, Terminated(lines) + rest)
         == LineByLine(decode, Output(out.frames + RequestsOf(decode, lines), out.ordinary + OrdinaryOf(lines), false), false, rest)
    decreases |lines|
  {
    if lines == [] {
      assert out.frames + [] == out.frames && out.ordinary + "" == out.ordinary && "" + rest == rest;
    } else {
      var line, later := lines[0], lines[1..];
      assert GoodLines(decode, later);
      Rejoin("", line, Terminated(later) + rest);
      assert Terminated(lines) + rest == line + "\n" + (Terminated(later) + rest);
      UnfoldLine(decode, out, false, Terminated(lines) + rest, line, Terminated(later) + rest);
      GoodLinesAreRead(decode, OneLine(decode, out, false, line), later, rest);
      if IsFrame(line) {
        Regroup(out.frames, [decode(BodyOf(line)).value], RequestsOf(decode, later));
        assert "" + OrdinaryOf(later) == OrdinaryOf(later);
      } else {
        Regroup(out.ordinary, line + "\n", OrdinaryOf(later));
        assert out.ordinary + line + "\n" == out.ordinary + (line + "\n");
        assert [] + RequestsOf(decode, later) == RequestsOf(decode, later);
      }
    }
  }

  /** How a stream ends behind its good lines: with an unfinished ordinary line, an unfinished frame, or
      a complete frame that is not good and whatever comes behind it. */
  datatype Ending = Unfinished(text: string) | UnfinishedFrame(text: string) | BadFrame(line: string, behind: string)

  function TextOf(ending: Ending): string {
    match ending
    case Unfinished(text) => text
    case UnfinishedFrame(text) => text
    case BadFrame(line, behind) => line + "\n" + behind
  }

  predicate Ends<Request>(decode: BodyParser<Request>, ending: Ending) {
    match ending
    case Unfinished(text) => '\n' !in text && !IsFrame(text)
    case UnfinishedFrame(text) => '\n' !in text && IsFrame(text)
    case BadFrame(line, _) => '\n' !in line && IsFrame(line) && !GoodFrame(decode, line)
  }

  lemma LineInFront<Request>(decode: BodyParser<Request>, line: string, later: seq<string>, rest: string)
    requires GoodLines(decode, later) && '\n' !in line && (IsFrame(line) ==> GoodFrame(decode, line))
    ensures GoodLines(decode, [line] + later)
    ensures Terminated([line] + later) + rest == line + "\n" + (Terminated(later) + rest)
  {
    assert ([line] + later)[1..] == later;
    RejoinLine(line, Terminated(later), rest);
  }

  lemma CutLine(stream: string) returns (line: string, behind: string)
    requires '\n' in stream
    ensures '\n' !in line && stream == line + "\n" + behind && |behind| < |stream|
  {
    var i := IndexOf('\n', stream).value;
    line, behind := stream[..i], stream[i + 1..];
  }

  /** Every stream is good lines and an ending. */
  lemma {:induction false} StreamsAreLines<Request>(decode: BodyParser<Request>, stream: string) returns (lines: seq<string>, ending: Ending)
    ensures GoodLines(decode, lines) && Ends(decode, ending) && stream == Terminated(lines) + TextOf(ending)
    decreases |stream|
  {
    lines := [];
    if '\n' !in stream {
      ending := if IsFrame(stream) then UnfinishedFrame(stream) else Unfinished(stream);
    } else {
      var line, behind := CutLine(stream);
      if IsFrame(line) && !GoodFrame(decode, line) {
        ending := BadFrame(line, behind);
      } else {
        lines, ending := StreamsAreLines(decode, behind);
        LineInFront(decode, line, lines, TextOf(ending));
        lines := [line] + lines;
      }
    }
  }

  lemma EndingIsRead<Request>(decode: BodyParser<Request>, out: Output<Request>, ending: Ending)
    requires !out.failed && Ends(decode, ending)
    ensures LineByLine(decode, out, false, TextOf(ending))
         == Output(out.frames, out.ordinary + (if ending.Unfinished? then ending.text else ""), !ending.Unfinished?)
  {
    assert out.ordinary + "" == out.ordinary;
    if ending.BadFrame? {
      UnfoldLine(decode, out, false, TextOf(ending), ending.line, ending.behind);
    }
  }

  /** A decoder, however its input is cut, dispatches exactly the decoded bodies of the frames, in order,
      forwards exactly the other lines, and fails exactly if the stream ends in a bad or unfinished
      frame; what the flush spills behind a bad frame comes on top of that. */
  method DecodeLines<Request(!new)>(decode: BodyParser<Request>, lines: seq<string>, ending: Ending, chunks: seq<string>)
    returns (out: Output<Request>, spill: string)
    requires GoodLines(decode, lines) && Ends(decode, ending) && Flatten(chunks) == Terminated(lines) + TextOf(ending)
    ensures out.frames == RequestsOf(decode, lines)
    ensures out.ordinary == OrdinaryOf(lines) + (if ending.Unfinished? then ending.text else "")
    ensures out.failed <==> !ending.Unfinished?
    ensures spill != "" ==> ending.BadFrame? && spill <= ending.behind
  {
    out, spill := DecodeStream(decode, chunks);
    LinesAreRead(decode, lines, ending);
    SpillIsBehind(decode, "", chunks);
    assert "" + Flatten(chunks) == Flatten(chunks);
    GoodLinesAreJudgedFine(decode, lines, TextOf(ending));
    if ending.BadFrame? { JudgeUnfold(decode, false, TextOf(ending), ending.line, ending.behind); }
  }

  lemma LinesAreRead<Request>(decode: BodyParser<Request>, lines: seq<string>, ending: Ending)
    requires GoodLines(decode, lines) && Ends(decode, ending)
    ensures StreamMeaning(decode, Terminated(lines) + TextOf(ending))
         == Output(RequestsOf(decode, lines), OrdinaryOf(lines) + (if ending.Unfinished? then ending.text else ""), !ending.Unfinished?)
  {
    GoodLinesAreRead(decode, Output([], "", false), lines, TextOf(ending));
    assert [] + RequestsOf(decode, lines) == RequestsOf(decode, lines) && "" + OrdinaryOf(lines) == OrdinaryOf(lines);
    EndingIsRead(decode, Output(RequestsOf(decode, lines), OrdinaryOf(lines), false), ending);
  }

  lemma {:induction false} GoodLinesAreJudgedFine<Request>(decode: BodyParser<Request>, lines: seq<string>, rest: string)
    requires GoodLines(decode, lines)
    ensures Judge(decode, false, Terminated(lines) + rest) == Judge(decode, false, rest)
    decreases |lines|
  {
    if lines == [] {
      assert "" + rest == rest;
    } else {
      var line, later := lines[0], lines[1..];
      assert GoodLines(decode, later);
      assert Terminated(lines) + rest == line + "\n" + (Terminated(later) + rest);
      JudgeUnfold(decode, false, Terminated(lines) + rest, line, Terminated(later) + rest);
      GoodLinesAreJudgedFine(decode, later, rest);
    }
  }

  // ---------------------------------------------------------------- what the cut does decide

  /** What is spilled has stood behind the rejected line. */
  lemma {:induction false} SpillIsBehind<Request(!new)>(decode: BodyParser<Request>, before: string, chunks: seq<string>)
    ensures var spill, verdict := Spilled(decode, before, chunks), Judge(decode, false, before + Flatten(chunks));
      spill == "" || (verdict.Rejected? && spill <= verdict.behind)
    decreases |chunks|
  {
    if chunks != [] {
      var text, later := before + chunks[0], Flatten(chunks[1..]);
      assert chunks == [chunks[0]] + chunks[1..];
      FlattenCons(chunks[0], chunks[1..]);
      assert before + Flatten(chunks) == text + later;
      match Judge(decode, false, text)
      case Rejected(_) => RejectionStays(decode, false, text, later);
      case Oversized =>
      case Fine => SpillIsBehind(decode, text, chunks[1..]);
    }
  }

  lemma TwoChunks(a: string, b: string)
    ensures Flatten([a, b]) == a + b
  {
    assert [a, b] == [a] + [b] && [a] == [] + [a];
    FlattenSnoc([a], b);
    FlattenSnoc([], a);
  }

  lemma SpillOfFirst<Request>(decode: BodyParser<Request>, chunk: string, later: seq<string>)
    requires Judge(decode, false, chunk).Rejected?
    ensures Spilled(decode, "", [chunk] + later) == Forwarded(Judge(decode, false, chunk).behind)
  {
    assert "" + chunk == chunk;
  }

  lemma Halves(head: string, behind: string, k: nat)
    requires k <= |behind|
    ensures Flatten([head + behind[..k]] + [behind[k..]]) == head + behind
  {
    TwoChunks(head + behind[..k], behind[k..]);
    assert head + behind[..k] + behind[k..] == head + behind;
  }

  /** A cut `k` characters behind the rejected line. */
  lemma CutBehind<Request(!new)>(decode: BodyParser<Request>, stream: string, k: nat) returns (chunks: seq<string>)
    requires Judge(decode, false, stream).Rejected? && k <= |Judge(decode, false, stream).behind|
    ensures Flatten(chunks) == stream && Spilled(decode, "", chunks) == Forwarded(Judge(decode, false, stream).behind[..k])
  {
    var behind := Judge(decode, false, stream).behind;
    var head := RejectedAtItsEnd(decode, false, stream);
    assert Judge(decode, false, head + behind[..k]) == Rejected(behind[..k]);
    chunks := [head + behind[..k]] + [behind[k..]];
    SpillOfFirst(decode, head + behind[..k], [behind[k..]]);
    Halves(head, behind, k);
  }

  /** Everything that reaches ordinary output, the flush included. */
  function OrdinaryOutput<Request>(decode: BodyParser<Request>, chunks: seq<string>): string {
    StreamMeaning(decode, Flatten(chunks)).ordinary + Spilled(decode, "", chunks)
  }

  /** Ordinary output is the same for all cuts of a stream. */
  ghost predicate OutputIgnoresCut<Request(!new)>(decode: BodyParser<Request>, stream: string) {
    forall chunks, chunks' :: Flatten(chunks) == stream && Flatten(chunks') == stream ==>
      OrdinaryOutput(decode, chunks) == OrdinaryOutput(decode, chunks')
  }

  lemma {:induction false} RejectionFails<Request>(decode: BodyParser<Request>, out: Output<Request>, open: bool, text: string)
    requires !out.failed && Judge(decode, open, text).Rejected?
    ensures LineByLine(decode, out, open, text).failed
    decreases |text|
  {
    var i := IndexOf('\n', text).value;
    assert text == text[..i] + "\n" + text[i + 1..];
    UnfoldLine(decode, out, open, text, text[..i], text[i + 1..]);
    if !Rejects(decode, open, text[..i]) {
      RejectionFails(decode, OneLine(decode, out, open, text[..i]), false, text[i + 1..]);
    }
  }

  lemma NothingBehindNothingSpilled<Request(!new)>(decode: BodyParser<Request>, stream: string)
    requires var verdict := Judge(decode, false, stream); !(verdict.Rejected? && verdict.behind != "")
    ensures forall chunks :: Flatten(chunks) == stream ==> OrdinaryOutput(decode, chunks) == StreamMeaning(decode, stream).ordinary
  {
    forall chunks | Flatten(chunks) == stream ensures OrdinaryOutput(decode, chunks) == StreamMeaning(decode, stream).ordinary {
      SpillIsBehind(decode, "", chunks);
      assert "" + Flatten(chunks) == stream;
    }
  }

  /** Exactly when all output is independent of the cut: when no rejected frame line has text behind
      it. Such text is forwarded as far as it came in the chunk that ended the line, unless it starts
      with another frame; otherwise ordinary output is what the lines say. */
  lemma OutputIgnoresCutExactly<Request(!new)>(decode: BodyParser<Request>, stream: string)
    ensures var verdict := Judge(decode, false, stream);
      && (OutputIgnoresCut(decode, stream) <==> !(verdict.Rejected? && verdict.behind != ""))
      && (verdict.Rejected? ==> StreamMeaning(decode, stream).failed)
    ensures OutputIgnoresCut(decode, stream) ==>
              forall chunks :: Flatten(chunks) == stream ==> OrdinaryOutput(decode, chunks) == StreamMeaning(decode, stream).ordinary
  {
    var verdict := Judge(decode, false, stream);
    if verdict.Rejected? { RejectionFails(decode, Output([], "", false), false, stream); }
    if verdict.Rejected? && verdict.behind != "" {
      var none := CutBehind(decode, stream, 0);
      var one := CutBehind(decode, stream, 1);
      assert |OrdinaryOutput(decode, one)| != |OrdinaryOutput(decode, none)|;
    } else {
      NothingBehindNothingSpilled(decode, stream);
    }
  }

  const FRAME_LINE: string := SCRIPT_BROWSER_REQUEST_FRAME_PREFIX + "x"

  lemma FrameLineIsRejected<Request(!new)>(decode: BodyParser<Request>)
    requires decode("x") == None
    ensures RejectedAfter(decode, false, FRAME_LINE + "\n")
  {
    assert FRAME_LINE[|SCRIPT_BROWSER_REQUEST_FRAME_PREFIX|..] == "x";
    RejectedFirstLine(decode, false, FRAME_LINE);
  }

  /** Two cuts of one stream: behind a rejected frame comes an `a`, which is forwarded only if it
      comes in the same chunk. */
  lemma CutBehindRejectedFrameMatters<Request(!new)>(decode: BodyParser<Request>)
    requires decode("x") == None
    ensures Flatten([FRAME_LINE + "\n" + "a"] + []) == Flatten([FRAME_LINE + "\n"] + ["a"])
    ensures Spilled(decode, "", [FRAME_LINE + "\n" + "a"] + []) == "a"
    ensures Spilled(decode, "", [FRAME_LINE + "\n"] + ["a"]) == ""
  {
    var frame := FRAME_LINE + "\n";
    FrameLineIsRejected(decode);
    assert Judge(decode, false, frame + "a") == Rejected("a");
    assert Judge(decode, false, frame + "") == Rejected("") && frame + "" == frame;
    SpillOfFirst(decode, frame, ["a"]);
    SpillOfFirst(decode, frame + "a", []);
    TwoChunks(frame, "a");
    FlattenCons(frame + "a", []);
  }

  /** No line of `text` starts with the frame prefix. */
  predicate FrameFree(text: string)
    decreases |text|
  {
    match IndexOf('\n', text)
    case None => !IsFrame(text)
    case Some(i) => !IsFrame(text[..i]) && FrameFree(text[i + 1..])
  }

  /** Ordinary output passes through byte for byte: a stream without frames is its own output. */
  lemma {:induction false} OrdinaryTextPassesThrough<Request>(decode: BodyParser<Request>, out: Output<Request>, text: string)
    requires !out.failed && FrameFree(text)
    ensures LineByLine(decode, out, false, text) == out.(ordinary := out.ordinary + text)
    decreases |text|
  {
    if '\n' in text {
      var i := IndexOf('\n', text).value;
      var line, behind := text[..i], text[i + 1..];
      assert text == line + "\n" + behind;
      UnfoldLine(decode, out, false, text, line, behind);
      OrdinaryTextPassesThrough(decode, out.(ordinary := out.ordinary + line + "\n"), behind);
      Rejoin(out.ordinary, line, behind);
    }
  }

  lemma Rejoin(before: string, line: string, behind: string)
    ensures before + line + "\n" + behind == before + (line + "\n" + behind)
  {
  }
}
