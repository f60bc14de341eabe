/** Byte arithmetic of a Script's structured result: what the wrapper prints, what the stdout
    collector keeps, and what the control plane reads back. Text is ASCII. */
module OutputFraming {
  import opened Wrappers
  import opened Numbers
  import opened Sequences

  // ---------------------------------------------------------------- the stdout collector

  /** The first `limit` bytes of a stream. */
  function Kept(stream: string, limit: nat): string {
    if |stream| <= limit then stream else stream[..limit]
  }

  class LimitedCollector {
    const limitBytes: nat
    var chunks: seq<string>
    var totalBytes: nat
    var limitError: bool
    ghost var received: string

    /** However the stream was cut, exactly its first `limitBytes` bytes are retained, and the
        error is set exactly when more has arrived. */
    ghost predicate Valid()
      reads this
    {
      && Collected() == Kept(received, limitBytes) && totalBytes == |Collected()|
      && (limitError <==> |received| > limitBytes)
    }

    function Collected(): string
      reads this
    {
      Flatten(chunks)
    }

    constructor (limitBytes: nat)
      ensures Valid() && received == "" && this.limitBytes == limitBytes
    {
      this.limitBytes := limitBytes;
      chunks, totalBytes, limitError, received := [], 0, false, "";
    }

    method Write(chunk: string)
      requires Valid()
      modifies this
      ensures Valid() && received == old(received) + chunk
    {
      received := received + chunk;
      if limitError {
        assert received[..limitBytes] == old(received)[..limitBytes];
        return;
      }
      assert Kept(old(received), limitBytes) == old(received);
      var remainingBytes := if limitBytes >= totalBytes then limitBytes - totalBytes else 0;
      if remainingBytes > 0 {
        var retained := if |chunk| <= remainingBytes then chunk else chunk[..remainingBytes];
        FlattenSnoc(chunks, retained);
        chunks := chunks + [retained];
        totalBytes := totalBytes + |retained|;
      }
      if |chunk| > remainingBytes {
        limitError := true;
      }
    }
  }

  // ---------------------------------------------------------------- limits

  /** resolveEffectiveScriptOutputBytes. */
  function EffectiveOutputBytes(maxOutputBytes: int, maxSingleFileWriteBytes: int, maxStdoutBytes: int, marker: string): nat {
    var framingBytes := |"\n" + marker + "\n"|;
    var overflowSentinelBytes := 1;
    Max(0, Min(maxOutputBytes, Min(maxSingleFileWriteBytes, maxStdoutBytes - framingBytes - overflowSentinelBytes)))
  }

  /** What the wrapper of a non-browser Script writes to stdout. The entry command's own stdout goes to
      stderr; then come the marker line and the head of the output file, if there is one. */
  function WrapperStdout(marker: string, file: Option<string>, maxOutputBytes: nat): string {
    "\n" + marker + "\n" + (if file.None? then "" else Kept(file.value, maxOutputBytes + 1))
  }

  // ---------------------------------------------------------------- reading it back

  /** Whether `pattern` occurs in `s` at index `i`. */
  predicate OccursAt(pattern: string, s: string, i: nat) {
    i + |pattern| <= |s| && s[i..i + |pattern|] == pattern
  }

  function LastIndexOf(pattern: string, s: string, from: nat): (r: Option<nat>)
    ensures r.Some? ==> OccursAt(pattern, s, r.value) && r.value <= from && forall k :: r.value < k <= from ==> !OccursAt(pattern, s, k)
    ensures r.None? ==> forall k :: 0 <= k <= from ==> !OccursAt(pattern, s, k)
  {
    if OccursAt(pattern, s, from) then Some(from)
    else if from == 0 then None
    else LastIndexOf(pattern, s, from - 1)
  }

  predicate IsSpace(c: char) {
    c in " \t\n\r" || c as int == 11 || c as int == 12
  }

  function TrimStart(s: string): string {
    if s != "" && IsSpace(s[0]) then TrimStart(s[1..]) else s
  }

  function TrimEnd(s: string): string {
    if s != "" && IsSpace(s[|s| - 1]) then TrimEnd(s[..|s| - 1]) else s
  }

  function Trim(s: string): string { TrimEnd(TrimStart(s)) }

  /** Neither end is white space. */
  predicate Trimmed(s: string) {
    s != "" ==> !IsSpace(s[0]) && !IsSpace(s[|s| - 1])
  }

  function DropOneTrailingNewline(s: string): string {
    if s != "" && s[|s| - 1] == '\n' then s[..|s| - 1] else s
  }

  function DropOneLeadingNewline(s: string): string {
    if s != "" && s[0] == '\n' then s[1..] else s
  }

  function NonEmpty(s: string): Option<string> {
    if s == "" then None else Some(s)
  }

  /** splitScriptExecutionStdout: (diagnostic stdout, result text). */
  function SplitStdout(raw: string, marker: string): (Option<string>, Option<string>) {
    match LastIndexOf(marker, raw, |raw|)
    case None => (NonEmpty(raw), None)
    case Some(i) =>
      (NonEmpty(DropOneTrailingNewline(raw[..i])), NonEmpty(Trim(DropOneLeadingNewline(raw[i + |marker|..]))))
  }

  datatype ParseError = OutputMissing | OutputTooLarge | OutputNotJson

  /** parseScriptExecutionResultJson; JSON.parse is abstract. */
  function ParseResult<Json>(parse: string -> Option<Json>, text: Option<string>, maxOutputBytes: nat): Result<Json, ParseError> {
    match text
    case None => Err(OutputMissing)
    case Some(t) =>
      if |t| > maxOutputBytes then Err(OutputTooLarge)
      else match parse(t)
        case Some(v) => Ok(v)
        case None => Err(OutputNotJson)
  }

  // ---------------------------------------------------------------- the marker is found where it was put

  predicate Contains(s: string, pattern: string) {
    exists i :: 0 <= i <= |s| && OccursAt(pattern, s, i)
  }

  /** A non-empty marker without line breaks occurs last on its own line, unless the file has it. What
      the Script printed before makes no difference. */
  lemma MarkerIsFound(marker: string, diagnostic: string, body: string)
    requires marker != "" && '\n' !in marker && !Contains(body, marker)
    ensures var raw := diagnostic + "\n" + marker + "\n" + body; LastIndexOf(marker, raw, |raw|) == Some(|diagnostic| + 1)
  {
    var raw := diagnostic + "\n" + marker + "\n" + body;
    var n, p := |marker|, |diagnostic| + 1;
    assert raw[p..p + n] == marker && OccursAt(marker, raw, p);
    assert raw[p + n] == '\n';
    forall k | p < k <= |raw| ensures !OccursAt(marker, raw, k) {
      if k <= p + n {
        if k + n <= |raw| {
          assert raw[k..k + n][p + n - k] == '\n';
        }
      } else {
        assert raw[p + n + 1..] == body;
        if k + n <= |raw| {
          assert raw[k..k + n] == body[k - p - n - 1..k - p - 1];
          assert !OccursAt(marker, body, k - p - n - 1);
        }
      }
    }
  }

  /** Everything before the marker line is diagnostic output, everything behind it the result. */
  lemma MarkerSeparates(marker: string, diagnostic: string, body: string)
    requires marker != "" && '\n' !in marker && !Contains(body, marker)
    ensures SplitStdout(diagnostic + "\n" + marker + "\n" + body, marker) == (NonEmpty(diagnostic), NonEmpty(Trim(body)))
  {
    var raw := diagnostic + "\n" + marker + "\n" + body;
    MarkerIsFound(marker, diagnostic, body);
    assert raw[..|diagnostic| + 1] == diagnostic + "\n" && (diagnostic + "\n")[..|diagnostic|] == diagnostic;
    assert raw[|diagnostic| + 1 + |marker|..] == "\n" + body;
    assert ("\n" + body)[1..] == body;
  }

  /** Without a marker all of it is diagnostic output. */
  lemma NoMarkerNoResult(marker: string, raw: string)
    requires !Contains(raw, marker)
    ensures SplitStdout(raw, marker) == (NonEmpty(raw), None)
  {
    assert forall i :: 0 <= i <= |raw| ==> !OccursAt(marker, raw, i);
  }

  lemma SplitOfWrapperStdout(marker: string, body: string)
    requires marker != "" && '\n' !in marker && !Contains(body, marker)
    ensures SplitStdout("\n" + marker + "\n" + body, marker) == (None, NonEmpty(Trim(body)))
  {
    assert "" + "\n" == "\n";
    MarkerSeparates(marker, "", body);
  }

  // ---------------------------------------------------------------- trimming and limits

  predicate AllSpace(s: string) { forall i :: 0 <= i < |s| ==> IsSpace(s[i]) }

  lemma {:induction false} TrimStartTakesSpace(s: string) returns (head: string)
    ensures s == head + TrimStart(s) && AllSpace(head) && (TrimStart(s) != "" ==> !IsSpace(TrimStart(s)[0]))
  {
    head := "";
    if s != "" && IsSpace(s[0]) {
      head := TrimStartTakesSpace(s[1..]);
      assert s == [s[0]] + s[1..];
      head := [s[0]] + head;
    }
  }

  lemma {:induction false} TrimEndTakesSpace(s: string) returns (tail: string)
    ensures s == TrimEnd(s) + tail && AllSpace(tail) && (TrimEnd(s) != "" ==> !IsSpace(TrimEnd(s)[|TrimEnd(s)| - 1]))
  {
    tail := "";
    if s != "" && IsSpace(s[|s| - 1]) {
      tail := TrimEndTakesSpace(s[..|s| - 1]);
      assert s == s[..|s| - 1] + [s[|s| - 1]];
      tail := tail + [s[|s| - 1]];
    }
  }

  /** Trimming takes white space off both ends, all of it and nothing else. */
  lemma TrimTakesSpace(s: string) returns (head: string, tail: string)
    ensures s == head + Trim(s) + tail && AllSpace(head) && AllSpace(tail) && Trimmed(Trim(s))
  {
    head := TrimStartTakesSpace(s);
    tail := TrimEndTakesSpace(TrimStart(s));
    if Trim(s) != "" { assert Trim(s)[0] == TrimStart(s)[0]; }
    assert head + (Trim(s) + tail) == head + Trim(s) + tail;
  }

  /** The effective limit is the largest that keeps both caps of the policy and under which the wrapper's
      output, even for a longer file, fits the stdout cap. */
  lemma EffectiveLimitIsLargest(marker: string, maxOutputBytes: int, maxSingleFileWriteBytes: int, maxStdoutBytes: int, n: nat, file: string)
    requires n >= 1 && |file| > n
    ensures n <= EffectiveOutputBytes(maxOutputBytes, maxSingleFileWriteBytes, maxStdoutBytes, marker)
        <==> n <= maxOutputBytes && n <= maxSingleFileWriteBytes && |WrapperStdout(marker, Some(file), n)| <= maxStdoutBytes
  {
  }

  lemma {:induction false} TrimIsNoLonger(s: string)
    ensures |TrimStart(s)| <= |s| && |TrimEnd(s)| <= |s|
  {
    if s != "" {
      TrimIsNoLonger(s[1..]);
      TrimIsNoLonger(s[..|s| - 1]);
    }
  }

  lemma TrimShortensUntrimmed(s: string)
    ensures if Trimmed(s) then Trim(s) == s else |Trim(s)| < |s|
  {
    TrimIsNoLonger(TrimStart(s));
    if s != "" {
      TrimIsNoLonger(s[1..]);
      TrimIsNoLonger(s[..|s| - 1]);
    }
  }

  lemma PrefixContainsNoMore(s: string, n: nat, pattern: string)
    requires n <= |s| && !Contains(s, pattern)
    ensures !Contains(s[..n], pattern)
  {
    forall i | 0 <= i <= n && OccursAt(pattern, s[..n], i) ensures false {
      assert s[i..i + |pattern|] == s[..n][i..i + |pattern|];
      assert OccursAt(pattern, s, i);
    }
  }

  /** What is read back is the printed head of the file, trimmed. */
  lemma ReadBackIsTrimmedHead(marker: string, file: Option<string>, limit: nat)
    requires marker != "" && '\n' !in marker && (file.Some? ==> !Contains(file.value, marker))
    ensures SplitStdout(WrapperStdout(marker, file, limit), marker)
         == (None, if file.None? then None else NonEmpty(Trim(Kept(file.value, limit + 1))))
  {
    var body := if file.None? then "" else Kept(file.value, limit + 1);
    if file.Some? && |file.value| > limit + 1 {
      PrefixContainsNoMore(file.value, limit + 1, marker);
    }
    SplitOfWrapperStdout(marker, body);
  }

  /** A file over the limit is rejected as too large exactly when the head that was printed, one byte
      over the limit, has no white space at its ends. */
  lemma OverlongFileIsRejected<Json>(parse: string -> Option<Json>, file: string, limit: nat)
    requires |file| > limit
    ensures ParseResult(parse, NonEmpty(Trim(Kept(file, limit + 1))), limit) == Err(OutputTooLarge) <==> Trimmed(file[..limit + 1])
  {
    var head := file[..limit + 1];
    assert Kept(file, limit + 1) == head;
    TrimShortensUntrimmed(head);
  }

  /** Exactly when a file over the limit is taken for a result: when white space at an end of the head
      was trimmed away and what is left is not empty and parses. */
  lemma OverlongFileIsAccepted<Json>(parse: string -> Option<Json>, file: string, limit: nat)
    requires |file| > limit
    ensures var head := file[..limit + 1];
      ParseResult(parse, NonEmpty(Trim(Kept(file, limit + 1))), limit).Ok? <==> !Trimmed(head) && Trim(head) != "" && parse(Trim(head)).Some?
  {
    assert Kept(file, limit + 1) == file[..limit + 1];
    TrimShortensUntrimmed(file[..limit + 1]);
  }

  lemma ShortFileIsAccepted<Json>(parse: string -> Option<Json>, file: string, limit: nat)
    requires |file| <= limit
    ensures Kept(file, limit + 1) == file
    ensures ParseResult(parse, NonEmpty(Trim(file)), limit)
         == if Trim(file) == "" then Err(OutputMissing)
            else if parse(Trim(file)).Some? then Ok(parse(Trim(file)).value) else Err(OutputNotJson)
  {
    TrimIsNoLonger(file);
    TrimIsNoLonger(TrimStart(file));
  }

  /** The result protocol. With an effective limit of at least one byte the wrapper never trips the
      stdout cap, so the collector keeps its output whole. A marker-free file within the limit comes
      back trimmed and is the result if it parses; a longer one is too large exactly when its printed head has
      no white space at its ends; no file is reported missing. */
  lemma ResultProtocol<Json>(parse: string -> Option<Json>, marker: string, file: Option<string>,
                             maxOutputBytes: int, maxSingleFileWriteBytes: int, maxStdoutBytes: nat)
    requires marker != "" && '\n' !in marker && (file.Some? ==> !Contains(file.value, marker))
    ensures var limit := EffectiveOutputBytes(maxOutputBytes, maxSingleFileWriteBytes, maxStdoutBytes, marker);
      limit >= 1 ==>
        var stdout := WrapperStdout(marker, file, limit);
        var (diagnostic, text) := SplitStdout(stdout, marker);
        && |stdout| <= maxStdoutBytes && Kept(stdout, maxStdoutBytes) == stdout
        && diagnostic == None
        && (file.None? ==> text == None && ParseResult(parse, text, limit) == Err(OutputMissing))
        && (file.Some? && |file.value| <= limit ==>
              && text == NonEmpty(Trim(file.value))
              && ParseResult(parse, text, limit)
                 == if Trim(file.value) == "" then Err(OutputMissing)
                    else if parse(Trim(file.value)).Some? then Ok(parse(Trim(file.value)).value) else Err(OutputNotJson))
        && (file.Some? && |file.value| > limit ==>
              (ParseResult(parse, text, limit) == Err(OutputTooLarge) <==> Trimmed(file.value[..limit + 1])))
  {
    var limit := EffectiveOutputBytes(maxOutputBytes, maxSingleFileWriteBytes, maxStdoutBytes, marker);
    if limit >= 1 {
      ReadBackIsTrimmedHead(marker, file, limit);
      if file.Some? {
        if |file.value| <= limit {
          ShortFileIsAccepted(parse, file.value, limit);
        } else {
          OverlongFileIsRejected(parse, file.value, limit);
        }
      }
    }
  }

  const PERSAI_SCRIPT_RESULT_BOUNDARY_PREFIX := "___PERSAI_SCRIPT_RESULT_BOUNDARY_"

  function BuildScriptResultMarker(scriptInvocationKey: string): string {
    PERSAI_SCRIPT_RESULT_BOUNDARY_PREFIX + scriptInvocationKey + "__"
  }

  lemma DigitsContainNoMarker(key: string, digits: string)
    requires forall c :: c in digits ==> c != '_'
    ensures !Contains(digits, BuildScriptResultMarker(key))
  {
    var marker := BuildScriptResultMarker(key);
    assert PERSAI_SCRIPT_RESULT_BOUNDARY_PREFIX[0] == '_' == marker[0];
    forall i | 0 <= i <= |digits| ensures !OccursAt(marker, digits, i) {
      if i + |marker| <= |digits| {
        assert digits[i] in digits && digits[i..i + |marker|][0] == digits[i];
      }
    }
  }

  lemma HeadOfTwoNumbers()
    ensures Trim(Kept("12 34", 3)) == "12"
  {
    assert Kept("12 34", 3) == "12 ";
    assert TrimStart("12 ") == "12 ";
    assert "12 "[..2] == "12";
    assert TrimEnd("12 ") == TrimEnd("12") == "12";
  }

  /** The white space does matter: under the marker of any invocation key this file is over its limit of
      2 bytes, and its head, a number in JSON as the file is not, is taken for the whole result. */
  lemma CutAtWhiteSpaceGoesUnnoticed<Json>(key: string, parse: string -> Option<Json>, twelve: Json)
    requires '\n' !in key && parse("12") == Some(twelve) && parse("12 34") == None
    ensures var marker := BuildScriptResultMarker(key);
      var text := SplitStdout(WrapperStdout(marker, Some("12 34"), 2), marker).1;
      text == Some("12") && ParseResult(parse, text, 2) == Ok(twelve)
  {
    var file := "12 34";
    DigitsContainNoMarker(key, file);
    ReadBackIsTrimmedHead(BuildScriptResultMarker(key), Some(file), 2);
    HeadOfTwoNumbers();
  }
}
