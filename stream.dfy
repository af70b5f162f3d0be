/**
 * The `data` handlers of the two streaming providers (server.js,
 * `chatWithGLMStream` and `chatWithDeepSeekStream`): a line-framing state
 * machine.  Each chunk is appended to `buffer`, the text is split at
 * `'\n'`, the last (possibly partial) piece is kept as the new buffer, and
 * the complete lines are read in order: blank lines and lines that do not
 * start with `data: ` are skipped, `[DONE]` completes the stream and
 * abandons the rest of the chunk, any other payload is parsed and its
 * `choices[0].delta.content` delivered.  Chunks are text (after
 * `chunk.toString()`); `JSON.parse` is the oracle `parse`.
 */
module StreamDecoder {
  import opened Results
  import opened JsValues
  import opened Text
  import opened Adapter

  /** A callback the handlers invoke: `onData(content)` or `onComplete()`. */
  datatype Event = Data(content: Value) | Complete

  const DATA_PREFIX := "data: "
  const DONE := "[DONE]"

  /** `parsed.choices?.[0]?.delta?.content`. */
  function DeltaContent(parsed: Value): Value {
    Get(Get(Index(Get(parsed, "choices"), 0), "delta"), "content")
  }

  /**
   * Whether a content reaches `onData`: DeepSeek delivers any truthy
   * value; GLM first logs `content.substring(0, 20)`, which throws (and is
   * swallowed) unless the content is a string, so it delivers non-empty
   * strings only.
   */
  predicate Delivers(vendor: Vendor, content: Value) {
    match vendor
    case GLM => content.Str? && content.s != ""
    case DeepSeek => Truthy(content)
  }

  /** What one complete line does: nothing, `onComplete`, or `onData`. */
  function LineEvent(vendor: Vendor, parse: string -> Option<Value>, line: string): (r: Option<Event>)
    ensures !StartsWith(line, DATA_PREFIX) ==> r.None?
    ensures r == Some(Complete) <==> StartsWith(line, DATA_PREFIX) && Trim(line[|DATA_PREFIX|..]) == DONE
    ensures r.Some? && r.value.Data? ==>
      StartsWith(line, DATA_PREFIX) && Delivers(vendor, r.value.content)
      && parse(Trim(line[|DATA_PREFIX|..])).Some?
      && r.value.content == DeltaContent(parse(Trim(line[|DATA_PREFIX|..])).value)
  {
    if Trim(line) == "" then None
    else if !StartsWith(line, DATA_PREFIX) then None
    else
      var data := Trim(line[|DATA_PREFIX|..]);
      if data == DONE then Some(Complete)
      else
        match parse(data)
        case None => None
        case Some(parsed) =>
          var content := DeltaContent(parsed);
          if Delivers(vendor, content) then Some(Data(content)) else None
  }

  /** The per-line handling of one provider, as a function of the line. */
  function LineDecoder(vendor: Vendor, parse: string -> Option<Value>): (decode: string -> Option<Event>)
    ensures forall line :: decode(line) == LineEvent(vendor, parse, line)
  {
    line => LineEvent(vendor, parse, line)
  }

  function Emit(o: Option<Event>): seq<Event> {
    if o.None? then [] else [o.value]
  }

  /**
   * The callbacks for a run of complete lines, read in order up to and
   * including the first `[DONE]`.
   */
  function LinesEvents(decode: string -> Option<Event>, lines: seq<string>): (r: seq<Event>)
    ensures |r| <= |lines|
    ensures Complete in r ==> r[|r| - 1] == Complete && Complete !in r[..|r| - 1]
  {
    if |lines| == 0 then []
    else
      var earlier := LinesEvents(decode, lines[..|lines| - 1]);
      if Complete in earlier then earlier
      else
        var r := earlier + Emit(decode(lines[|lines| - 1]));
        assert r[..|earlier|] == earlier;
        r
  }

  /** Reading `a` then `b` is reading `a`, and `b` too when `a` did not complete. */
  lemma {:induction false} LinesEventsAppend(decode: string -> Option<Event>, a: seq<string>, b: seq<string>)
    ensures LinesEvents(decode, a + b)
         == if Complete in LinesEvents(decode, a) then LinesEvents(decode, a)
            else LinesEvents(decode, a) + LinesEvents(decode, b)
  {
    if |b| == 0 {
      assert a + b == a;
    } else {
      var b' := b[..|b| - 1];
      assert (a + b)[..|a + b| - 1] == a + b';
      assert (a + b)[|a + b| - 1] == b[|b| - 1];
      LinesEventsAppend(decode, a, b');
    }
  }

  /** Reading one more line. */
  lemma {:induction false} LinesEventsSnoc(decode: string -> Option<Event>, lines: seq<string>, i: nat)
    requires i < |lines|
    ensures var earlier := LinesEvents(decode, lines[..i]);
      LinesEvents(decode, lines[..i + 1])
        == if Complete in earlier then earlier else earlier + Emit(decode(lines[i]))
  {
    assert lines[..i + 1][..i] == lines[..i];
  }

  /** A line other than `[DONE]`, read before any `[DONE]`, adds its own callback and does not complete. */
  lemma LinesEventsRead(decode: string -> Option<Event>, lines: seq<string>, i: nat)
    requires i < |lines| && Complete !in LinesEvents(decode, lines[..i])
    requires decode(lines[i]) != Some(Complete)
    ensures LinesEvents(decode, lines[..i + 1]) == LinesEvents(decode, lines[..i]) + Emit(decode(lines[i]))
    ensures Complete !in LinesEvents(decode, lines[..i + 1])
  {
    LinesEventsSnoc(decode, lines, i);
  }

  /** A `[DONE]` line ends the reading: nothing after it counts. */
  lemma {:induction false} LinesEventsDone(decode: string -> Option<Event>, lines: seq<string>, i: nat)
    requires i < |lines| && Complete !in LinesEvents(decode, lines[..i])
    requires decode(lines[i]) == Some(Complete)
    ensures LinesEvents(decode, lines) == LinesEvents(decode, lines[..i]) + [Complete]
  {
    var head, tail := lines[..i + 1], lines[i + 1..];
    LinesEventsSnoc(decode, lines, i);
    var done := LinesEvents(decode, head);
    assert done == LinesEvents(decode, lines[..i]) + [Complete];
    assert Complete in done;
    LinesEventsAppend(decode, head, tail);
    assert head + tail == lines;
  }

  /** The events up to and including the first `Complete`. */
  function UpToComplete(events: seq<Event>): (r: seq<Event>)
    ensures Complete !in events ==> r == events
    ensures Complete in r <==> Complete in events
  {
    if |events| == 0 then []
    else if events[0] == Complete then [Complete]
    else [events[0]] + UpToComplete(events[1..])
  }

  lemma {:induction false} UpToCompleteAppend(x: seq<Event>, y: seq<Event>)
    ensures UpToComplete(x + y) == if Complete in x then UpToComplete(x) else x + UpToComplete(y)
  {
    if |x| > 0 {
      assert (x + y)[1..] == x[1..] + y;
      UpToCompleteAppend(x[1..], y);
      if x[0] != Complete {
        assert Complete in x <==> Complete in x[1..];
      }
    } else {
      assert x + y == y;
    }
  }

  /** A run of line events already ends at its first `Complete`. */
  lemma {:induction false} UpToCompleteOfLines(decode: string -> Option<Event>, lines: seq<string>)
    ensures UpToComplete(LinesEvents(decode, lines)) == LinesEvents(decode, lines)
  {
    var r := LinesEvents(decode, lines);
    if Complete in r {
      assert r == r[..|r| - 1] + [Complete];
      UpToCompleteAppend(r[..|r| - 1], [Complete]);
    }
  }

  /** The per-connection state of a streaming handler. */
  class StreamReader {
    /** How this provider's handler treats one complete line. */
    const decode: string -> Option<Event>
    /** The text after the last `'\n'` seen so far. */
    var buffer: string
    var chunkCount: nat
    /** The callbacks invoked so far, in order. */
    var emitted: seq<Event>

    constructor(vendor: Vendor, parse: string -> Option<Value>)
      ensures decode == LineDecoder(vendor, parse)
      ensures buffer == "" && chunkCount == 0 && emitted == []
    {
      decode := LineDecoder(vendor, parse);
      buffer := "";
      chunkCount := 0;
      emitted := [];
    }

    /**
     * `response.data.on('data', chunk => …)`: a no-op once aborted;
     * otherwise the buffered text plus the chunk is split, its last piece
     * becomes the buffer and its complete lines are read in order.
     */
    method OnData(chunk: string, aborted: bool)
      modifies this
      ensures aborted ==> buffer == old(buffer) && chunkCount == old(chunkCount) && emitted == old(emitted)
      ensures !aborted ==>
        var pieces := Split(old(buffer) + chunk, '\n');
        buffer == Last(pieces) && chunkCount == old(chunkCount) + 1
        && emitted == old(emitted) + LinesEvents(decode, AllButLast(pieces))
    {
      if aborted {
        return;
      }
      chunkCount := chunkCount + 1;
      var lines := Split(buffer + chunk, '\n');
      buffer := Last(lines);
      ReadLines(AllButLast(lines));
    }

    /**
     * The `for (const line of lines)` loop: each complete line in order,
     * returning at the first `[DONE]` after calling `onComplete`.
     */
    method ReadLines(complete: seq<string>)
      modifies this
      ensures buffer == old(buffer) && chunkCount == old(chunkCount)
      ensures emitted == old(emitted) + LinesEvents(decode, complete)
    {
      ghost var start := emitted;
      var i := 0;
      while i < |complete|
        invariant 0 <= i <= |complete|
        invariant buffer == old(buffer) && chunkCount == old(chunkCount)
        invariant emitted == start + LinesEvents(decode, complete[..i])
        invariant Complete !in LinesEvents(decode, complete[..i])
      {
        var event := decode(complete[i]);
        if event == Some(Complete) {
          LinesEventsDone(decode, complete, i);
          AppendAssoc(start, LinesEvents(decode, complete[..i]), [Complete]);
          emitted := emitted + [Complete];
          return;
        }
        LinesEventsRead(decode, complete, i);
        AppendAssoc(start, LinesEvents(decode, complete[..i]), Emit(event));
        emitted := emitted + Emit(event);
        i := i + 1;
      }
      assert complete[..i] == complete;
    }

    /** `response.data.on('end', …)`: `onComplete` again, whatever came before. */
    method OnEnd()
      modifies this
      ensures buffer == old(buffer) && chunkCount == old(chunkCount)
      ensures emitted == old(emitted) + [Complete]
    {
      emitted := emitted + [Complete];
    }
  }

  /** The text of a sequence of chunks. */
  function Concat(chunks: seq<string>): string {
    if |chunks| == 0 then "" else Concat(chunks[..|chunks| - 1]) + chunks[|chunks| - 1]
  }

  /** The buffer and callbacks after feeding chunks, one `OnData` each, to a fresh reader. */
  function Replay(decode: string -> Option<Event>, chunks: seq<string>): (r: (string, seq<Event>))
  {
    if |chunks| == 0 then ("", [])
    else
      var before := Replay(decode, chunks[..|chunks| - 1]);
      var pieces := Split(before.0 + chunks[|chunks| - 1], '\n');
      (Last(pieces), before.1 + LinesEvents(decode, AllButLast(pieces)))
  }

  /**
   * The buffer holds exactly the text after the last `'\n'`: a suffix of
   * the stream without a newline, preceded by a newline unless it is the
   * whole stream.
   */
  lemma {:induction false} LastPieceAfterLastNewline(s: string)
    ensures var l := Last(Split(s, '\n'));
      '\n' !in l && |l| <= |s| && s[|s| - |l|..] == l && (|l| < |s| ==> s[|s| - |l| - 1] == '\n')
  {
    if |s| > 0 {
      var t := s[1..];
      LastPieceAfterLastNewline(t);
      var rest := Split(t, '\n');
      var l := Last(rest);
      LastOfSplitStep(s);
      if s[0] == '\n' || |rest| > 1 {
        if s[0] != '\n' {
          assert |l| < |t| by {
            SplitOnePiece(t, '\n');
          }
        }
        SuffixAfterNewline(s, l);
      }
    }
  }

  /** The last piece of a nonempty text is the last piece of its tail, unless the tail is one piece that the first character joins. */
  lemma LastOfSplitStep(s: string)
    requires |s| > 0
    ensures s[0] == '\n' || |Split(s[1..], '\n')| > 1 ==> Last(Split(s, '\n')) == Last(Split(s[1..], '\n'))
    ensures s[0] != '\n' && |Split(s[1..], '\n')| == 1 ==> Last(Split(s, '\n')) == s
  {
    if s[0] != '\n' && |Split(s[1..], '\n')| == 1 {
      SplitOnePiece(s[1..], '\n');
      assert [s[0]] + s[1..] == s;
    }
  }

  /** A suffix of `s[1..]` that follows a newline there, or that `s[0]` being a newline precedes, is such a suffix of `s`. */
  lemma SuffixAfterNewline(s: string, l: string)
    requires |s| > 0 && |l| <= |s| - 1 && s[1..][|s| - 1 - |l|..] == l
    requires |l| < |s| - 1 ==> s[1..][|s| - 2 - |l|] == '\n'
    requires |l| == |s| - 1 ==> s[0] == '\n'
    ensures s[|s| - |l|..] == l && (|l| < |s| ==> s[|s| - |l| - 1] == '\n')
  {
    assert s[|s| - |l|..] == s[1..][|s| - 1 - |l|..];
  }

  /** A text splits into one piece, itself, exactly when it holds no separator. */
  lemma {:induction false} SplitOnePiece(t: string, sep: char)
    ensures |Split(t, sep)| == 1 <==> sep !in t
    ensures |Split(t, sep)| == 1 ==> Split(t, sep)[0] == t
  {
    if |t| > 0 {
      SplitOnePiece(t[1..], sep);
      assert t == [t[0]] + t[1..];
    }
  }

  /**
   * Splitting the stream once more text arrives: the earlier complete
   * lines stay, and the rest is what splitting the buffer plus the new
   * text gives.
   */
  lemma {:induction false} SplitAfterBuffer(s: string, c: string)
    ensures var b := Last(Split(s, '\n'));
      AllButLast(Split(s + c, '\n')) == AllButLast(Split(s, '\n')) + AllButLast(Split(b + c, '\n'))
      && Last(Split(s + c, '\n')) == Last(Split(b + c, '\n'))
  {
    var ss, sc := Split(s, '\n'), Split(c, '\n');
    var b := Last(ss);
    var tail := [b + sc[0]] + sc[1..];
    assert Split(b + c, '\n') == tail by {
      SplitAppend(b, c, '\n');
      SplitOnePiece(b, '\n');
      assert AllButLast([b]) == [];
    }
    assert Split(s + c, '\n') == AllButLast(ss) + tail by {
      SplitAppend(s, c, '\n');
    }
    AllButLastAppend(AllButLast(ss), tail);
  }

  lemma AllButLastAppend<T>(p: seq<T>, y: seq<T>)
    requires |y| >= 1
    ensures AllButLast(p + y) == p + AllButLast(y) && Last(p + y) == Last(y)
  {
    assert (p + y)[..|p + y| - 1] == p + y[..|y| - 1];
  }

  /** Reading more lines after a prefix whose callbacks were already matched. */
  lemma {:induction false} EventsStep(decode: string -> Option<Event>, e: seq<Event>, p: seq<string>, q: seq<string>)
    requires UpToComplete(e) == LinesEvents(decode, p)
    ensures UpToComplete(e + LinesEvents(decode, q)) == LinesEvents(decode, p + q)
  {
    LinesEventsAppend(decode, p, q);
    UpToCompleteAppend(e, LinesEvents(decode, q));
    UpToCompleteOfLines(decode, q);
  }

  /**
   * Up to the first `[DONE]`, the callbacks depend only on the text of the
   * stream, not on where it was cut into chunks: they are those of its
   * complete lines, and the buffer is its last piece.
   */
  lemma {:induction false} ReplayReadsLines(decode: string -> Option<Event>, chunks: seq<string>)
    ensures var pieces := Split(Concat(chunks), '\n');
      Replay(decode, chunks).0 == Last(pieces)
      && UpToComplete(Replay(decode, chunks).1) == LinesEvents(decode, AllButLast(pieces))
  {
    if |chunks| > 0 {
      var init := chunks[..|chunks| - 1];
      var c := chunks[|chunks| - 1];
      ReplayReadsLines(decode, init);
      var s := Concat(init);
      var before := Replay(decode, init);
      SplitAfterBuffer(s, c);
      var q := AllButLast(Split(before.0 + c, '\n'));
      EventsStep(decode, before.1, AllButLast(Split(s, '\n')), q);
    }
  }

  /** Two chunkings of the same stream give the same buffer and the same callbacks up to the first `[DONE]`. */
  lemma {:induction false} ChunkingIrrelevant(decode: string -> Option<Event>, chunks1: seq<string>, chunks2: seq<string>)
    requires Concat(chunks1) == Concat(chunks2)
    ensures Replay(decode, chunks1).0 == Replay(decode, chunks2).0
    ensures UpToComplete(Replay(decode, chunks1).1) == UpToComplete(Replay(decode, chunks2).1)
  {
    ReplayReadsLines(decode, chunks1);
    ReplayReadsLines(decode, chunks2);
  }
}
