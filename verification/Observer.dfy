/** The streaming usage observer (src/usage/observer.rs) and the stream wrapper that drives it
    (src/proxy/router.rs, `usage_observed_stream`). */
module Observer {
  import opened Basics
  import opened Tokens

  type Byte = b: int | 0 <= b < 256

  const NEWLINE: Byte := 10

  /** Text decoding and JSON parsing belong to libraries; any pair of total functions will do. */
  datatype Codec = Codec(utf8: seq<Byte> -> Option<string>, json: string -> Option<Json>)

  /** `consume_line` up to the parsed report. */
  function LineUsage(codec: Codec, protocol: Protocol, line: seq<Byte>): (r: Option<TokenUsage>)
    ensures r.Some? ==> NonNegative(r.value)
  {
    match codec.utf8(line)
    case None => None
    case Some(text) =>
      var text := TrimEnd(text);
      if !("data:" <= text) then None
      else
        var data := Trim(text[5..]);
        if data == "" || data == "[DONE]" then None
        else
          match codec.json(data)
          case None => None
          case Some(value) => ParseEvent(protocol, value)
  }

  /** Any white space before and after the data, line ends included, makes no difference: the usage of a data line
      is that of its JSON, and an end marker has none. */
  lemma PaddingIgnored(codec: Codec, protocol: Protocol, line: seq<Byte>, before: string, data: string, after: string)
    requires codec.utf8(line) == Some("data:" + (before + data) + after) && Blank(before) && Blank(after)
    requires data != "" && !IsWhitespace(data[0]) && !IsWhitespace(data[|data| - 1])
    ensures LineUsage(codec, protocol, line) ==
            if data == "[DONE]" || codec.json(data).None? then None
            else ParseEvent(protocol, codec.json(data).value)
  {
    var text := "data:" + (before + data);
    EndTrimmed(text, after);
    assert text[5..] == before + data && "data:" <= text;
    EndTrimmed(before + data, "");
    assert before + data + "" == before + data;
    StartTrimmed(before, data);
  }

  /** Only a data line reports usage: text that decodes, starts with `data:`, and goes on with neither nothing nor the
      end marker but with JSON that carries it. */
  lemma OnlyDataReports(codec: Codec, protocol: Protocol, line: seq<Byte>)
    requires LineUsage(codec, protocol, line).Some?
    ensures codec.utf8(line).Some?
    ensures var text := TrimEnd(codec.utf8(line).value);
            && "data:" <= text && Trim(text[5..]) != "" && Trim(text[5..]) != "[DONE]"
            && codec.json(Trim(text[5..])).Some?
            && LineUsage(codec, protocol, line) == ParseEvent(protocol, codec.json(Trim(text[5..])).value)
  {
  }

  lemma {:induction false} StartTrimmed(padding: string, s: string)
    requires s != "" && !IsWhitespace(s[0]) && Blank(padding)
    ensures TrimStart(padding + s) == s
  {
    if padding == "" {
      assert padding + s == s;
    } else {
      assert (padding + s)[1..] == padding[1..] + s;
      StartTrimmed(padding[1..], s);
    }
  }

  lemma {:induction false} EndTrimmed(s: string, padding: string)
    requires s != "" && !IsWhitespace(s[|s| - 1])
    requires Blank(padding)
    ensures TrimEnd(s + padding) == s
  {
    if padding == "" {
      assert s + padding == s;
    } else {
      var n := |padding| - 1;
      assert (s + padding)[..|s| + n] == s + padding[..n];
      assert (s + padding)[|s| + n] == padding[n];
      EndTrimmed(s, padding[..n]);
    }
  }

  /** The reports of a list of lines, in order. */
  function Reports(codec: Codec, protocol: Protocol, lines: seq<seq<Byte>>): (r: seq<TokenUsage>)
    ensures forall u :: u in r ==> NonNegative(u)
  {
    if lines == [] then []
    else
      var u := LineUsage(codec, protocol, lines[0]);
      (if u.Some? then [u.value] else []) + Reports(codec, protocol, lines[1..])
  }

  lemma {:induction false} ReportsConcat(codec: Codec, protocol: Protocol, a: seq<seq<Byte>>, b: seq<seq<Byte>>)
    ensures Reports(codec, protocol, a + b) == Reports(codec, protocol, a) + Reports(codec, protocol, b)
  {
    if a == [] {
      assert a + b == b;
    } else {
      assert (a + b)[1..] == a[1..] + b;
      ReportsConcat(codec, protocol, a[1..], b);
      var u := LineUsage(codec, protocol, a[0]);
      ConcatAssoc(if u.Some? then [u.value] else [], Reports(codec, protocol, a[1..]), Reports(codec, protocol, b));
    }
  }

  /** What a line reports of one class. */
  function CountIn(codec: Codec, protocol: Protocol, line: seq<Byte>, c: Class): Option<int> {
    match LineUsage(codec, protocol, line)
    case Some(u) => CountOf(u, c)
    case None => None
  }

  /** `count` is what the last line that reports the class reports of it, if any line does. */
  ghost predicate LastTold(codec: Codec, protocol: Protocol, lines: seq<seq<Byte>>, c: Class, count: Option<int>) {
    && (count.None? ==> forall i :: 0 <= i < |lines| ==> CountIn(codec, protocol, lines[i], c) == None)
    && (count.Some? ==> exists i :: 0 <= i < |lines| && CountIn(codec, protocol, lines[i], c) == count
                          && forall j :: i < j < |lines| ==> CountIn(codec, protocol, lines[j], c) == None)
  }

  ghost predicate SomeReport(codec: Codec, protocol: Protocol, lines: seq<seq<Byte>>) {
    exists i :: 0 <= i < |lines| && LineUsage(codec, protocol, lines[i]).Some?
  }

  lemma ReportsSnoc(codec: Codec, protocol: Protocol, init: seq<seq<Byte>>, last: seq<Byte>)
    ensures var u := LineUsage(codec, protocol, last);
            Reports(codec, protocol, init + [last]) ==
            if u.Some? then Reports(codec, protocol, init) + [u.value] else Reports(codec, protocol, init)
  {
    ReportsConcat(codec, protocol, init, [last]);
    assert Reports(codec, protocol, [last][1..]) == [];
  }

  lemma LastToldSnoc(codec: Codec, protocol: Protocol, init: seq<seq<Byte>>, last: seq<Byte>, c: Class,
                     count: Option<int>)
    requires LastTold(codec, protocol, init, c, count)
    ensures var told := CountIn(codec, protocol, last, c);
            LastTold(codec, protocol, init + [last], c, if told.Some? then told else count)
  {
    var lines, told := init + [last], CountIn(codec, protocol, last, c);
    assert lines[|init|] == last;
    if told.None? && count.Some? {
      var i :| 0 <= i < |init| && CountIn(codec, protocol, init[i], c) == count
        && forall j :: i < j < |init| ==> CountIn(codec, protocol, init[j], c) == None;
      assert lines[i] == init[i];
    }
  }

  /** The reports are those of the lines that carry one, and per class the last one counts. */
  lemma {:induction false} ReportsMeaning(codec: Codec, protocol: Protocol, lines: seq<seq<Byte>>, c: Class)
    ensures Reports(codec, protocol, lines) != [] <==> SomeReport(codec, protocol, lines)
    ensures LastTold(codec, protocol, lines, c, LastReported(Reports(codec, protocol, lines), c))
  {
    if lines != [] {
      var init, last := lines[..|lines| - 1], lines[|lines| - 1];
      assert lines == init + [last];
      ReportsMeaning(codec, protocol, init, c);
      ReportsSnoc(codec, protocol, init, last);
      LastToldSnoc(codec, protocol, init, last, c, LastReported(Reports(codec, protocol, init), c));
      SomeReportSnoc(codec, protocol, init, last);
    }
  }

  lemma SomeReportSnoc(codec: Codec, protocol: Protocol, init: seq<seq<Byte>>, last: seq<Byte>)
    ensures SomeReport(codec, protocol, init + [last]) <==>
            SomeReport(codec, protocol, init) || LineUsage(codec, protocol, last).Some?
  {
    var lines := init + [last];
    assert lines[|init|] == last && forall i :: 0 <= i < |init| ==> lines[i] == init[i];
  }

  // --- splitting a whole stream at newlines: the reference ---

  function NewlineFrom(s: seq<Byte>, i: nat): (n: nat)
    requires i <= |s|
    ensures i <= n <= |s|
    ensures forall k :: i <= k < n ==> s[k] != NEWLINE
    ensures n < |s| ==> s[n] == NEWLINE
    decreases |s| - i
  {
    if i == |s| || s[i] == NEWLINE then i else NewlineFrom(s, i + 1)
  }

  function FirstNewline(s: seq<Byte>): (n: nat)
    ensures n <= |s|
    ensures forall i :: 0 <= i < n ==> s[i] != NEWLINE
    ensures n < |s| ==> s[n] == NEWLINE
  {
    NewlineFrom(s, 0)
  }

  /** The newline-terminated lines of `s`, terminators included. */
  function Lines(s: seq<Byte>): seq<seq<Byte>>
    decreases |s|
  {
    var n := FirstNewline(s);
    if n == |s| then [] else [s[..n + 1]] + Lines(s[n + 1..])
  }

  /** What follows the last newline. */
  function Tail(s: seq<Byte>): seq<Byte>
    decreases |s|
  {
    var n := FirstNewline(s);
    if n == |s| then s else Tail(s[n + 1..])
  }

  /** A line carries its one newline at its end. */
  predicate IsLine(l: seq<Byte>) {
    l != [] && FirstNewline(l) == |l| - 1
  }

  lemma FirstNewlineUnique(s: seq<Byte>, n: nat)
    requires n < |s| && s[n] == NEWLINE && forall i :: 0 <= i < n ==> s[i] != NEWLINE
    ensures FirstNewline(s) == n
  {
  }

  lemma LinesCut(s: seq<Byte>, line: seq<Byte>, rest: seq<Byte>)
    requires FirstNewline(s) < |s| && line == s[..FirstNewline(s) + 1] && rest == s[FirstNewline(s) + 1..]
    ensures Lines(s) == [line] + Lines(rest) && Tail(s) == Tail(rest)
    ensures s == line + rest
  {
  }

  /** `Lines` and `Tail` lose nothing. */
  lemma {:induction false} SplitLossless(s: seq<Byte>)
    ensures Flatten(Lines(s)) + Tail(s) == s
    decreases |s|
  {
    var n := FirstNewline(s);
    if n < |s| {
      var line, rest := s[..n + 1], s[n + 1..];
      SplitLossless(rest);
      LinesCut(s, line, rest);
      FlattenCons(line, Lines(rest));
      ConcatAssoc(line, Flatten(Lines(rest)), Tail(rest));
    }
  }

  /** Every line is newline-terminated and newline-free before that, and so is the tail: with
      `SplitLossless`, this is the only way to cut `s` at its newlines. */
  lemma {:induction false} SplitAtNewlines(s: seq<Byte>)
    ensures forall i :: 0 <= i < |Lines(s)| ==> IsLine(Lines(s)[i])
    ensures forall l :: IsLine(l) <==> l != [] && l[|l| - 1] == NEWLINE && NEWLINE !in l[..|l| - 1]
    ensures NEWLINE !in Tail(s)
    decreases |s|
  {
    var n := FirstNewline(s);
    if n < |s| {
      FirstNewlineUnique(s[..n + 1], n);
      SplitAtNewlines(s[n + 1..]);
    }
  }

  /** Splitting may stop anywhere and resume from the tail. */
  lemma {:induction false} SplitResumes(a: seq<Byte>, b: seq<Byte>)
    ensures Lines(a + b) == Lines(a) + Lines(Tail(a) + b)
    ensures Tail(a + b) == Tail(Tail(a) + b)
    decreases |a|
  {
    var n := FirstNewline(a);
    if n < |a| {
      FirstNewlineUnique(a + b, n);
      SplitConcat(a, b, n + 1);
      SplitResumes(a[n + 1..], b);
      ConcatAssoc([a[..n + 1]], Lines(a[n + 1..]), Lines(Tail(a) + b));
    } else {
      EmptyConcat(Lines(a + b));
    }
  }

  /** The usage of a whole stream: cut it at the newlines, keep a last unterminated line, merge the
      reports; no report at all means the usage is unavailable. */
  function StreamUsage(codec: Codec, protocol: Protocol, stream: seq<Byte>): (r: Option<TokenUsage>)
    ensures r.Some? ==> NonNegative(r.value)
  {
    var lines := Lines(stream) + if Tail(stream) == [] then [] else [Tail(stream)];
    var reports := Reports(codec, protocol, lines);
    MergeAllNonNegative(NO_USAGE, reports);
    if reports == [] then None else Some(MergeAll(NO_USAGE, reports))
  }

  /** The usage of a stream, over the lines it is cut into (`SplitLossless`, `SplitAtNewlines`), an unterminated last
      one included: there is one exactly if some line reports usage, and each class has the count that the last line
      to report that class reports. */
  lemma StreamUsageMeaning(codec: Codec, protocol: Protocol, stream: seq<Byte>, c: Class)
    ensures var lines := Lines(stream) + if Tail(stream) == [] then [] else [Tail(stream)];
            var usage := StreamUsage(codec, protocol, stream);
            && (usage.Some? <==> SomeReport(codec, protocol, lines))
            && (usage.Some? ==> LastTold(codec, protocol, lines, c, CountOf(usage.value, c)))
  {
    var lines := Lines(stream) + if Tail(stream) == [] then [] else [Tail(stream)];
    var reports := Reports(codec, protocol, lines);
    ReportsMeaning(codec, protocol, lines, c);
    MergeKeepsLast(reports, c);
    assert StreamUsage(codec, protocol, stream) == if reports == [] then None else Some(MergeAll(NO_USAGE, reports));
  }

  class UsageObserver {
    const protocol: Protocol
    const codec: Codec
    var lineBuffer: seq<Byte>
    var usage: TokenUsage
    var seenUsage: bool
    /** Every byte fed so far. */
    ghost var fed: seq<Byte>

    ghost predicate Absorbed(lines: seq<seq<Byte>>)
      reads this
    {
      var reports := Reports(codec, protocol, lines);
      usage == MergeAll(NO_USAGE, reports) && seenUsage == (reports != [])
    }

    ghost predicate Valid()
      reads this
    {
      lineBuffer == Tail(fed) && Absorbed(Lines(fed))
    }

    constructor (protocol: Protocol, codec: Codec)
      ensures Valid() && fed == [] && this.protocol == protocol && this.codec == codec
    {
      this.protocol, this.codec := protocol, codec;
      lineBuffer, usage, seenUsage, fed := [], NO_USAGE, false, [];
    }

    method ConsumeLine(line: seq<Byte>, ghost lines: seq<seq<Byte>>)
      requires Absorbed(lines)
      modifies this`usage, this`seenUsage
      ensures Absorbed(lines + [line])
    {
      ReportsConcat(codec, protocol, lines, [line]);
      ghost var before := Reports(codec, protocol, lines);
      assert Reports(codec, protocol, [line][1..]) == [];
      var parsed := LineUsage(codec, protocol, line);
      if parsed.Some? {
        assert [parsed.value][1..] == [];
        assert Reports(codec, protocol, [line]) == [parsed.value];
        MergeAllSplits(NO_USAGE, before, [parsed.value]);
        usage := MergeFrom(usage, parsed.value);
        seenUsage := true;
      } else {
        assert before + [] == before;
      }
    }

    /** After every chunk the buffer is the newline-free tail of everything fed, and the usage is the
        merge of every complete line's report. */
    method Feed(chunk: seq<Byte>)
      requires Valid()
      modifies this
      ensures Valid() && fed == old(fed) + chunk
    {
      SplitResumes(fed, chunk);
      fed := fed + chunk;
      lineBuffer := lineBuffer + chunk;
      ghost var lines := Lines(old(fed));
      while FirstNewline(lineBuffer) < |lineBuffer|
        invariant Absorbed(lines)
        invariant lines + Lines(lineBuffer) == Lines(fed)
        invariant Tail(lineBuffer) == Tail(fed)
        invariant fed == old(fed) + chunk
        decreases |lineBuffer|
      {
        var newline := FirstNewline(lineBuffer);
        var line, rest := lineBuffer[..newline + 1], lineBuffer[newline + 1..];
        LinesCut(lineBuffer, line, rest);
        ConcatAssoc(lines, [line], Lines(rest));
        lineBuffer := rest;
        ConsumeLine(line, lines);
        lines := lines + [line];
      }
      assert lines + [] == lines;
    }

    /** The result is that of the stream as a whole. */
    method Finish() returns (r: Option<TokenUsage>)
      requires Valid()
      modifies this
      ensures r == StreamUsage(codec, protocol, old(fed))
      ensures lineBuffer == []
    {
      if lineBuffer != [] {
        var line := lineBuffer;
        lineBuffer := [];
        ConsumeLine(line, Lines(fed));
      } else {
        assert Lines(fed) + [] == Lines(fed);
      }
      r := if seenUsage then Some(usage) else None;
    }
  }

  // --- the stream wrapper ---

  datatype Chunk = Bytes(bytes: seq<Byte>) | Broken

  /** The bytes of a stream that never broke. */
  function Payload(chunks: seq<Chunk>): seq<Byte> {
    if chunks == [] then []
    else (if chunks[0].Bytes? then chunks[0].bytes else []) + Payload(chunks[1..])
  }

  /** The payload is that of the chunks one after another; a broken one has none. */
  lemma {:induction false} PayloadMeaning(a: seq<Chunk>, b: seq<Chunk>, bytes: seq<Byte>)
    ensures Payload([Bytes(bytes)]) == bytes && Payload([Broken]) == [] && Payload([]) == []
    ensures Payload(a + b) == Payload(a) + Payload(b)
  {
    assert [Bytes(bytes)][1..] == [] && [Broken][1..] == [];
    if b == [] {
      assert a + b == a;
    } else {
      var init, last := b[..|b| - 1], b[|b| - 1];
      assert b == init + [last] && a + b == (a + init) + [last];
      PayloadMeaning(a, init, bytes);
      PayloadSnoc(a + init, last);
      PayloadSnoc(init, last);
    }
  }

  lemma {:induction false} PayloadSnoc(chunks: seq<Chunk>, c: Chunk)
    ensures Payload(chunks + [c]) == Payload(chunks) + if c.Bytes? then c.bytes else []
  {
    if chunks == [] {
      assert [c][1..] == [];
      assert chunks + [c] == [c];
    } else {
      assert (chunks + [c])[1..] == chunks[1..] + [c];
      PayloadSnoc(chunks[1..], c);
    }
  }

  /** `usage_observed_stream`: chunks go to the client untouched, up to and including the first broken
      one. Usage is recorded exactly when the stream ends without breaking, and then it depends only on
      the bytes, not on how they were cut into chunks. `recorded == None` means `record_usage` never ran. */
  method ObserveStream(codec: Codec, protocol: Protocol, chunks: seq<Chunk>)
    returns (forwarded: seq<Chunk>, recorded: Option<Option<TokenUsage>>)
    ensures forwarded <= chunks
    ensures Broken !in chunks ==>
              forwarded == chunks && recorded == Some(StreamUsage(codec, protocol, Payload(chunks)))
    ensures Broken in chunks ==>
              recorded == None && forwarded != [] && forwarded[|forwarded| - 1] == Broken
              && Broken !in forwarded[..|forwarded| - 1]
  {
    var observer := new UsageObserver(protocol, codec);
    forwarded := [];
    for i := 0 to |chunks|
      invariant fresh(observer) && observer.Valid()
      invariant observer.protocol == protocol && observer.codec == codec
      invariant forwarded == chunks[..i] && Broken !in forwarded
      invariant observer.fed == Payload(chunks[..i])
    {
      assert chunks[..i + 1] == chunks[..i] + [chunks[i]];
      PayloadSnoc(chunks[..i], chunks[i]);
      forwarded := forwarded + [chunks[i]];
      match chunks[i] {
        case Bytes(bytes) => observer.Feed(bytes);
        case Broken =>
          assert forwarded[..|forwarded| - 1] == chunks[..i];
          return forwarded, None;
      }
    }
    assert chunks[..|chunks|] == chunks;
    var usage := observer.Finish();
    recorded := Some(usage);
  }
}
