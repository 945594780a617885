/** The three line-based splitters that cut a long text into messages the
    chat transport accepts (at most 4096 characters each):

    - `send_history` packs lines while the running length (each line counted
      with its break) stays within 4096;
    - `send_message_kwargs_long` grows one chunk string, and after its first
      line appends every further line followed by a break, so the first two
      lines of a chunk run together;
    - `send_message_md_long` compares the NUMBER of lines already in the
      chunk plus the new line's length against 4096.

    Each is a loop in the bot; here each has a specification by a fold over
    the lines, a method with the bot's loop proved equal to it, and lemmas
    stating what the chunks are. None of them looks at code fences. */
module Chunking {

  import opened Lines
  import opened UserData

  /** Telegram's limit on the length of one message. */
  const MaxLength := 4096

  // =====================================================================
  // send_history

  /** The loop state of `send_history`: the finished chunks, the lines of the
      chunk being filled, and its running length (`current_length`). */
  datatype HistoryAcc = HistoryAcc(chunks: seq<string>, current: seq<string>, length: int)

  /** One turn of the loop: if the line with its break no longer fits, the
      chunk being filled is finished and the line starts a new one. */
  function HistoryStep(a: HistoryAcc, line: string): HistoryAcc {
    if a.length + |line| + 1 > MaxLength then
      HistoryAcc(a.chunks + [Join(a.current)], [line], |line| + 1)
    else
      HistoryAcc(a.chunks, a.current + [line], a.length + |line| + 1)
  }

  function HistoryFold(lines: seq<string>): HistoryAcc
    decreases |lines|
  {
    if lines == [] then HistoryAcc([], [], 0)
    else HistoryStep(HistoryFold(lines[..|lines| - 1]), lines[|lines| - 1])
  }

  /** The chunks `send_history` sends for the text `history`, in order. */
  function HistoryChunks(history: string): seq<string> {
    var a := HistoryFold(Split(history));
    if a.current != [] then a.chunks + [Join(a.current)] else a.chunks
  }

  /** What holds after the lines `done` have been taken in. The first line
      is special: if that line alone exceeds the limit, the empty chunk
      being filled is finished before it, and an empty chunk leads. */
  ghost predicate HistoryInv(a: HistoryAcc, done: seq<string>) {
    if done == [] then a == HistoryAcc([], [], 0)
    else
      var lead := if |done[0]| >= MaxLength then 1 else 0;
      && a.current != []
      && a.length == |Join(a.current)| + 1
      && lead <= |a.chunks|
      && (lead == 1 ==> a.chunks[0] == "")
      && Join(a.chunks[lead..] + [Join(a.current)]) == Join(done)
      && (forall c :: c in a.chunks ==> |c| < MaxLength || c in done)
      && (a.length <= MaxLength || (|a.current| == 1 && a.current[0] in done))
  }

  lemma {:induction false} HistoryStepInv(a: HistoryAcc, done: seq<string>, line: string, done': seq<string>)
    requires HistoryInv(a, done) && done' == done + [line]
    ensures HistoryInv(HistoryStep(a, line), done')
  {
    if done == [] {
      HistoryStepFirst(a, line);
    } else if a.length + |line| + 1 > MaxLength {
      HistoryStepPush(a, done, line);
    } else {
      HistoryStepGrow(a, done, line);
    }
  }

  /** The first line: it starts the chunk, after an empty chunk if it is
      too long on its own. */
  lemma HistoryStepFirst(a: HistoryAcc, line: string)
    requires HistoryInv(a, [])
    ensures HistoryInv(HistoryStep(a, line), [line])
  {
    var b := HistoryStep(a, line);
    assert Join([line]) == line;
    if |line| >= MaxLength {
      assert b.chunks == [""];
      assert b.chunks[1..] + [Join(b.current)] == [line];
    } else {
      assert b.chunks == [];
      assert b.chunks[0..] + [Join(b.current)] == [line];
    }
  }

  /** A later line that does not fit: the chunk is finished and the line
      starts the next one. */
  lemma HistoryStepPush(a: HistoryAcc, done: seq<string>, line: string)
    requires done != [] && HistoryInv(a, done)
    requires a.length + |line| + 1 > MaxLength
    ensures HistoryInv(HistoryStep(a, line), done + [line])
  {
    var done' := done + [line];
    var b := HistoryStep(a, line);
    var lead := if |done[0]| >= MaxLength then 1 else 0;
    var x := Join(a.current);
    assert done'[0] == done[0];
    assert b.chunks[lead..] == a.chunks[lead..] + [x];
    JoinSnoc(done, line);
    JoinSnoc(a.chunks[lead..] + [x], line);
    assert b.chunks[lead..] + [Join(b.current)] == (a.chunks[lead..] + [x]) + [line];
    if a.length > MaxLength {
      assert a.current == [a.current[0]];
    }
    ChunksStayBounded(a.chunks, x, done, line);
  }

  /** The chunks after a push are still each short or a line of the text. */
  lemma ChunksStayBounded(chunks: seq<string>, x: string, done: seq<string>, line: string)
    requires forall c :: c in chunks ==> |c| < MaxLength || c in done
    requires |x| < MaxLength || x in done
    ensures forall c :: c in chunks + [x] ==> |c| < MaxLength || c in done + [line]
  {
    forall c | c in chunks + [x]
      ensures |c| < MaxLength || c in done + [line]
    {
      if c in chunks {
        assert |c| < MaxLength || c in done;
      }
    }
  }

  /** A later line that fits: it joins the chunk being filled. */
  lemma HistoryStepGrow(a: HistoryAcc, done: seq<string>, line: string)
    requires done != [] && HistoryInv(a, done)
    requires a.length + |line| + 1 <= MaxLength
    ensures HistoryInv(HistoryStep(a, line), done + [line])
  {
    var done' := done + [line];
    var b := HistoryStep(a, line);
    var lead := if |done[0]| >= MaxLength then 1 else 0;
    assert done'[0] == done[0];
    JoinSnoc(done, line);
    JoinSnoc(a.current, line);
    JoinExtendLast(a.chunks[lead..], Join(a.current), line);
    forall c | c in b.chunks
      ensures |c| < MaxLength || c in done'
    {
      assert |c| < MaxLength || c in done;
    }
  }

  lemma {:induction false} HistoryFoldInv(lines: seq<string>)
    ensures HistoryInv(HistoryFold(lines), lines)
    decreases |lines|
  {
    if lines != [] {
      var init := lines[..|lines| - 1];
      var last := lines[|lines| - 1];
      HistoryFoldInv(init);
      assert init + [last] == lines;
      HistoryStepInv(HistoryFold(init), init, last, lines);
    }
  }

  /** Only a single line that is itself too long makes an oversized chunk:
      every other chunk has fewer than 4096 characters. */
  lemma HistoryChunksBounded(history: string)
    ensures forall c :: c in HistoryChunks(history) ==> |c| < MaxLength || c in Split(history)
  {
    var lines := Split(history);
    HistoryFoldInv(lines);
    var a := HistoryFold(lines);
    if a.length > MaxLength {
      assert a.current == [a.current[0]];
    }
  }

  /** A chunk with a line break in it — two or more lines — has fewer than
      4096 characters. */
  lemma HistoryChunksWithBreakBounded(history: string)
    ensures forall c :: c in HistoryChunks(history) && '\n' in c ==> |c| < MaxLength
  {
    HistoryChunksBounded(history);
    SplitHasNoNewlines(history);
  }

  /** Joining the chunks with line breaks gives back the text, except that a
      first line of 4096 or more characters is preceded by an extra empty
      chunk. */
  lemma HistoryChunksRebuild(history: string)
    ensures var r := HistoryChunks(history);
      if |Split(history)[0]| >= MaxLength then |r| >= 2 && r[0] == "" && Join(r[1..]) == history
      else Join(r) == history
  {
    var lines := Split(history);
    HistoryFoldInv(lines);
    JoinSplit(history);
    var a := HistoryFold(lines);
    assert a.current != [] && Join(a.chunks[(if |lines[0]| >= MaxLength then 1 else 0)..] + [Join(a.current)]) == history;
    var r := HistoryChunks(history);
    assert r == a.chunks + [Join(a.current)];
    if |lines[0]| >= MaxLength {
      assert r[0] == a.chunks[0] == "";
      assert r[1..] == a.chunks[1..] + [Join(a.current)];
    } else {
      assert a.chunks[0..] == a.chunks;
    }
  }

  /** `send_history`'s loop. */
  method SendHistoryChunks(history: string) returns (chunks: seq<string>)
    ensures chunks == HistoryChunks(history)
    ensures forall c :: c in chunks ==> |c| < MaxLength || c in Split(history)
    ensures |Split(history)[0]| < MaxLength ==> Join(chunks) == history
    ensures |Split(history)[0]| >= MaxLength ==>
      |chunks| >= 2 && chunks[0] == "" && Join(chunks[1..]) == history
  {
    var lines := Split(history);
    chunks := [];
    var currentChunk: seq<string> := [];
    var currentLength := 0;
    for i := 0 to |lines|
      invariant HistoryAcc(chunks, currentChunk, currentLength) == HistoryFold(lines[..i])
    {
      assert lines[..i + 1][..i] == lines[..i];
      var line := lines[i];
      var lineLength := |line| + 1;
      if currentLength + lineLength > MaxLength {
        chunks := chunks + [Join(currentChunk)];
        currentChunk := [line];
        currentLength := lineLength;
      } else {
        currentChunk := currentChunk + [line];
        currentLength := currentLength + lineLength;
      }
    }
    if currentChunk != [] {
      chunks := chunks + [Join(currentChunk)];
    }
    assert lines[..|lines|] == lines;
    HistoryChunksBounded(history);
    HistoryChunksRebuild(history);
  }

  // =====================================================================
  // send_message_kwargs_long

  /** The loop state of `send_message_kwargs_long`: the finished chunks and
      the chunk string being grown. */
  datatype TextAcc = TextAcc(chunks: seq<string>, chunk: string)

  /** One turn of the loop. A line that does not fit finishes the chunk and
      starts the next one; otherwise an empty chunk becomes the line and a
      non-empty one gets the line and then a break. */
  function KwargsStep(a: TextAcc, line: string): TextAcc {
    if |a.chunk| + |line| + 1 > MaxLength then TextAcc(a.chunks + [a.chunk], line)
    else if a.chunk != "" then TextAcc(a.chunks, a.chunk + line + "\n")
    else TextAcc(a.chunks, line)
  }

  function KwargsFold(lines: seq<string>): TextAcc
    decreases |lines|
  {
    if lines == [] then TextAcc([], "")
    else KwargsStep(KwargsFold(lines[..|lines| - 1]), lines[|lines| - 1])
  }

  /** The text `send_message_kwargs_long` cuts: the label, a break, the answer. */
  function KwargsContent(heading: string, response: string): string {
    heading + "\n" + response
  }

  /** The chunks it sends, in order. */
  function KwargsChunks(heading: string, response: string): seq<string> {
    var a := KwargsFold(Split(KwargsContent(heading, response)));
    if a.chunk != "" then a.chunks + [a.chunk] else a.chunks
  }

  /** After the lines `done`: the chunks so far, with their breaks deleted,
      are the lines run together, and every chunk fits unless it is a
      single line. */
  ghost predicate KwargsInv(a: TextAcc, done: seq<string>) {
    && StripNewlines(Flatten(a.chunks + [a.chunk])) == Flatten(done)
    && (forall c :: c in a.chunks ==> |c| <= MaxLength || c in done)
    && (|a.chunk| <= MaxLength || a.chunk in done)
  }

  lemma {:induction false} FlattenSnoc(ls: seq<string>, x: string)
    ensures Flatten(ls + [x]) == Flatten(ls) + x
  {
    assert (ls + [x])[..|ls|] == ls;
  }

  lemma {:induction false} KwargsStepInv(a: TextAcc, done: seq<string>, line: string, done': seq<string>)
    requires KwargsInv(a, done) && done' == done + [line]
    requires '\n' !in line
    ensures KwargsInv(KwargsStep(a, line), done')
  {
    KwargsStepText(a, done, line);
    var b := KwargsStep(a, line);
    forall c | c in b.chunks
      ensures |c| <= MaxLength || c in done'
    {
      if c in a.chunks {
        assert |c| <= MaxLength || c in done;
      }
    }
  }

  /** One turn keeps the characters: the new line joins the run-together
      chunks, whatever breaks the turn adds. */
  lemma {:induction false} KwargsStepText(a: TextAcc, done: seq<string>, line: string)
    requires StripNewlines(Flatten(a.chunks + [a.chunk])) == Flatten(done)
    requires '\n' !in line
    ensures var b := KwargsStep(a, line);
      StripNewlines(Flatten(b.chunks + [b.chunk])) == Flatten(done + [line])
  {
    FlattenSnoc(done, line);
    if |a.chunk| + |line| + 1 > MaxLength {
      StartChunkKept(a.chunks + [a.chunk], line);
    } else if a.chunk != "" {
      GrowChunkKept(a.chunks, a.chunk, line);
    } else {
      FirstLineKept(a.chunks, line);
    }
  }

  /** A finished chunk followed by a new one holding the line. */
  lemma StartChunkKept(chunks: seq<string>, line: string)
    requires '\n' !in line
    ensures StripNewlines(Flatten(chunks + [line])) == StripNewlines(Flatten(chunks)) + line
  {
    FlattenSnoc(chunks, line);
    AppendLineKept(Flatten(chunks), line);
  }

  /** A chunk grown by the line and a break. */
  lemma GrowChunkKept(chunks: seq<string>, chunk: string, line: string)
    requires '\n' !in line
    ensures StripNewlines(Flatten(chunks + [chunk + line + "\n"])) ==
      StripNewlines(Flatten(chunks + [chunk])) + line
  {
    var f := Flatten(chunks);
    FlattenSnoc(chunks, chunk + line + "\n");
    FlattenSnoc(chunks, chunk);
    assert f + (chunk + line + "\n") == (f + chunk) + line + "\n";
    AppendLineThenBreakKept(f + chunk, line);
  }

  /** An empty chunk replaced by the line. */
  lemma FirstLineKept(chunks: seq<string>, line: string)
    requires '\n' !in line
    ensures StripNewlines(Flatten(chunks + [line])) == StripNewlines(Flatten(chunks + [""])) + line
  {
    FlattenSnoc(chunks, "");
    assert Flatten(chunks) + "" == Flatten(chunks);
    StartChunkKept(chunks, line);
  }

  lemma AppendLineKept(before: string, line: string)
    requires '\n' !in line
    ensures StripNewlines(before + line) == StripNewlines(before) + line
  {
    StripLine(line);
    StripAppend(before, line);
  }

  lemma AppendLineThenBreakKept(before: string, line: string)
    requires '\n' !in line
    ensures StripNewlines(before + line + "\n") == StripNewlines(before) + line
  {
    StripAppend(before + line, "\n");
    AppendLineKept(before, line);
    assert StripNewlines("\n") == [] by {
      assert "\n"[1..] == [];
    }
  }

  lemma {:induction false} KwargsFoldInv(lines: seq<string>)
    requires forall l :: l in lines ==> '\n' !in l
    ensures KwargsInv(KwargsFold(lines), lines)
    decreases |lines|
  {
    if lines == [] {
      assert Flatten([""]) == "" by {
        assert [""][..0] == [];
      }
    } else {
      var init := lines[..|lines| - 1];
      var last := lines[|lines| - 1];
      assert last in lines;
      assert forall l :: l in init ==> l in lines;
      KwargsFoldInv(init);
      assert init + [last] == lines;
      KwargsStepInv(KwargsFold(init), init, last, lines);
    }
  }

  /** Every chunk has at most 4096 characters, unless it is one line of the
      text on its own. */
  lemma KwargsChunksBounded(heading: string, response: string)
    ensures var content := KwargsContent(heading, response);
      forall c :: c in KwargsChunks(heading, response) ==> |c| <= MaxLength || c in Split(content)
  {
    var lines := Split(KwargsContent(heading, response));
    SplitHasNoNewlines(KwargsContent(heading, response));
    KwargsFoldInv(lines);
  }

  /** The chunks together hold the text's characters in order: deleting
      every line break from the run-together chunks and from the text gives
      the same string. */
  lemma KwargsChunksKeepCharacters(heading: string, response: string)
    ensures var content := KwargsContent(heading, response);
      StripNewlines(Flatten(KwargsChunks(heading, response))) == StripNewlines(content)
  {
    var content := KwargsContent(heading, response);
    var lines := Split(content);
    SplitHasNoNewlines(content);
    KwargsFoldInv(lines);
    StripJoin(lines);
    JoinSplit(content);
    var a := KwargsFold(lines);
    if a.chunk == "" {
      assert Flatten(a.chunks + [a.chunk]) == Flatten(a.chunks) by {
        assert (a.chunks + [a.chunk])[..|a.chunks|] == a.chunks;
      }
    }
  }

  /** The breaks are not kept. With a label of the model table, which
      ends in a blank line, and a short answer of two lines, the one chunk
      holds one break fewer between the label and the answer and gains one
      at its end, so it is not the text it was cut from. */
  lemma KwargsLabelBreaks(m: ModelChoice, first: string, second: string)
    requires '\n' !in first && '\n' !in second && first != ""
    requires |ChatLabel(m)| + |first| + |second| + 2 <= MaxLength
    ensures KwargsChunks(ChatLabel(m), first + "\n" + second) == [ChatLabel(m) + first + "\n" + second + "\n"]
    ensures Join(KwargsChunks(ChatLabel(m), first + "\n" + second)) != KwargsContent(ChatLabel(m), first + "\n" + second)
  {
    var heading := ChatLabel(m);
    var content := KwargsContent(heading, first + "\n" + second);
    var name := DisplayName(m) + ":";
    var lines := [name, "", "", first, second];
    assert Split(content) == lines by {
      NameHasNoBreak(m);
      assert heading == name + "\n\n";
      assert content == name + "\n\n" + "\n" + (first + "\n" + second);
      LabelLines(name, first, second);
    }
    var chunk := heading + first + "\n" + second + "\n";
    assert KwargsFold(lines) == TextAcc([], chunk) by {
      LabelFold(name, first, second);
      assert heading == name + "\n\n";
      assert name + "\n\n" + first + "\n" + second + "\n" == heading + first + "\n" + second + "\n";
    }
    assert Join([chunk]) == chunk;
    assert content[|heading|] == '\n' && chunk[|heading|] == first[0];
  }

  lemma NameHasNoBreak(m: ModelChoice)
    ensures '\n' !in DisplayName(m) + ":"
  {
    match m
    case Gpt4oMini =>
    case Gpt4o =>
    case O1Mini =>
    case O1Preview =>
    case DallE3 =>
  }

  /** A label's text and a two-line answer split into five lines, the
      label's blank line and the joining break giving two empty ones. */
  lemma LabelLines(name: string, first: string, second: string)
    requires '\n' !in name && '\n' !in first && '\n' !in second
    ensures Split(name + "\n\n" + "\n" + (first + "\n" + second)) == [name, "", "", first, second]
  {
    var rest := first + "\n" + second;
    assert name + "\n\n" + "\n" + rest == name + "\n" + ("" + "\n" + ("" + "\n" + rest));
    SplitCons(name, "" + "\n" + ("" + "\n" + rest));
    SplitCons("", "" + "\n" + rest);
    SplitCons("", rest);
    SplitCons(first, second);
    SplitLine(second);
  }

  /** The fold over those five lines, a line at a time: every line fits. */
  lemma LabelFold(name: string, first: string, second: string)
    requires name != "" && |name| + 2 + |first| + |second| + 2 <= MaxLength
    ensures KwargsFold([name, "", "", first, second]) == TextAcc([], name + "\n\n" + first + "\n" + second + "\n")
  {
    KwargsFoldSnoc([], name);
    assert [] + [name] == [name];
    KwargsFoldSnoc([name], "");
    assert [name] + [""] == [name, ""];
    assert KwargsFold([name, ""]) == TextAcc([], name + "\n");
    KwargsFoldSnoc([name, ""], "");
    assert [name, ""] + [""] == [name, "", ""];
    assert KwargsFold([name, "", ""]) == TextAcc([], name + "\n\n");
    KwargsFoldSnoc([name, "", ""], first);
    assert [name, "", ""] + [first] == [name, "", "", first];
    assert KwargsFold([name, "", "", first]) == TextAcc([], name + "\n\n" + first + "\n");
    KwargsFoldSnoc([name, "", "", first], second);
    assert [name, "", "", first] + [second] == [name, "", "", first, second];
  }

  /** After a cut, the line that starts the new chunk and the line after it
      run together: no break separates them. */
  lemma KwargsGluesAfterCut(a: TextAcc, first: string, second: string)
    requires |a.chunk| + |first| + 1 > MaxLength
    requires first != "" && |first| + |second| + 1 <= MaxLength
    ensures KwargsStep(KwargsStep(a, first), second) == TextAcc(a.chunks + [a.chunk], first + second + "\n")
  {
  }

  lemma KwargsFoldSnoc(lines: seq<string>, line: string)
    ensures KwargsFold(lines + [line]) == KwargsStep(KwargsFold(lines), line)
  {
    assert (lines + [line])[..|lines|] == lines;
  }

  /** `send_message_kwargs_long`'s loop. */
  method SendKwargsLongChunks(heading: string, response: string) returns (chunks: seq<string>)
    ensures chunks == KwargsChunks(heading, response)
    ensures forall c :: c in chunks ==> |c| <= MaxLength || c in Split(KwargsContent(heading, response))
    ensures StripNewlines(Flatten(chunks)) == StripNewlines(KwargsContent(heading, response))
  {
    var content := heading + "\n" + response;
    var messages := Split(content);
    var chunk := "";
    chunks := [];
    for i := 0 to |messages|
      invariant TextAcc(chunks, chunk) == KwargsFold(messages[..i])
    {
      assert messages[..i + 1][..i] == messages[..i];
      var line := messages[i];
      if |chunk| + |line| + 1 > MaxLength {
        chunks := chunks + [chunk];
        chunk := line;
      } else {
        if chunk != "" {
          chunk := chunk + line + "\n";
        } else {
          chunk := line;
        }
      }
    }
    if chunk != "" {
      chunks := chunks + [chunk];
    }
    assert messages[..|messages|] == messages;
    KwargsChunksBounded(heading, response);
    KwargsChunksKeepCharacters(heading, response);
  }

  // =====================================================================
  // send_message_md_long

  /** The loop state of `send_message_md_long`: the finished chunks and the
      lines of the chunk being filled. */
  datatype LineAcc = LineAcc(chunks: seq<string>, current: seq<string>)

  /** One turn of the loop: the test adds the number of lines in the chunk,
      not their length, to the new line's length. */
  function MdStep(a: LineAcc, line: string): LineAcc {
    if |a.current| + |line| + 1 > MaxLength then LineAcc(a.chunks + [Join(a.current)], [line])
    else LineAcc(a.chunks, a.current + [line])
  }

  function MdFold(lines: seq<string>): LineAcc
    decreases |lines|
  {
    if lines == [] then LineAcc([], [])
    else MdStep(MdFold(lines[..|lines| - 1]), lines[|lines| - 1])
  }

  /** The text `send_message_md_long` cuts: the label in asterisks, a break,
      the answer. */
  function MdContent(heading: string, response: string): string {
    "*" + heading + "*\n" + response
  }

  function MdChunksOfLines(lines: seq<string>): seq<string> {
    var a := MdFold(lines);
    if a.current != [] then a.chunks + [Join(a.current)] else a.chunks
  }

  /** The chunks it sends, in order. */
  function MdChunks(heading: string, response: string): seq<string> {
    MdChunksOfLines(Split(MdContent(heading, response)))
  }

  ghost predicate MdInv(a: LineAcc, done: seq<string>) {
    if done == [] then a == LineAcc([], [])
    else
      var lead := if |done[0]| >= MaxLength then 1 else 0;
      && a.current != []
      && lead <= |a.chunks|
      && (lead == 1 ==> a.chunks[0] == "")
      && Join(a.chunks[lead..] + [Join(a.current)]) == Join(done)
  }

  lemma {:induction false} MdStepInv(a: LineAcc, done: seq<string>, line: string, done': seq<string>)
    requires MdInv(a, done) && done' == done + [line]
    ensures MdInv(MdStep(a, line), done')
  {
    var b := MdStep(a, line);
    JoinSnoc(done, line);
    if done == [] {
      assert done' == [line];
      if |line| >= MaxLength {
        assert b.chunks[1..] + [Join(b.current)] == [line];
      } else {
        assert b.chunks[0..] + [Join(b.current)] == [line];
      }
    } else {
      assert done'[0] == done[0];
      var lead := if |done[0]| >= MaxLength then 1 else 0;
      if |a.current| + |line| + 1 > MaxLength {
        var x := Join(a.current);
        assert b.chunks[lead..] == a.chunks[lead..] + [x];
        JoinSnoc(a.chunks[lead..] + [x], line);
        assert b.chunks[lead..] + [Join(b.current)] == (a.chunks[lead..] + [x]) + [line];
      } else {
        JoinSnoc(a.current, line);
        JoinExtendLast(a.chunks[lead..], Join(a.current), line);
      }
    }
  }

  lemma {:induction false} MdFoldInv(lines: seq<string>)
    ensures MdInv(MdFold(lines), lines)
    decreases |lines|
  {
    if lines != [] {
      var init := lines[..|lines| - 1];
      MdFoldInv(init);
      assert init + [lines[|lines| - 1]] == lines;
      MdStepInv(MdFold(init), init, lines[|lines| - 1], lines);
    }
  }

  /** Joining the chunks with line breaks gives back the text exactly, as
      long as its first line (the heading in asterisks) is shorter than 4096
      characters; a longer one is preceded by an extra empty chunk. */
  lemma MdChunksRebuild(heading: string, response: string)
    ensures var content := MdContent(heading, response);
      var r := MdChunks(heading, response);
      if |Split(content)[0]| >= MaxLength then |r| >= 2 && r[0] == "" && Join(r[1..]) == content
      else Join(r) == content
  {
    var content := MdContent(heading, response);
    var lines := Split(content);
    MdFoldInv(lines);
    JoinSplit(content);
    var a := MdFold(lines);
    var lead := if |lines[0]| >= MaxLength then 1 else 0;
    var r := MdChunks(heading, response);
    assert r == a.chunks + [Join(a.current)];
    assert r[lead..] == a.chunks[lead..] + [Join(a.current)];
  }

  /** The test counts lines, not characters, so a chunk is not bounded by
      the message limit: two lines of up to 4095 and 4094 characters go into
      one chunk of up to 8190 characters. */
  lemma MdChunkUnbounded(a: string, b: string)
    requires |a| < MaxLength && |b| < MaxLength - 1
    ensures MdChunksOfLines([a, b]) == [a + "\n" + b]
    ensures |a + "\n" + b| == |a| + |b| + 1
  {
    assert [a, b][..1] == [a];
    assert [a][..0] == [];
    assert MdFold([a]) == LineAcc([], [a]);
    assert MdFold([a, b]) == LineAcc([], [a, b]);
    assert [a, b][1..] == [b];
    assert Join([a, b]) == a + "\n" + b;
  }

  /** `send_message_md_long`'s loop. */
  method SendMdLongChunks(heading: string, response: string) returns (chunks: seq<string>)
    ensures chunks == MdChunks(heading, response)
    ensures |Split(MdContent(heading, response))[0]| < MaxLength ==>
      Join(chunks) == MdContent(heading, response)
    ensures |Split(MdContent(heading, response))[0]| >= MaxLength ==>
      |chunks| >= 2 && chunks[0] == "" && Join(chunks[1..]) == MdContent(heading, response)
  {
    var finalMessage := "*" + heading + "*\n" + response;
    assert finalMessage == MdContent(heading, response);
    var lines := Split(finalMessage);
    chunks := [];
    var currentChunk: seq<string> := [];
    for i := 0 to |lines|
      invariant LineAcc(chunks, currentChunk) == MdFold(lines[..i])
    {
      assert lines[..i + 1][..i] == lines[..i];
      var line := lines[i];
      if |currentChunk| + |line| + 1 > MaxLength {
        chunks := chunks + [Join(currentChunk)];
        currentChunk := [line];
      } else {
        currentChunk := currentChunk + [line];
      }
    }
    if currentChunk != [] {
      chunks := chunks + [Join(currentChunk)];
    }
    assert lines[..|lines|] == lines;
    MdChunksRebuild(heading, response);
  }
}
