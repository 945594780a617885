/** How a model's answer reaches the user at the end of a chat turn: the
    send strategy chosen from the answer (a code fence and the length), the
    speech that follows when voice answers are on, and the plain-text
    fallback taken when anything in the first attempt raises.

    A send may fail (a parse error of the Markdown, a refused message, the
    speech synthesis); which attempts fail is a parameter `fails`, read by
    the running number of the attempt. A failed send raises: the sends after
    it in the same block are not attempted. */
module Dispatch {

  import opened Lines
  import opened Chunking
  import opened Transport
  import opened UserData

  datatype Strategy = MarkdownLong | MarkdownShort | PlainLong | PlainShort

  predicate IsMarkdown(st: Strategy) {
    st.MarkdownLong? || st.MarkdownShort?
  }

  predicate IsLong(st: Strategy) {
    st.MarkdownLong? || st.PlainLong?
  }

  /** The first attempt: Markdown when the answer holds "```", chunked when
      it is longer than 4096 characters. */
  function Choose(response: string): Strategy {
    if HasFence(response) then
      if |response| > MaxLength then MarkdownLong else MarkdownShort
    else
      if |response| > MaxLength then PlainLong else PlainShort
  }

  /** After a failure: always plain, chunked by the same length test. */
  function Fallback(response: string): Strategy {
    if |response| > MaxLength then PlainLong else PlainShort
  }

  /** Markdown is chosen exactly when the answer contains a code fence, and
      chunking exactly when it is longer than the limit; the fallback is
      never Markdown and keeps the length test. */
  lemma ChooseSpec(response: string)
    ensures IsMarkdown(Choose(response)) <==> exists i :: FenceAt(response, i)
    ensures IsLong(Choose(response)) <==> |response| > MaxLength
    ensures !IsMarkdown(Fallback(response))
    ensures IsLong(Fallback(response)) <==> |response| > MaxLength
  {
    HasFenceIff(response);
  }

  /** One answer send per chunk. */
  function AnswerAll(chunks: seq<string>, markdown: bool): (r: seq<Send>)
    ensures |r| == |chunks|
    ensures forall i :: 0 <= i < |r| ==>
      r[i] == if markdown then MarkdownAnswer(chunks[i]) else PlainAnswer(chunks[i])
    decreases |chunks|
  {
    if chunks == [] then []
    else
      var head := if markdown then MarkdownAnswer(chunks[0]) else PlainAnswer(chunks[0]);
      [head] + AnswerAll(chunks[1..], markdown)
  }

  /** The sends of the answer's text under a strategy (`send_message_md_long`,
      `send_message_md`, `send_message_kwargs_long`, `send_message_kwargs`). */
  function TextSends(st: Strategy, heading: string, response: string): seq<Send> {
    match st
    case MarkdownLong => AnswerAll(MdChunks(heading, response), true)
    case MarkdownShort => [MarkdownReply("*" + heading + "*" + response)]
    case PlainLong => AnswerAll(KwargsChunks(heading, response), false)
    case PlainShort => [BoldReply(heading, response)]
  }

  /** A block of the send: the text, then the speech if voice answers are on. */
  function BlockSends(st: Strategy, heading: string, response: string, voice: bool): seq<Send> {
    TextSends(st, heading, response) + (if voice then [Audio(response)] else [])
  }

  /** What a send puts in the chat, as text. */
  function Shown(s: Send): string {
    match s
    case MarkdownAnswer(t) => t
    case MarkdownReply(t) => t
    case PlainAnswer(t) => t
    case BoldReply(h, b) => h + b
    case Audio(t) => t
  }

  function Texts(sends: seq<Send>): (r: seq<string>)
    ensures |r| == |sends|
    ensures forall i :: 0 <= i < |r| ==> r[i] == Shown(sends[i])
    decreases |sends|
  {
    if sends == [] then [] else [Shown(sends[0])] + Texts(sends[1..])
  }

  datatype RunResult = RunResult(delivered: seq<Send>, raised: bool, next: nat)

  /** The sends of one block attempted in order from attempt number `at`:
      the ones before the first failure go through, the failing one raises
      and ends the block. */
  function Run(sends: seq<Send>, fails: nat -> bool, at: nat): (r: RunResult)
    ensures r.delivered <= sends
    ensures forall k :: at <= k < at + |r.delivered| ==> !fails(k)
    ensures r.raised ==> |r.delivered| < |sends| && fails(at + |r.delivered|)
    ensures !r.raised ==> r.delivered == sends
    ensures r.next == at + |r.delivered| + (if r.raised then 1 else 0)
    decreases |sends|
  {
    if sends == [] then RunResult([], false, at)
    else if fails(at) then RunResult([], true, at + 1)
    else
      var rest := Run(sends[1..], fails, at + 1);
      RunResult([sends[0]] + rest.delivered, rest.raised, rest.next)
  }

  /** What was delivered, and whether the fallback raised as well (the chat
      turn then replies with the error). */
  datatype Outcome = Outcome(delivered: seq<Send>, raised: bool)

  /** The send block of the chat turn and its `except` branch. */
  function Deliver(heading: string, response: string, voice: bool, fails: nat -> bool): Outcome {
    var first := Run(BlockSends(Choose(response), heading, response, voice), fails, 0);
    if !first.raised then Outcome(first.delivered, false)
    else
      var second := Run(BlockSends(Fallback(response), heading, response, voice), fails, first.next);
      Outcome(first.delivered + second.delivered, second.raised)
  }

  /** With no failure, the chosen block is delivered in full and nothing else. */
  lemma DeliverWithoutFailure(heading: string, response: string, voice: bool, fails: nat -> bool)
    requires forall k :: !fails(k)
    ensures Deliver(heading, response, voice, fails) ==
      Outcome(BlockSends(Choose(response), heading, response, voice), false)
  {
  }

  /** Every delivered send belongs to the chosen block or to the plain
      fallback; the fallback is used only after the first block raised, and
      the error surfaces only when the fallback raised too. */
  lemma DeliverShape(heading: string, response: string, voice: bool, fails: nat -> bool)
    ensures var o := Deliver(heading, response, voice, fails);
      var primary := BlockSends(Choose(response), heading, response, voice);
      var fallback := BlockSends(Fallback(response), heading, response, voice);
      && (forall s :: s in o.delivered ==> s in primary || s in fallback)
      && (o.delivered == primary || exists k :: fails(k))
      && (o.raised ==> exists j, k :: j < k && fails(j) && fails(k))
  {
    var o := Deliver(heading, response, voice, fails);
    var primary := BlockSends(Choose(response), heading, response, voice);
    var fallback := BlockSends(Fallback(response), heading, response, voice);
    var first := Run(primary, fails, 0);
    if first.raised {
      var second := Run(fallback, fails, first.next);
      var j := |first.delivered|;
      assert fails(j);
      forall s | s in o.delivered
        ensures s in primary || s in fallback
      {
        if s in first.delivered {
          assert s in primary;
        } else {
          assert s in second.delivered;
        }
      }
      if o.raised {
        assert fails(first.next + |second.delivered|);
      }
    }
  }

  /** Speech is only ever of the whole answer, and only with voice answers
      on; with them on and nothing failing, it is delivered. */
  lemma DeliverSpeech(heading: string, response: string, voice: bool, fails: nat -> bool)
    ensures forall t :: Audio(t) in Deliver(heading, response, voice, fails).delivered ==> voice && t == response
    ensures voice && (forall k :: !fails(k)) ==> Audio(response) in Deliver(heading, response, voice, fails).delivered
  {
    var o := Deliver(heading, response, voice, fails);
    DeliverShape(heading, response, voice, fails);
    BlockSpeech(Choose(response), heading, response, voice);
    BlockSpeech(Fallback(response), heading, response, voice);
    if voice && (forall k :: !fails(k)) {
      DeliverWithoutFailure(heading, response, voice, fails);
    }
  }

  /** A block's only speech is the answer's, last, with voice answers on. */
  lemma BlockSpeech(st: Strategy, heading: string, response: string, voice: bool)
    ensures forall t :: Audio(t) in BlockSends(st, heading, response, voice) ==> voice && t == response
    ensures voice ==> Audio(response) in BlockSends(st, heading, response, voice)
  {
    var text := TextSends(st, heading, response);
    TextSendsHaveNoAudio(st, heading, response);
    if voice {
      assert BlockSends(st, heading, response, voice) == text + [Audio(response)];
    } else {
      assert BlockSends(st, heading, response, voice) == text + [];
    }
  }

  lemma TextSendsHaveNoAudio(st: Strategy, heading: string, response: string)
    ensures forall s :: s in TextSends(st, heading, response) ==> !s.Audio?
  {
  }

  /** A failure of the speech after the text went through makes the
      fallback send the text a second time before trying the speech again:
      attempts 0 (the text) and 2, 3 (the fallback's text and speech) go
      through, attempt 1 (the speech) fails. */
  lemma SpeechFailureRepeatsText(heading: string, response: string, fails: nat -> bool)
    requires !HasFence(response) && |response| <= MaxLength
    requires !fails(0) && fails(1) && !fails(2) && !fails(3)
    ensures Deliver(heading, response, true, fails) ==
      Outcome([BoldReply(heading, response), BoldReply(heading, response), Audio(response)], false)
  {
    ShortPlain(response);
    ShortSpeechFailureRepeatsText(heading, response, fails);
  }

  /** An answer without a fence and within the limit is a short plain reply. */
  lemma ShortPlain(response: string)
    requires !HasFence(response) && |response| <= MaxLength
    ensures Choose(response) == PlainShort
  {
  }

  lemma ShortSpeechFailureRepeatsText(heading: string, response: string, fails: nat -> bool)
    requires Choose(response) == PlainShort
    requires !fails(0) && fails(1) && !fails(2) && !fails(3)
    ensures Deliver(heading, response, true, fails) ==
      Outcome([BoldReply(heading, response), BoldReply(heading, response), Audio(response)], false)
  {
    var text := BoldReply(heading, response);
    var sends := [text, Audio(response)];
    RunPairSecondFails(text, Audio(response), fails, 0);
    RunPairPasses(text, Audio(response), fails, 2);
    ShortVoiceBlock(heading, response);
    DeliverAfterRetry(heading, response, true, fails, [text], sends, 2);
    assert [text] + sends == [text, text, Audio(response)];
  }

  /** The first block raised at its last attempt `next - 1`; the fallback
      from `next` on went through. */
  lemma DeliverAfterRetry(heading: string, response: string, voice: bool, fails: nat -> bool,
                          first: seq<Send>, second: seq<Send>, next: nat)
    requires Run(BlockSends(Choose(response), heading, response, voice), fails, 0) == RunResult(first, true, next)
    requires Run(BlockSends(Fallback(response), heading, response, voice), fails, next) ==
      RunResult(second, false, next + |second|)
    ensures Deliver(heading, response, voice, fails) == Outcome(first + second, false)
  {
  }

  /** A short plain answer, with voice answers on, is sent as one bold reply
      followed by the speech, first time and on the fallback. */
  lemma ShortVoiceBlock(heading: string, response: string)
    requires Choose(response) == PlainShort
    ensures Fallback(response) == PlainShort
    ensures BlockSends(PlainShort, heading, response, true) == [BoldReply(heading, response), Audio(response)]
  {
  }

  /** Two sends from attempt `at`, the second failing. */
  lemma RunPairSecondFails(a: Send, b: Send, fails: nat -> bool, at: nat)
    requires !fails(at) && fails(at + 1)
    ensures Run([a, b], fails, at) == RunResult([a], true, at + 2)
  {
    assert [a, b][1..] == [b];
    assert Run([b], fails, at + 1) == RunResult([], true, at + 2);
  }

  /** Two sends from attempt `at`, neither failing. */
  lemma RunPairPasses(a: Send, b: Send, fails: nat -> bool, at: nat)
    requires !fails(at) && !fails(at + 1)
    ensures Run([a, b], fails, at) == RunResult([a, b], false, at + 2)
  {
    assert [a, b][1..] == [b];
    assert [b][1..] == [];
    assert Run([b], fails, at + 1) == RunResult([b], false, at + 2);
  }

  /** For every answer label of the model table, the long Markdown path
      loses nothing: its chunks, joined by line breaks, are the label in
      asterisks, a break and the answer. */
  lemma MarkdownLongKeepsText(m: ModelChoice, response: string)
    ensures Join(Texts(TextSends(MarkdownLong, ChatLabel(m), response))) ==
      MdContent(ChatLabel(m), response)
  {
    var heading := ChatLabel(m);
    var first := "*" + DisplayName(m) + ":";
    var rest := "\n*\n" + response;
    assert MdContent(heading, response) == first + "\n" + rest;
    assert '\n' !in first;
    SplitCons(first, rest);
    MdChunksRebuild(heading, response);
    TextsOfAnswers(MdChunks(heading, response), true);
  }

  /** A short path sends the whole answer as one message that ends with
      it, after the label (in asterisks on the Markdown path): the message
      is the label's length, plus two on the Markdown path, longer than
      the answer. */
  lemma ShortSendsWhole(st: Strategy, heading: string, response: string)
    requires !IsLong(st)
    ensures var texts := Texts(TextSends(st, heading, response));
      && |texts| == 1
      && |texts[0]| == |heading| + |response| + (if IsMarkdown(st) then 2 else 0)
      && texts[0][|texts[0]| - |response|..] == response
  {
    var texts := Texts(TextSends(st, heading, response));
    assert texts[0] == if st.MarkdownShort? then "*" + heading + "*" + response else heading + response;
  }

  /** The length test is on the answer alone: an answer of exactly 4096
      characters takes a short path, first attempt and fallback alike, and
      the one message sent is longer than 4096 characters by its label. */
  lemma ShortOverLimit(m: ModelChoice, response: string)
    requires |response| == MaxLength
    ensures !IsLong(Choose(response)) && !IsLong(Fallback(response))
    ensures var texts := Texts(TextSends(Choose(response), ChatLabel(m), response));
      |texts| == 1 && |texts[0]| > MaxLength
    ensures var texts := Texts(TextSends(Fallback(response), ChatLabel(m), response));
      |texts| == 1 && |texts[0]| > MaxLength
  {
    ShortSendsWhole(Choose(response), ChatLabel(m), response);
    ShortSendsWhole(Fallback(response), ChatLabel(m), response);
  }

  /** The long plain path keeps every character of the label and the answer
      (line breaks aside) and sends no message over the limit other than a
      single over-long line. */
  lemma PlainLongChunks(heading: string, response: string)
    ensures var texts := Texts(TextSends(PlainLong, heading, response));
      && StripNewlines(Flatten(texts)) == StripNewlines(KwargsContent(heading, response))
      && forall t :: t in texts ==> |t| <= MaxLength || t in Split(KwargsContent(heading, response))
  {
    TextsOfAnswers(KwargsChunks(heading, response), false);
    KwargsChunksKeepCharacters(heading, response);
    KwargsChunksBounded(heading, response);
  }

  /** The answer sends carry the chunks, in order. */
  lemma TextsOfAnswers(chunks: seq<string>, markdown: bool)
    ensures Texts(AnswerAll(chunks, markdown)) == chunks
  {
    var texts := Texts(AnswerAll(chunks, markdown));
    assert forall i :: 0 <= i < |chunks| ==> texts[i] == chunks[i];
  }
}
