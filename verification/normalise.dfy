/**
  The pure transforms around the provider calls in backend/index.js: the
  flattened prompt sent to Gemini, the drain of the coder model's chunk
  stream, and the "first choice or placeholder" rule that turns a completion
  into reply text.
 */
module Normalise {
  import opened JsText
  import opened Protocol

  const Placeholder := "No response generated."

  function Contents(ms: seq<ChatMessage>): (r: seq<string>)
    ensures |r| == |ms|
    ensures forall i | 0 <= i < |ms| :: r[i] == ms[i].content
  {
    seq(|ms|, i requires 0 <= i < |ms| => ms[i].content)
  }

  /** `messages.map(msg => msg.content).join('\n')`: roles are dropped and
      the contents kept in order, one newline between neighbours. */
  function FlattenPrompt(ms: seq<ChatMessage>): (prompt: string)
    ensures |ms| == 0 ==> prompt == ""
    ensures |ms| > 0 ==> |prompt| == TotalLength(Contents(ms)) + |ms| - 1
  {
    Join(Contents(ms), "\n")
  }

  /** n messages give n - 1 newline separators on top of the newlines
      the contents themselves hold. */
  lemma FlattenPromptSeparators(ms: seq<ChatMessage>)
    requires |ms| > 0
    ensures CountChar(FlattenPrompt(ms), '\n') == TotalCount(Contents(ms), '\n') + |ms| - 1
  {
    assert "\n" == ['\n'];
    JoinSeparatorCount(Contents(ms), '\n');
  }

  /** When no content holds a newline, splitting the prompt on newlines gives
      back every message content, in order: nothing is lost or reordered. */
  lemma FlattenPromptSplits(ms: seq<ChatMessage>)
    requires |ms| > 0
    requires forall i | 0 <= i < |ms| :: '\n' !in ms[i].content
    ensures Split(FlattenPrompt(ms), '\n') == Contents(ms)
  {
    assert "\n" == ['\n'];
    SplitJoin(Contents(ms), '\n');
  }

  /** `response = text || 'No response generated.'` */
  function OrPlaceholder(text: string): (r: string)
    ensures r != ""
    ensures r == text || (text == "" && r == Placeholder)
  {
    if text == "" then Placeholder else text
  }

  /** One element of a completion's `choices`; `content` is `None` when the
      choice has no message or the message has no (or a null) content. */
  datatype Choice = Choice(content: Option<string>)

  datatype Completion = Completion(choices: seq<Choice>)

  /** `result.choices[0]?.message?.content || 'No response generated.'` */
  function FirstChoiceReply(c: Completion): (r: string)
    ensures r != ""
    ensures r == Placeholder || (|c.choices| > 0 && c.choices[0].content == Some(r))
    ensures |c.choices| > 0 && c.choices[0].content.Some? && c.choices[0].content.value != ""
            ==> r == c.choices[0].content.value
  {
    if |c.choices| > 0 && c.choices[0].content.Some? then OrPlaceholder(c.choices[0].content.value)
    else Placeholder
  }

  /** A normalised reply survives a second normalisation unchanged. */
  lemma FirstChoiceReplyIsStable(c: Completion)
    ensures FirstChoiceReply(Completion([Choice(Some(FirstChoiceReply(c)))])) == FirstChoiceReply(c)
  {
  }

  /** One element of a stream chunk's `choices`; `deltaContent` is `None`
      when the delta carries no `content` field. */
  datatype StreamChoice = StreamChoice(deltaContent: Option<string>)

  /** A stream chunk; `choices` is `None` when the field is missing or null. */
  datatype Chunk = Chunk(choices: Option<seq<StreamChoice>>)

  predicate HasChoices(c: Chunk) {
    c.choices.Some? && |c.choices.value| > 0
  }

  /** What one chunk adds to the drained text: its first choice's delta
      content, or nothing when it has no choices or the delta no content. */
  function Fragment(c: Chunk): string {
    if HasChoices(c) then
      match c.choices.value[0].deltaContent
      case None => ""
      case Some(t) => t
    else ""
  }

  /** The drained text of a finite stream: fragments in arrival order. */
  function Drain(chunks: seq<Chunk>): string
    decreases |chunks|
  {
    if |chunks| == 0 then "" else Drain(chunks[..|chunks| - 1]) + Fragment(chunks[|chunks| - 1])
  }

  /** The `for await` loop accumulating `out`, with a delta that has no
      content adding nothing (the corrected loop the handler uses). */
  method DrainStream(chunks: seq<Chunk>) returns (out: string)
    ensures out == Drain(chunks)
  {
    out := "";
    var i := 0;
    while i < |chunks|
      invariant 0 <= i <= |chunks|
      invariant out == Drain(chunks[..i])
    {
      assert chunks[..i + 1][..i] == chunks[..i];
      out := out + Fragment(chunks[i]);
      i := i + 1;
    }
    assert chunks[..i] == chunks;
  }

  /** Draining is a homomorphism: the stream's halves drain independently
      and their texts are concatenated in arrival order. */
  lemma {:induction false} DrainAppend(a: seq<Chunk>, b: seq<Chunk>)
    ensures Drain(a + b) == Drain(a) + Drain(b)
    decreases |b|
  {
    if |b| == 0 {
      assert a + b == a;
    } else {
      var b' := b[..|b| - 1];
      assert (a + b)[..|a + b| - 1] == a + b';
      assert (a + b)[|a + b| - 1] == b[|b| - 1];
      DrainAppend(a, b');
    }
  }

  /** A chunk without choices leaves the drained text exactly as it was. */
  lemma ChoicelessChunkAddsNothing(a: seq<Chunk>, c: Chunk, b: seq<Chunk>)
    requires !HasChoices(c)
    ensures Drain(a + [c] + b) == Drain(a + b)
  {
    DrainAppend(a + [c], b);
    DrainAppend(a, [c]);
    DrainAppend(a, b);
    assert Drain([c]) == Drain([]) + Fragment(c);
  }

  /** A stream in which no chunk carries content drains to the empty string,
      so the reply is the placeholder. */
  lemma {:induction false} ContentlessStreamGivesPlaceholder(chunks: seq<Chunk>)
    requires forall i | 0 <= i < |chunks| :: Fragment(chunks[i]) == ""
    ensures Drain(chunks) == ""
    ensures OrPlaceholder(Drain(chunks)) == Placeholder
    decreases |chunks|
  {
    if |chunks| > 0 {
      ContentlessStreamGivesPlaceholder(chunks[..|chunks| - 1]);
    }
  }

  /** Fragments "Hel" and "lo" drain to "Hello". */
  lemma DrainExample()
    ensures Drain([Chunk(Some([StreamChoice(Some("Hel"))])), Chunk(Some([StreamChoice(Some("lo"))]))]) == "Hello"
  {
    var c1 := Chunk(Some([StreamChoice(Some("Hel"))]));
    var c2 := Chunk(Some([StreamChoice(Some("lo"))]));
    assert [c1, c2][..1] == [c1];
    assert [c1][..0] == [];
  }

  /** As written, `out += chunk.choices[0].delta.content` appends the text
      "undefined" for a delta that has no content. */
  function FragmentAsWritten(c: Chunk): string {
    if HasChoices(c) then TemplateText(c.choices.value[0].deltaContent) else ""
  }

  function DrainAsWritten(chunks: seq<Chunk>): string
    decreases |chunks|
  {
    if |chunks| == 0 then ""
    else DrainAsWritten(chunks[..|chunks| - 1]) + FragmentAsWritten(chunks[|chunks| - 1])
  }

  /** The `for await` loop exactly as written: `out += delta.content`. */
  method DrainStreamAsWritten(chunks: seq<Chunk>) returns (out: string)
    ensures out == DrainAsWritten(chunks)
  {
    out := "";
    var i := 0;
    while i < |chunks|
      invariant 0 <= i <= |chunks|
      invariant out == DrainAsWritten(chunks[..i])
    {
      assert chunks[..i + 1][..i] == chunks[..i];
      out := out + FragmentAsWritten(chunks[i]);
      i := i + 1;
    }
    assert chunks[..i] == chunks;
  }

  /** A single chunk whose delta has no content: the loop as written replies
      "undefined" where the placeholder was meant. */
  lemma ContentlessDeltaLeaksUndefined()
    ensures OrPlaceholder(DrainAsWritten([Chunk(Some([StreamChoice(None)]))])) == "undefined"
    ensures OrPlaceholder(Drain([Chunk(Some([StreamChoice(None)]))])) == Placeholder
  {
    var c := Chunk(Some([StreamChoice(None)]));
    assert [c][..0] == [];
  }

  /** The two loops agree on every stream whose chunks with choices all
      carry content: the missing-content case is the only divergence. */
  lemma {:induction false} DrainAsWrittenAgreesWhenContentPresent(chunks: seq<Chunk>)
    requires forall i | 0 <= i < |chunks| :: HasChoices(chunks[i]) ==> chunks[i].choices.value[0].deltaContent.Some?
    ensures DrainAsWritten(chunks) == Drain(chunks)
    decreases |chunks|
  {
    if |chunks| > 0 {
      DrainAsWrittenAgreesWhenContentPresent(chunks[..|chunks| - 1]);
    }
  }
}
