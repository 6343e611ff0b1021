/** The paste flow: stream a tweak of the clipboard text, paste it into the frontmost app
    in coalesced pieces as it arrives, fall back to a one-shot request when nothing
    streamed, and put the original text back on the clipboard afterwards; on any error
    paste the original unchanged. Clipboard writes, synthesized key presses and requests
    are recorded, in the order they are issued, as a log of effects. */
module TweakService {

  import opened Wrappers
  import opened Osaurus
  import opened Settings
  import opened HotkeyFeedback

  // =======================================================================================
  // Coalescing streamed deltas

  /** A buffer is pasted once it holds at least this many characters. */
  const FlushThreshold: nat := 24

  /** The buffer is pasted when it is long enough or holds a line break. */
  predicate ReadyToFlush(buffer: string) {
    |buffer| >= FlushThreshold || '\n' in buffer
  }

  /** The consumer loop's state: the pieces pasted so far, the text held back, and whether
      any non-empty chunk arrived. */
  datatype Coalescing = Coalescing(segments: seq<string>, buffer: string, receivedAny: bool)

  /** One chunk: ignored when empty; otherwise appended, and the buffer is pasted and
      emptied when it becomes ready. */
  function Step(c: Coalescing, chunk: string): Coalescing {
    if chunk == "" then c
    else if ReadyToFlush(c.buffer + chunk) then Coalescing(c.segments + [c.buffer + chunk], "", true)
    else Coalescing(c.segments, c.buffer + chunk, true)
  }

  /** The consumer loop's state after the chunks, in arrival order. */
  function Coalesced(chunks: seq<string>): Coalescing
    decreases |chunks|
  {
    if chunks == [] then Coalescing([], "", false)
    else Step(Coalesced(chunks[..|chunks| - 1]), chunks[|chunks| - 1])
  }

  /** The texts joined in order. */
  function Concat(texts: seq<string>): string
    decreases |texts|
  {
    if texts == [] then "" else Concat(texts[..|texts| - 1]) + texts[|texts| - 1]
  }

  lemma ConcatAppend(texts: seq<string>, t: string)
    ensures Concat(texts + [t]) == Concat(texts) + t
  {
    assert (texts + [t])[..|texts|] == texts;
  }

  /** The pieces pasted for a stream that ends normally: the flushed segments, then the
      remaining buffer when it is not empty. */
  function FinalSegments(chunks: seq<string>): seq<string> {
    var c := Coalesced(chunks);
    if c.buffer != "" then c.segments + [c.buffer] else c.segments
  }

  /** Nothing is lost or reordered: the pasted segments followed by the held-back buffer
      spell out exactly the streamed text. */
  lemma {:induction false} CoalescedConserves(chunks: seq<string>)
    ensures Concat(Coalesced(chunks).segments) + Coalesced(chunks).buffer == Concat(chunks)
    decreases |chunks|
  {
    if chunks != [] {
      var init := chunks[..|chunks| - 1];
      var chunk := chunks[|chunks| - 1];
      CoalescedConserves(init);
      var c := Coalesced(init);
      if chunk != "" && ReadyToFlush(c.buffer + chunk) {
        ConcatAppend(c.segments, c.buffer + chunk);
      }
    }
  }

  /** Every pasted segment is non-empty and was ready to flush; what is held back is not;
      and a chunk arrived exactly when some chunk was non-empty. */
  lemma {:induction false} CoalescedShape(chunks: seq<string>)
    ensures forall k :: 0 <= k < |Coalesced(chunks).segments| ==>
      Coalesced(chunks).segments[k] != "" && ReadyToFlush(Coalesced(chunks).segments[k])
    ensures !ReadyToFlush(Coalesced(chunks).buffer)
    ensures Coalesced(chunks).receivedAny <==> exists k :: 0 <= k < |chunks| && chunks[k] != ""
    decreases |chunks|
  {
    if chunks != [] {
      var init := chunks[..|chunks| - 1];
      CoalescedShape(init);
      assert forall k :: 0 <= k < |init| ==> init[k] == chunks[k];
    }
  }

  /** For a stream that ends normally every segment but the last was ready to flush, none
      is empty, together they are the streamed text, and there are none exactly when
      nothing non-empty arrived. */
  lemma FinalSegmentsShape(chunks: seq<string>)
    ensures Concat(FinalSegments(chunks)) == Concat(chunks)
    ensures forall k :: 0 <= k < |FinalSegments(chunks)| ==> FinalSegments(chunks)[k] != ""
    ensures forall k :: 0 <= k < |FinalSegments(chunks)| - 1 ==> ReadyToFlush(FinalSegments(chunks)[k])
    ensures FinalSegments(chunks) == [] <==> !Coalesced(chunks).receivedAny
  {
    var c := Coalesced(chunks);
    CoalescedConserves(chunks);
    CoalescedShape(chunks);
    if c.buffer != "" {
      ConcatAppend(c.segments, c.buffer);
    }
    if FinalSegments(chunks) == [] && c.receivedAny {
      var k :| 0 <= k < |chunks| && chunks[k] != "";
      ConcatHasPart(chunks, k);
    }
    if FinalSegments(chunks) != [] && !c.receivedAny {
      assert Concat(chunks) != "" by {
        var s := FinalSegments(chunks);
        ConcatHasPart(s, 0);
      }
      ConcatOfEmpties(chunks);
    }
  }

  /** A non-empty part makes the whole non-empty. */
  lemma {:induction false} ConcatHasPart(texts: seq<string>, k: nat)
    requires k < |texts| && texts[k] != ""
    ensures Concat(texts) != ""
    decreases |texts|
  {
    if k < |texts| - 1 {
      ConcatHasPart(texts[..|texts| - 1], k);
    }
  }

  /** Only empty parts make the empty text. */
  lemma {:induction false} ConcatOfEmpties(texts: seq<string>)
    requires forall k :: 0 <= k < |texts| ==> texts[k] == ""
    ensures Concat(texts) == ""
    decreases |texts|
  {
    if texts != [] {
      ConcatOfEmpties(texts[..|texts| - 1]);
    }
  }

  /** A long chunk is pasted as soon as it arrives, joined to whatever was held back. */
  lemma LongChunkFlushes(chunks: seq<string>, chunk: string)
    requires |chunk| >= FlushThreshold
    ensures Coalesced(chunks + [chunk]).buffer == ""
    ensures Coalesced(chunks + [chunk]).segments ==
      Coalesced(chunks).segments + [Coalesced(chunks).buffer + chunk]
  {
    assert (chunks + [chunk])[..|chunks|] == chunks;
  }

  /** An example: a short chunk is held back, a line break flushes it together with its
      chunk, empty chunks are skipped, and the trailing text stays buffered. */
  lemma CoalescingExample()
    ensures Coalesced(["Hi", "", " there\n", "ok"]) == Coalescing(["Hi there\n"], "ok", true)
    ensures FinalSegments(["Hi", "", " there\n", "ok"]) == ["Hi there\n", "ok"]
  {
    var chunks := ["Hi", "", " there\n", "ok"];
    assert !ReadyToFlush("Hi");
    assert ReadyToFlush("Hi there\n") by {
      assert "Hi there\n"[8] == '\n';
    }
    assert chunks[..1][..0] == [];
    assert Coalesced(chunks[..1]) == Coalescing([], "Hi", true);
    assert chunks[..2][..1] == chunks[..1];
    assert Coalesced(chunks[..2]) == Coalescing([], "Hi", true);
    assert chunks[..3][..2] == chunks[..2];
    assert "Hi" + " there\n" == "Hi there\n";
    assert Coalesced(chunks[..3]) == Coalescing(["Hi there\n"], "", true);
    assert chunks[..3] == chunks[..|chunks| - 1];
    assert !ReadyToFlush("ok");
  }

  /** The consumer loop of both paste flows: skip empty chunks, append the rest, and paste
      and empty the buffer whenever it is ready. */
  method Coalesce(chunks: seq<string>) returns (segments: seq<string>, buffer: string, receivedAny: bool)
    ensures Coalescing(segments, buffer, receivedAny) == Coalesced(chunks)
    ensures Concat(segments) + buffer == Concat(chunks)
    ensures receivedAny <==> exists k :: 0 <= k < |chunks| && chunks[k] != ""
  {
    segments := [];
    buffer := "";
    receivedAny := false;
    var i := 0;
    while i < |chunks|
      invariant 0 <= i <= |chunks|
      invariant Coalescing(segments, buffer, receivedAny) == Coalesced(chunks[..i])
    {
      assert chunks[..i + 1][..i] == chunks[..i];
      var chunk := chunks[i];
      if chunk != "" {
        receivedAny := true;
        buffer := buffer + chunk;
        if |buffer| >= FlushThreshold || '\n' in buffer {
          segments := segments + [buffer];
          buffer := "";
        }
      }
      i := i + 1;
    }
    assert chunks[..i] == chunks;
    CoalescedConserves(chunks);
    CoalescedShape(chunks);
  }

  // =======================================================================================
  // Effects

  /** What the flow does to the outside world: send a request, put text on the clipboard
      and press ⌘V (`Paste`), put text on the clipboard without pasting (`SetClipboard`),
      or press ⌘C (`CopySelection`). */
  datatype Effect =
    | Send(request: Request)
    | Paste(text: string)
    | SetClipboard(text: string)
    | CopySelection

  function Pastes(texts: seq<string>): (r: seq<Effect>)
    ensures |r| == |texts| && forall k :: 0 <= k < |texts| ==> r[k] == Paste(texts[k])
  {
    if texts == [] then [] else [Paste(texts[0])] + Pastes(texts[1..])
  }

  /** The clipboard's content after the effects, as far as the app wrote it. */
  function FinalClipboard(effects: seq<Effect>): Option<string>
    decreases |effects|
  {
    if effects == [] then None
    else
      var e := effects[|effects| - 1];
      if e.Paste? || e.SetClipboard? then Some(e.text) else FinalClipboard(effects[..|effects| - 1])
  }

  /** The texts pasted, in order. */
  function PastedTexts(effects: seq<Effect>): seq<string>
    decreases |effects|
  {
    if effects == [] then []
    else
      var e := effects[|effects| - 1];
      PastedTexts(effects[..|effects| - 1]) + (if e.Paste? then [e.text] else [])
  }

  lemma {:induction false} PastedTextsAppend(a: seq<Effect>, b: seq<Effect>)
    ensures PastedTexts(a + b) == PastedTexts(a) + PastedTexts(b)
    decreases |b|
  {
    if b == [] {
      assert a + b == a;
    } else {
      assert (a + b)[..|a + b| - 1] == a + b[..|b| - 1];
      PastedTextsAppend(a, b[..|b| - 1]);
    }
  }

  lemma {:induction false} PastedTextsOfPastes(texts: seq<string>)
    ensures PastedTexts(Pastes(texts)) == texts
    decreases |texts|
  {
    if texts != [] {
      assert Pastes(texts) == [Paste(texts[0])] + Pastes(texts[1..]);
      PastedTextsAppend([Paste(texts[0])], Pastes(texts[1..]));
      PastedTextsOfPastes(texts[1..]);
      assert [Paste(texts[0])][..0] == [];
    }
  }

  /** A request, some pastes, then a clipboard write: the pastes are what was pasted, and
      the write is what the clipboard ends with. */
  lemma PasteLog(head: Effect, texts: seq<string>, last: Effect)
    requires head.Send? && (last.SetClipboard? || last.Paste?)
    ensures FinalClipboard([head] + Pastes(texts) + [last]) == Some(last.text)
    ensures last.SetClipboard? ==> PastedTexts([head] + Pastes(texts) + [last]) == texts
  {
    var body := [head] + Pastes(texts);
    var log := body + [last];
    assert log[|log| - 1] == last;
    assert log[..|log| - 1] == body;
    if last.SetClipboard? {
      assert PastedTexts(log) == PastedTexts(body);
      PastedTextsAppend([head], Pastes(texts));
      assert [head][..0] == [];
      assert PastedTexts([head]) == [];
      PastedTextsOfPastes(texts);
    }
  }

  // =======================================================================================
  // The flow

  /** The log of the flow against `client`: the streaming request first and the original
      text on the clipboard at the end. A failed stream pastes what was coalesced so far and
      then the original text; a stream that delivered text pastes all of it and restores
      the clipboard; a stream that finished without text falls back to the one-shot request,
      pasting its reply and restoring the clipboard, or pasting the original text when that
      request fails too. */
  predicate StreamPasteLog(effects: seq<Effect>, client: Client, env: Environment, original: string, model: string,
                           systemPrompt: string, streamReply: StreamReply, decode: ChunkDecoder,
                           fallbackReply: Reply<ChatCompletionResponse>)
  {
    && FinalClipboard(effects) == Some(original)
    && effects != [] && effects[0] == Send(TweakStreamRequest(client, env, original, model, systemPrompt))
    && var s := ExpectedStream(streamReply, decode);
      && (s.outcome.Failed? ==>
            && effects == [effects[0]] + Pastes(Coalesced(s.deltas).segments) + [Paste(original)]
            && effects[|effects| - 1] == Paste(original))
      && (s.outcome.Finished? && Coalesced(s.deltas).receivedAny ==>
            && effects == [effects[0]] + Pastes(FinalSegments(s.deltas)) + [SetClipboard(original)]
            && Concat(PastedTexts(effects)) == Concat(s.deltas))
      && (s.outcome.Finished? && !Coalesced(s.deltas).receivedAny && TweakReply(fallbackReply).Success? ==>
            effects == [effects[0], Send(TweakRequest(client, env, original, model, systemPrompt)),
                        Paste(TweakReply(fallbackReply).value), SetClipboard(original)])
      && (s.outcome.Finished? && !Coalesced(s.deltas).receivedAny && TweakReply(fallbackReply).Failure? ==>
            effects == [effects[0], Send(TweakRequest(client, env, original, model, systemPrompt)), Paste(original)])
  }

  /** Everything `performPasteFlow` does once `Osaurus.make()` has produced a client: the
      streaming request, the coalesced pastes, the one-shot fallback when nothing streamed,
      and the final restore; an error from either request pastes the original text. The
      replies are inputs: `streamReply` to the streaming request and `fallbackReply` to
      the one-shot one. */
  method StreamPaste(client: Client, env: Environment, original: string, model: string, systemPrompt: string,
                     streamReply: StreamReply, decode: ChunkDecoder, fallbackReply: Reply<ChatCompletionResponse>)
    returns (effects: seq<Effect>)
    ensures StreamPasteLog(effects, client, env, original, model, systemPrompt, streamReply, decode, fallbackReply)
  {
    var start := Send(TweakStreamRequest(client, env, original, model, systemPrompt));
    var stream := ConsumeStream(streamReply, decode);
    var segments, buffer, receivedAny := Coalesce(stream.deltas);
    if stream.outcome.Failed? {
      effects := [start] + Pastes(segments) + [Paste(original)];
      PasteLog(start, segments, Paste(original));
      return;
    }
    if !receivedAny {
      var fallback := Send(TweakRequest(client, env, original, model, systemPrompt));
      var tweaked := TweakReply(fallbackReply);
      if tweaked.Failure? {
        effects := [start, fallback, Paste(original)];
      } else {
        effects := [start, fallback, Paste(tweaked.value), SetClipboard(original)];
      }
      return;
    }
    // the remaining buffer, when not empty, is the last piece
    var pieces := if buffer != "" then segments + [buffer] else segments;
    assert pieces == FinalSegments(stream.deltas);
    effects := [start] + Pastes(pieces) + [SetClipboard(original)];
    PasteLog(start, pieces, SetClipboard(original));
    FinalSegmentsShape(stream.deltas);
  }

  /** A later clipboard write decides the clipboard. */
  lemma {:induction false} FinalClipboardAppend(a: seq<Effect>, b: seq<Effect>)
    requires FinalClipboard(b).Some?
    ensures FinalClipboard(a + b) == FinalClipboard(b)
    decreases |b|
  {
    var e := b[|b| - 1];
    assert (a + b)[..|a + b| - 1] == a + b[..|b| - 1];
    if !(e.Paste? || e.SetClipboard?) {
      FinalClipboardAppend(a, b[..|b| - 1]);
    }
  }

  /** `performPasteFlow`: the loading indicator is up for the whole flow; `Osaurus.make()`
      failing pastes the original text, otherwise the flow streams against the client it
      found. `listing` is the shared instance directory at that moment. */
  method PerformPasteFlow(feedback: HotkeyFeedbackManager, env: Environment, parsers: Parsers,
                          listing: Option<seq<InstanceDir>>, original: string, model: string, systemPrompt: string,
                          streamReply: StreamReply, decode: ChunkDecoder, fallbackReply: Reply<ChatCompletionResponse>)
    returns (effects: seq<Effect>)
    requires feedback.Valid()
    modifies feedback
    ensures feedback.Valid()
    ensures feedback.activeLoadingCount == old(feedback.activeLoadingCount) && feedback.isLoading == old(feedback.isLoading)
    ensures feedback.showingFeedback && (feedback.hideScheduled <==> old(feedback.activeLoadingCount) == 0)
    ensures feedback.hotkeyPressCount == old(feedback.hotkeyPressCount)
    ensures effects != [] && FinalClipboard(effects) == Some(original)
    ensures !Connectable(env, parsers, listing) ==> effects == [Paste(original)]
    ensures Connectable(env, parsers, listing) ==>
      && (exists c :: effects[0] == Send(TweakStreamRequest(c, env, original, model, systemPrompt)))
      && (exists c :: StreamPasteLog(effects, c, env, original, model, systemPrompt, streamReply, decode, fallbackReply))
      && (ExpectedStream(streamReply, decode).outcome.Finished? &&
          Coalesced(ExpectedStream(streamReply, decode).deltas).receivedAny ==>
            Concat(PastedTexts(effects)) == Concat(ExpectedStream(streamReply, decode).deltas))
      && (ExpectedStream(streamReply, decode).outcome.Failed? ==> effects[|effects| - 1] == Paste(original))
  {
    feedback.BeginLoading();
    var made := Make(env, parsers, listing);
    if made.Failure? {
      effects := [Paste(original)];
    } else {
      effects := StreamPaste(made.value, env, original, model, systemPrompt, streamReply, decode, fallbackReply);
      assert effects[0] == Send(TweakStreamRequest(made.value, env, original, model, systemPrompt));
      assert StreamPasteLog(effects, made.value, env, original, model, systemPrompt, streamReply, decode, fallbackReply);
    }
    feedback.EndLoading();
  }

  /** `activePrompt?.content ?? Osaurus.Defaults.systemPrompt`. */
  function PromptFor(active: Option<SystemPrompt>): string {
    if active.Some? then active.value.content else DefaultSystemPrompt
  }

  /** `pasteTweakedText()`: nothing without accessibility trust, a running server or text on
      the clipboard; otherwise the clipboard text is tweaked with the selected model and the
      active prompt. The guard has already found a server, so the flow always reaches the
      streaming request, and the clipboard ends with the text it started with. */
  method PasteTweakedText(feedback: HotkeyFeedbackManager, settings: SettingsManager, trusted: bool,
                          env: Environment, parsers: Parsers, listing: Option<seq<InstanceDir>>,
                          clipboard: Option<string>,
                          streamReply: StreamReply, decode: ChunkDecoder, fallbackReply: Reply<ChatCompletionResponse>)
    returns (effects: seq<Effect>)
    requires feedback.Valid()
    modifies feedback
    ensures feedback.Valid()
    ensures feedback.activeLoadingCount == old(feedback.activeLoadingCount)
    ensures effects == [] <==>
      !trusted || !(listing.Some? && Candidates(listing.value, parsers) != []) || clipboard.None?
    ensures effects == [] ==>
      feedback.hotkeyPressCount == old(feedback.hotkeyPressCount) && feedback.showingFeedback == old(feedback.showingFeedback)
      && feedback.isLoading == old(feedback.isLoading) && feedback.hideScheduled == old(feedback.hideScheduled)
    ensures effects != [] ==>
      feedback.showingFeedback && (feedback.hideScheduled <==> old(feedback.activeLoadingCount) == 0)
      && feedback.hotkeyPressCount == old(feedback.hotkeyPressCount) && feedback.isLoading == old(feedback.isLoading)
    ensures effects != [] ==>
      && FinalClipboard(effects) == clipboard
      && (exists c :: effects[0] == Send(TweakStreamRequest(c, env, clipboard.value, settings.selectedModelId,
                                                          PromptFor(settings.ActivePrompt()))))
      && (exists c :: StreamPasteLog(effects, c, env, clipboard.value, settings.selectedModelId,
                                     PromptFor(settings.ActivePrompt()), streamReply, decode, fallbackReply))
      && (ExpectedStream(streamReply, decode).outcome.Finished? &&
          Coalesced(ExpectedStream(streamReply, decode).deltas).receivedAny ==>
            Concat(PastedTexts(effects)) == Concat(ExpectedStream(streamReply, decode).deltas))
      && (ExpectedStream(streamReply, decode).outcome.Failed? ==> effects[|effects| - 1] == Paste(clipboard.value))
  {
    if !trusted {
      return [];
    }
    var running := IsRunning(listing, parsers);
    if !running || clipboard.None? {
      return [];
    }
    var model := settings.selectedModelId;
    var prompt := PromptFor(settings.ActivePrompt());
    assert Connectable(env, parsers, listing);
    effects := PerformPasteFlow(feedback, env, parsers, listing, clipboard.value, model, prompt,
      streamReply, decode, fallbackReply);
    assert model == settings.selectedModelId && prompt == PromptFor(settings.ActivePrompt());
  }

  /** The text the quick-slot flow works on: the freshly copied selection when it is not
      empty, else the clipboard's earlier text when that is not empty. */
  function SourceText(copied: Option<string>, previous: Option<string>): (r: Option<string>)
    ensures r.Some? ==> r.value != "" && (r == copied || r == previous)
    ensures copied.Some? && copied.value != "" ==> r == copied
    ensures r.None? <==> (copied.None? || copied.value == "") && (previous.None? || previous.value == "")
  {
    if copied.Some? && copied.value != "" then copied
    else if previous.Some? && previous.value != "" then previous
    else None
  }

  /** `pasteTweakedText(usingSystemPrompt:)`: after the same trust and server checks, press
      ⌘C to copy the selection and tweak it with the given prompt; when nothing new was
      copied, tweak the clipboard's earlier text instead, and stop when there is none.
      `previousClipboard` is the clipboard before ⌘C and `copiedClipboard` after it. */
  method PasteTweakedTextUsing(feedback: HotkeyFeedbackManager, settings: SettingsManager, systemPrompt: string,
                               trusted: bool, env: Environment, parsers: Parsers, listing: Option<seq<InstanceDir>>,
                               previousClipboard: Option<string>, copiedClipboard: Option<string>,
                               streamReply: StreamReply, decode: ChunkDecoder, fallbackReply: Reply<ChatCompletionResponse>)
    returns (effects: seq<Effect>)
    requires feedback.Valid()
    modifies feedback
    ensures feedback.Valid()
    ensures feedback.activeLoadingCount == old(feedback.activeLoadingCount)
    ensures effects == [] <==> !trusted || !(listing.Some? && Candidates(listing.value, parsers) != [])
    ensures |effects| <= 1 ==>
      feedback.hotkeyPressCount == old(feedback.hotkeyPressCount) && feedback.showingFeedback == old(feedback.showingFeedback)
      && feedback.isLoading == old(feedback.isLoading) && feedback.hideScheduled == old(feedback.hideScheduled)
    ensures |effects| > 1 ==>
      feedback.showingFeedback && (feedback.hideScheduled <==> old(feedback.activeLoadingCount) == 0)
      && feedback.hotkeyPressCount == old(feedback.hotkeyPressCount) && feedback.isLoading == old(feedback.isLoading)
    ensures effects != [] ==> effects[0] == CopySelection
    ensures effects != [] && SourceText(copiedClipboard, previousClipboard).None? ==> effects == [CopySelection]
    ensures effects != [] && SourceText(copiedClipboard, previousClipboard).Some? ==>
      var text := SourceText(copiedClipboard, previousClipboard).value;
      && |effects| > 1 && FinalClipboard(effects) == Some(text)
      && (exists c :: effects[1] == Send(TweakStreamRequest(c, env, text, settings.selectedModelId, systemPrompt)))
      && (exists c :: StreamPasteLog(effects[1..], c, env, text, settings.selectedModelId, systemPrompt,
                                     streamReply, decode, fallbackReply))
  {
    if !trusted {
      return [];
    }
    var running := IsRunning(listing, parsers);
    if !running {
      return [];
    }
    var source := SourceText(copiedClipboard, previousClipboard);
    if source.None? {
      return [CopySelection];
    }
    var model := settings.selectedModelId;
    assert Connectable(env, parsers, listing);
    var flow := PerformPasteFlow(feedback, env, parsers, listing, source.value, model,
      systemPrompt, streamReply, decode, fallbackReply);
    effects := [CopySelection] + flow;
    assert effects[1..] == flow;
    FinalClipboardAppend([CopySelection], flow);
  }
}
