/** One run of slide generation (backend/src/services/slides/generator.ts:30-109).

    The run assembles the source content, asks the language model for a title
    and for a JSON array of slide outlines, and pushes `ready`, `title`, one
    `slide` per outline and `done` to the job's socket; any failure replaces the
    rest of that sequence by a single `error` event, and the job's bookkeeping is
    removed on every path.

    `Pipeline` and `RunEvents` say, as functions of the inputs, what a run emits;
    `GenerateSlides` is the step-by-step procedure and is proved to emit exactly
    that. The external calls are the fields of `Oracles`. */
module Generator {
  import opened Protocol
  import opened Text
  import Channels
  import Service

  /** A chat history entry as the history store returns it. */
  datatype Message = Message(role: string, content: string)

  /** One element of the parsed outline array: its `title` and its optional
      `points`. */
  datatype SlideData = SlideData(title: string, points: Option<seq<string>>)

  /** The calls a run makes outside this module. Each is a total function of its
      argument; `Throws` models the call throwing.
      - `modelError`: `createChatModel()` throwing before anything else happens;
      - `history`: the chat history store, `getMsgs(chatId)`;
      - `invoke`: the language model, `String((await model.invoke(prompt)).content)`;
      - `parse`: `JSON.parse` applied to the extracted array text;
      - `imageEnabled`: whether `REPLICATE_API_TOKEN` is set;
      - `image`: the image service, `generateImage(prompt)`. */
  datatype Oracles = Oracles(
    modelError: Option<string>,
    history: string -> Attempt<seq<Message>>,
    invoke: string -> Attempt<string>,
    parse: string -> Attempt<seq<SlideData>>,
    imageEnabled: bool,
    image: string -> Attempt<string>)

  /** What the `try` block did: the events it pushed, in order, and the text of
      the error it threw, if any. */
  datatype Outcome = Outcome(emitted: seq<Event>, thrown: Option<string>)

  const TitleBudget := 2000
  const StructureBudget := 5000
  const MessageSeparator := "\n\n"

  /** `String(new Error("Failed to generate slide structure"))`. */
  const StructureError := "Error: Failed to generate slide structure"

  const TitleInstruction := "Generate a concise title (max 10 words) for a presentation about:\n\n"

  const StructureInstruction :=
    "Create a presentation outline with 5-8 slides based on this content. \n"
    + "Return ONLY a JSON array with this exact format:\n"
    + "[\n"
    + "  {\"title\": \"Slide Title\", \"points\": [\"point 1\", \"point 2\", \"point 3\"]},\n"
    + "  ...\n"
    + "]\n"
    + "\n"
    + "Content:\n"

  const ImageStyle := ". Educational illustration, clean minimalist style, no text."

  // ----- Content assembly -----

  function RenderMessage(m: Message): string {
    m.role + ": " + m.content
  }

  function RenderAll(msgs: seq<Message>): (parts: seq<string>)
    ensures |parts| == |msgs|
    ensures forall i | 0 <= i < |msgs| :: parts[i] == RenderMessage(msgs[i])
  {
    seq(|msgs|, i requires 0 <= i < |msgs| => RenderMessage(msgs[i]))
  }

  /** A chat transcript: every message rendered as `role: content`, joined by a
      blank line. */
  function Transcript(msgs: seq<Message>): string {
    Join(RenderAll(msgs), MessageSeparator)
  }

  /** Message `k` of the history appears in the transcript as `role: content`,
      after all earlier messages, and is followed by a blank line unless it is
      the last one, which ends the transcript. */
  lemma TranscriptPlacesMessage(msgs: seq<Message>, k: nat)
    requires k < |msgs|
    ensures var t, o := Transcript(msgs), Offset(RenderAll(msgs), MessageSeparator, k);
      && o + |RenderMessage(msgs[k])| <= |t|
      && t[o..o + |RenderMessage(msgs[k])|] == msgs[k].role + ": " + msgs[k].content
      && (k + 1 < |msgs| ==>
            o + |RenderMessage(msgs[k])| + 2 <= |t| &&
            t[o + |RenderMessage(msgs[k])|..o + |RenderMessage(msgs[k])| + 2] == "\n\n")
      && (k + 1 == |msgs| ==> o + |RenderMessage(msgs[k])| == |t|)
  {
    JoinPlacesPart(RenderAll(msgs), MessageSeparator, k);
    if k + 1 < |msgs| {
      JoinPlacesSeparator(RenderAll(msgs), MessageSeparator, k);
    }
  }

  /** The content of a run: with a truthy `chatId`, its transcript (a failing
      history lookup fails the run); otherwise a truthy `topic` verbatim;
      otherwise the empty string. */
  function GatherContent(params: StartParams, history: string -> Attempt<seq<Message>>): Attempt<string> {
    if Truthy(params.chatId) then
      match history(params.chatId.value)
      case Returns(msgs) => Returns(Transcript(msgs))
      case Throws(e) => Throws(e)
    else if Truthy(params.topic) then
      Returns(params.topic.value)
    else
      Returns("")
  }

  /** Which request fields decide the content: `filePath` never does; a truthy
      `chatId` makes the topic irrelevant; only a history failure makes
      assembly fail; and a request with neither a chat nor a topic still
      yields content, the empty string. */
  lemma GatherContentSources(params: StartParams, history: string -> Attempt<seq<Message>>, path: Option<string>, topic: Option<string>)
    ensures GatherContent(params.(filePath := path), history) == GatherContent(params, history)
    ensures Truthy(params.chatId) ==> GatherContent(params.(topic := topic), history) == GatherContent(params, history)
    ensures GatherContent(params, history).Throws? <==> Truthy(params.chatId) && history(params.chatId.value).Throws?
    ensures !Truthy(params.chatId) && !Truthy(params.topic) ==> GatherContent(params, history) == Returns("")
    ensures !Truthy(params.chatId) && Truthy(params.topic) ==> GatherContent(params, history) == Returns(params.topic.value)
  {
  }

  function TitlePrompt(content: string): string {
    TitleInstruction + Slice(content, TitleBudget)
  }

  function StructurePrompt(content: string): string {
    StructureInstruction + Slice(content, StructureBudget)
  }

  /** Each prompt is its fixed instruction followed by at most the budgeted
      number of leading characters of the content, and by the whole content
      when it fits. */
  lemma PromptsTruncateContent(content: string)
    ensures StartsWith(TitlePrompt(content), TitleInstruction)
    ensures StartsWith(content, TitlePrompt(content)[|TitleInstruction|..])
    ensures |TitlePrompt(content)| - |TitleInstruction| == if |content| <= TitleBudget then |content| else TitleBudget
    ensures StartsWith(StructurePrompt(content), StructureInstruction)
    ensures StartsWith(content, StructurePrompt(content)[|StructureInstruction|..])
    ensures |StructurePrompt(content)| - |StructureInstruction| == if |content| <= StructureBudget then |content| else StructureBudget
  {
    var t, u := Slice(content, TitleBudget), Slice(content, StructureBudget);
    assert TitlePrompt(content)[..|TitleInstruction|] == TitleInstruction;
    assert TitlePrompt(content)[|TitleInstruction|..] == t;
    assert StructurePrompt(content)[..|StructureInstruction|] == StructureInstruction;
    assert StructurePrompt(content)[|StructureInstruction|..] == u;
  }

  // ----- Title cleanup -----

  predicate IsQuote(c: char) {
    c == '"' || c == '\''
  }

  /** `.replace(/^["']|["']$/g, "")`: one leading quote and one trailing quote
      are removed; a lone quote is removed once. The first character goes
      exactly when it is a quote, the last character of what remains goes
      exactly when it is a quote, and nothing else is removed. */
  function StripQuotes(s: string): (r: string)
    ensures |s| - 2 <= |r| <= |s|
    ensures var a := if s != [] && IsQuote(s[0]) then 1 else 0;
            var b := if |s| > a && IsQuote(s[|s| - 1]) then 1 else 0;
            r == s[a..|s| - b]
    ensures s == [] || (!IsQuote(s[0]) && !IsQuote(s[|s| - 1])) ==> r == s
  {
    var t := if s != [] && IsQuote(s[0]) then s[1..] else s;
    if t != [] && IsQuote(t[|t| - 1]) then t[..|t| - 1] else t
  }

  /** `String(titleResponse.content).trim().replace(/^["']|["']$/g, "")`. */
  function CleanTitle(response: string): string {
    StripQuotes(Trim(response))
  }

  lemma StripQuotesUnwraps(open: char, title: string, close: char)
    requires IsQuote(open) && IsQuote(close)
    requires title != [] ==> !IsQuote(title[0]) && !IsQuote(title[|title| - 1])
    ensures StripQuotes([open] + title + [close]) == title
  {
    var quoted := [open] + title + [close];
    assert quoted[0] == open;
    var t := quoted[1..];
    assert t == title + [close];
    assert t[..|t| - 1] == title;
  }

  /** A title the model wraps in whitespace and in one pair of quotes of either
      kind comes out exactly as the model meant it, as long as the title itself
      neither starts nor ends with whitespace or a quote. */
  lemma CleanTitleUnwraps(pre: string, open: char, title: string, close: char, post: string)
    requires AllWhitespace(pre) && AllWhitespace(post)
    requires IsQuote(open) && IsQuote(close)
    requires title != [] ==> !IsQuote(title[0]) && !IsQuote(title[|title| - 1])
    ensures CleanTitle(pre + ([open] + title + [close]) + post) == title
  {
    var quoted := [open] + title + [close];
    assert quoted[0] == open && quoted[|quoted| - 1] == close;
    TrimOfPadded(pre, quoted, post);
    StripQuotesUnwraps(open, title, close);
  }

  /** A bare title whose ends are neither whitespace nor quotes is left alone. */
  lemma CleanTitleKeepsBare(title: string)
    requires title != [] ==> !IsJsWhitespace(title[0]) && !IsJsWhitespace(title[|title| - 1])
    requires title != [] ==> !IsQuote(title[0]) && !IsQuote(title[|title| - 1])
    ensures CleanTitle(title) == title
  {
    assert [] + title + [] == title;
    TrimOfPadded([], title, []);
  }

  /** Only one layer of quotes is removed from each end. */
  lemma StripQuotesRemovesOneLayer(q1: char, q2: char, x: string, q3: char, q4: char)
    requires IsQuote(q1) && IsQuote(q2) && IsQuote(q3) && IsQuote(q4)
    ensures StripQuotes([q1, q2] + x + [q3, q4]) == [q2] + x + [q3]
  {
    var s := [q1, q2] + x + [q3, q4];
    assert s[0] == q1 && s[|s| - 1] == q4;
    assert s[1..|s| - 1] == [q2] + x + [q3];
  }

  /** A quote at one end only is removed from that end, and the other end is
      kept. */
  lemma StripQuotesOneSided(q: char, x: string)
    requires IsQuote(q)
    requires x != [] && !IsQuote(x[0]) && !IsQuote(x[|x| - 1])
    ensures StripQuotes([q] + x) == x
    ensures StripQuotes(x + [q]) == x
  {
    assert ([q] + x)[1..] == x;
    assert (x + [q])[..|x|] == x;
  }

  /** A response that is a single quote character yields the empty title. */
  lemma StripQuotesOfLoneQuote(q: char)
    requires IsQuote(q)
    ensures StripQuotes([q]) == []
  {
  }

  // ----- Array extraction -----

  /** The first position of `c` in `s`. */
  function IndexOf(s: string, c: char): (r: Option<nat>)
    ensures r.Some? ==> r.value < |s| && s[r.value] == c
    ensures r.Some? ==> forall k | 0 <= k < r.value :: s[k] != c
    ensures r.None? ==> forall k | 0 <= k < |s| :: s[k] != c
  {
    if s == [] then None
    else if s[0] == c then Some(0)
    else
      match IndexOf(s[1..], c)
      case None => None
      case Some(k) => Some(k + 1)
  }

  /** The last position of `c` in `s`. */
  function LastIndexOf(s: string, c: char): (r: Option<nat>)
    ensures r.Some? ==> r.value < |s| && s[r.value] == c
    ensures r.Some? ==> forall k | r.value < k < |s| :: s[k] != c
    ensures r.None? ==> forall k | 0 <= k < |s| :: s[k] != c
  {
    if s == [] then None
    else if s[|s| - 1] == c then Some(|s| - 1)
    else LastIndexOf(s[..|s| - 1], c)
  }

  /** `text.match(/\[[\s\S]*\]/)`: the greedy span from the first `[` to the last
      `]`, with no bracket balancing. There is a match exactly when some `[`
      occurs before some `]`. */
  function ExtractArraySpan(text: string): (r: Option<string>)
    ensures r.Some? <==> exists i, j | 0 <= i < j < |text| :: text[i] == '[' && text[j] == ']'
    ensures r.Some? ==>
              exists i, j | 0 <= i < j < |text| ::
                && text[i] == '[' && text[j] == ']'
                && (forall k | 0 <= k < i :: text[k] != '[')
                && (forall k | j < k < |text| :: text[k] != ']')
                && r.value == text[i..j + 1]
  {
    match (IndexOf(text, '['), LastIndexOf(text, ']'))
    case (Some(i), Some(j)) => if i < j then Some(text[i..j + 1]) else None
    case _ => None
  }

  /** An array the model embeds in prose is recovered exactly, provided the
      prose before it holds no `[` and the prose after it holds no `]`; the
      text between the outer brackets is taken as it is, balanced or not. */
  lemma ExtractArraySpanRecovers(before: string, inner: string, after: string)
    requires forall k | 0 <= k < |before| :: before[k] != '['
    requires forall k | 0 <= k < |after| :: after[k] != ']'
    ensures ExtractArraySpan(before + "[" + inner + "]" + after) == Some("[" + inner + "]")
  {
    var text := before + "[" + inner + "]" + after;
    var i, j := |before|, |before| + 1 + |inner|;
    assert text[i] == '[' && text[j] == ']';
    assert forall k | 0 <= k < i :: text[k] == before[k];
    assert forall k | j < k < |text| :: text[k] == after[k - j - 1];
    assert IndexOf(text, '[') == Some(i);
    assert LastIndexOf(text, ']') == Some(j);
    assert text[i..j + 1] == "[" + inner + "]";
  }

  /** With a `]` only before the first `[`, nothing is extracted, and an
      outline reply of that shape fails the outline with `StructureError`. */
  lemma ExtractArraySpanNeedsOrder(before: string, after: string, content: string, o: Oracles)
    requires forall k | 0 <= k < |before| :: before[k] != '['
    requires forall k | 0 <= k < |after| :: after[k] != ']'
    requires o.invoke(StructurePrompt(content)) == Returns(before + "][" + after)
    ensures ExtractArraySpan(before + "][" + after) == None
    ensures Outline(content, o) == Throws(StructureError)
  {
    var text := before + "][" + after;
    var i := |before|;
    assert text[i] == ']' && text[i + 1] == '[';
    assert forall k | 0 <= k < i :: text[k] == before[k];
    assert forall k | i + 1 < k < |text| :: text[k] == after[k - i - 2];
  }

  // ----- Slide assembly -----

  /** The id `slide-${i}` of the slide built from outline element `i`. */
  function SlideId(i: nat): string {
    "slide-" + NatToString(i)
  }

  /** Distinct outline positions give distinct slide ids. */
  lemma SlideIdInjective(i: nat, j: nat)
    requires SlideId(i) == SlideId(j)
    ensures i == j
  {
    assert NatToString(i) == SlideId(i)[6..];
    assert NatToString(j) == SlideId(j)[6..];
    NatToStringInjective(i, j);
  }

  /** `slideData.points || []`. */
  function BulletsOf(d: SlideData): seq<string> {
    match d.points
    case Some(ps) => ps
    case None => []
  }

  function ImagePrompt(title: string): string {
    title + ImageStyle
  }

  /** The image URL of slide `i`: only slide 0 asks for one, and only when the
      image service is configured; a failing image call leaves it absent. */
  function ImageFor(i: nat, d: SlideData, o: Oracles): (url: Option<string>)
    ensures url.Some? ==> i == 0 && o.imageEnabled && o.image(ImagePrompt(d.title)) == Returns(url.value)
    ensures i == 0 && o.imageEnabled && o.image(ImagePrompt(d.title)).Returns? ==> url.Some?
  {
    if i == 0 && o.imageEnabled then
      match o.image(ImagePrompt(d.title))
      case Returns(u) => Some(u)
      case Throws(_) => None
    else
      None
  }

  function BuildSlide(i: nat, d: SlideData, imageUrl: Option<string>): Slide {
    Slide(SlideId(i), d.title, BulletsOf(d), imageUrl)
  }

  /** The `slide` events for the first `n` outline elements, in outline order. */
  function SlideEvents(data: seq<SlideData>, o: Oracles, n: nat): (evs: seq<Event>)
    requires n <= |data|
    ensures |evs| == n
    ensures forall k | 0 <= k < n ::
              evs[k] == SlideEvent(Slide(SlideId(k), data[k].title, BulletsOf(data[k]), ImageFor(k, data[k], o)))
  {
    if n == 0 then []
    else SlideEvents(data, o, n - 1) + [SlideEvent(BuildSlide(n - 1, data[n - 1], ImageFor(n - 1, data[n - 1], o)))]
  }

  // ----- The run -----

  /** What the `try` block of `generateSlides` emits and throws, stage by stage. */
  function Pipeline(slidesId: string, params: StartParams, o: Oracles): Outcome {
    if o.modelError.Some? then Outcome([], o.modelError)
    else
      match GatherContent(params, o.history)
      case Throws(e) => Outcome([], Some(e))
      case Returns(content) => FromContent(slidesId, content, o)
  }

  /** The outline request: the structure prompt, the array extraction from the
      reply and its parse. A reply without a `[` before a `]` fails with
      `StructureError`. */
  function Outline(content: string, o: Oracles): Attempt<seq<SlideData>> {
    match o.invoke(StructurePrompt(content))
    case Throws(e) => Throws(e)
    case Returns(structureText) =>
      match ExtractArraySpan(structureText)
      case None => Throws(StructureError)
      case Some(span) => o.parse(span)
  }

  /** The stages of the `try` block that follow content assembly: `ready`,
      the title, then the slide deck. */
  function FromContent(slidesId: string, content: string, o: Oracles): Outcome {
    match o.invoke(TitlePrompt(content))
    case Throws(e) => Outcome([Ready(slidesId)], Some(e))
    case Returns(titleText) =>
      var rest := TitledDeck(titleText, content, o);
      Outcome([Ready(slidesId)] + rest.emitted, rest.thrown)
  }

  /** The `title` event for the model's reply `titleText`, then the slide deck. */
  function TitledDeck(titleText: string, content: string, o: Oracles): Outcome {
    var deck := SlideDeck(content, o);
    Outcome([Title(CleanTitle(titleText))] + deck.emitted, deck.thrown)
  }

  /** The stages after the title: the outline request, one `slide` event per
      outline element, then `done`. */
  function SlideDeck(content: string, o: Oracles): Outcome {
    match Outline(content, o)
    case Throws(e) => Outcome([], Some(e))
    case Returns(data) => Outcome(SlideEvents(data, o, |data|) + [Done], None)
  }

  /** Every event a run emits: what the `try` block emitted, then one `error`
      event when it threw. */
  function RunEvents(slidesId: string, params: StartParams, o: Oracles): seq<Event> {
    var out := Pipeline(slidesId, params, o);
    out.emitted + (if out.thrown.Some? then [Error(out.thrown.value)] else [])
  }

  /** The slide loop of the `try` block: for each outline element in order, the
      image of slide 0 (when configured; a failing image call is swallowed), the
      assembled slide and its `slide` event. */
  method EmitSlides(registry: Channels.ClientRegistry, slidesId: string, data: seq<SlideData>, o: Oracles)
    modifies registry.Bound(slidesId)
    ensures registry.clients == old(registry.clients)
    ensures registry.Status(slidesId) == old(registry.Status(slidesId))
    ensures registry.Log(slidesId) ==
              old(registry.Log(slidesId)) + (if old(registry.Delivers(slidesId)) then SlideEvents(data, o, |data|) else [])
  {
    for i := 0 to |data|
      invariant registry.clients == old(registry.clients)
      invariant registry.Status(slidesId) == old(registry.Status(slidesId))
      invariant registry.Log(slidesId) ==
                  old(registry.Log(slidesId)) + (if old(registry.Delivers(slidesId)) then SlideEvents(data, o, i) else [])
    {
      var imageUrl: Option<string> := None;
      if i == 0 && o.imageEnabled {
        var image := o.image(ImagePrompt(data[i].title));
        if image.Returns? {
          imageUrl := Some(image.value);
        }
      }
      var slide := BuildSlide(i, data[i], imageUrl);
      registry.SendEvent(slidesId, SlideEvent(slide));
    }
  }

  /** The `try` block of `generateSlides`: the chat model is created and the
      content assembled, then the remaining stages run. Returns the text of the
      error thrown, if any. Only the socket bound to the job changes, and it
      receives exactly the events `Pipeline` emits when it is open. */
  method TryGenerate(registry: Channels.ClientRegistry, slidesId: string, params: StartParams, o: Oracles)
    returns (thrown: Option<string>)
    modifies registry.Bound(slidesId)
    ensures thrown == Pipeline(slidesId, params, o).thrown
    ensures registry.clients == old(registry.clients)
    ensures registry.Status(slidesId) == old(registry.Status(slidesId))
    ensures registry.Log(slidesId) ==
              old(registry.Log(slidesId)) + (if old(registry.Delivers(slidesId)) then Pipeline(slidesId, params, o).emitted else [])
  {
    if o.modelError.Some? {
      return o.modelError;
    }
    var content := "";
    if Truthy(params.chatId) {
      var messages := o.history(params.chatId.value);
      if messages.Throws? {
        return Some(messages.error);
      }
      content := Transcript(messages.value);
    } else if Truthy(params.topic) {
      content := params.topic.value;
    }
    assert GatherContent(params, o.history) == Returns(content);
    thrown := GenerateFromContent(registry, slidesId, content, o);
  }

  /** The stages after content assembly: `ready`, then the title request,
      then its `title` event and the slide deck. */
  method GenerateFromContent(registry: Channels.ClientRegistry, slidesId: string, content: string, o: Oracles)
    returns (thrown: Option<string>)
    modifies registry.Bound(slidesId)
    ensures thrown == FromContent(slidesId, content, o).thrown
    ensures registry.clients == old(registry.clients)
    ensures registry.Status(slidesId) == old(registry.Status(slidesId))
    ensures registry.Log(slidesId) ==
              old(registry.Log(slidesId)) + (if old(registry.Delivers(slidesId)) then FromContent(slidesId, content, o).emitted else [])
  {
    ghost var deliver := registry.Delivers(slidesId);
    ghost var log0 := registry.Log(slidesId);
    registry.SendEvent(slidesId, Ready(slidesId));
    var titleResponse := o.invoke(TitlePrompt(content));
    if titleResponse.Throws? {
      return Some(titleResponse.error);
    }
    ghost var log1 := registry.Log(slidesId);
    ghost var rest := TitledDeck(titleResponse.value, content, o);
    thrown := GenerateTitledDeck(registry, slidesId, titleResponse.value, content, o);
    assert registry.Log(slidesId) == log0 + (if deliver then [Ready(slidesId)] + rest.emitted else []) by {
      if deliver {
        assert log1 == log0 + [Ready(slidesId)];
        AppendAssoc(log0, [Ready(slidesId)], rest.emitted);
      }
    }
  }

  /** The `title` event for the model's reply `titleText`, then the slide deck. */
  method GenerateTitledDeck(registry: Channels.ClientRegistry, slidesId: string, titleText: string, content: string, o: Oracles)
    returns (thrown: Option<string>)
    modifies registry.Bound(slidesId)
    ensures thrown == TitledDeck(titleText, content, o).thrown
    ensures registry.clients == old(registry.clients)
    ensures registry.Status(slidesId) == old(registry.Status(slidesId))
    ensures registry.Log(slidesId) ==
              old(registry.Log(slidesId)) + (if old(registry.Delivers(slidesId)) then TitledDeck(titleText, content, o).emitted else [])
  {
    ghost var deliver := registry.Delivers(slidesId);
    ghost var log0 := registry.Log(slidesId);
    var title := CleanTitle(titleText);
    registry.SendEvent(slidesId, Title(title));
    ghost var log1 := registry.Log(slidesId);
    ghost var deck := SlideDeck(content, o);
    thrown := GenerateSlideDeck(registry, slidesId, content, o);
    assert registry.Log(slidesId) == log0 + (if deliver then [Title(title)] + deck.emitted else []) by {
      if deliver {
        assert log1 == log0 + [Title(title)];
        AppendAssoc(log0, [Title(title)], deck.emitted);
      }
    }
  }

  /** The outline request, the extraction of the array from the reply and its
      parse, then the slide loop and `done`. */
  method GenerateSlideDeck(registry: Channels.ClientRegistry, slidesId: string, content: string, o: Oracles)
    returns (thrown: Option<string>)
    modifies registry.Bound(slidesId)
    ensures thrown == SlideDeck(content, o).thrown
    ensures registry.clients == old(registry.clients)
    ensures registry.Status(slidesId) == old(registry.Status(slidesId))
    ensures registry.Log(slidesId) ==
              old(registry.Log(slidesId)) + (if old(registry.Delivers(slidesId)) then SlideDeck(content, o).emitted else [])
  {
    var structureResponse := o.invoke(StructurePrompt(content));
    if structureResponse.Throws? {
      return Some(structureResponse.error);
    }
    var jsonMatch := ExtractArraySpan(structureResponse.value);
    if jsonMatch.None? {
      return Some(StructureError);
    }
    var slidesData := o.parse(jsonMatch.value);
    if slidesData.Throws? {
      return Some(slidesData.error);
    }
    var data := slidesData.value;
    assert Outline(content, o) == Returns(data);
    ghost var deliver := registry.Delivers(slidesId);
    ghost var log0 := registry.Log(slidesId);
    ghost var slideEvents := SlideEvents(data, o, |data|);
    EmitSlides(registry, slidesId, data, o);
    ghost var log1 := registry.Log(slidesId);
    registry.SendEvent(slidesId, Done);
    assert registry.Log(slidesId) == log0 + (if deliver then slideEvents + [Done] else []) by {
      if deliver {
        assert log1 == log0 + slideEvents;
        AppendAssoc(log0, slideEvents, [Done]);
      }
    }
    return None;
  }

  /** The `try` block and its `catch`: the socket bound to the job receives
      `RunEvents` when it is open, and nothing otherwise. */
  method RunAndReport(registry: Channels.ClientRegistry, slidesId: string, params: StartParams, o: Oracles)
    modifies registry.Bound(slidesId)
    ensures registry.clients == old(registry.clients)
    ensures registry.Status(slidesId) == old(registry.Status(slidesId))
    ensures registry.Log(slidesId) ==
              old(registry.Log(slidesId)) + (if old(registry.Delivers(slidesId)) then RunEvents(slidesId, params, o) else [])
  {
    ghost var deliver := registry.Delivers(slidesId);
    ghost var log0 := registry.Log(slidesId);
    ghost var out := Pipeline(slidesId, params, o);
    var thrown := TryGenerate(registry, slidesId, params, o);
    if thrown.Some? {
      ghost var log1 := registry.Log(slidesId);
      registry.SendEvent(slidesId, Error(thrown.value));
      if deliver {
        assert log1 == log0 + out.emitted;
        AppendAssoc(log0, out.emitted, [Error(thrown.value)]);
      }
    }
  }

  /** `generateSlides(slidesId, params)`: the `try` block, then one `error` event if
      it threw, then — on every path — the job's metadata and its socket binding
      are removed. The socket bound at the start receives `RunEvents` when it is
      open and nothing otherwise; it stays in the state it was in. */
  method GenerateSlides(registry: Channels.ClientRegistry, service: Service.SlidesService,
                        slidesId: string, params: StartParams, o: Oracles)
    modifies registry, service, registry.Bound(slidesId)
    ensures registry.clients == old(registry.clients) - {slidesId}
    ensures service.activeStreams == old(service.activeStreams) - {slidesId}
    ensures slidesId in old(registry.clients) ==>
              var ws := old(registry.clients[slidesId]);
              && ws.readyState == old(ws.readyState)
              && ws.sent == old(ws.sent) + (if old(ws.readyState) == Channels.Open then RunEvents(slidesId, params, o) else [])
  {
    ghost var bound := slidesId in registry.clients;
    ghost var ws := if bound then registry.clients[slidesId] else null;
    RunAndReport(registry, slidesId, params, o);
    assert bound ==> ws.sent == registry.Log(slidesId) && ws.readyState == registry.Status(slidesId).value;
    service.Cleanup(slidesId);
    registry.UnregisterClient(slidesId);
  }
  /** `slidesService.start` together with the part of the run it executes
      before it answers. The run is called without being awaited, so it runs
      inside `start` up to its first `await`. When `createChatModel` throws,
      that is the whole run: its `catch` and `finally` execute before `start`
      answers, and the answer names a job whose record is already gone. No
      client can have subscribed to the fresh id yet, so nothing sent in this
      part reaches anyone. Otherwise the record stays for the rest of the run. */
  method StartGeneration(service: Service.SlidesService, registry: Channels.ClientRegistry,
                         params: StartParams, freshId: string, now: int, o: Oracles)
      returns (r: Service.StartResult)
    requires freshId !in service.activeStreams
    requires freshId !in registry.clients
    modifies service, registry
    ensures r == Service.StartResult(freshId, Service.StreamUrl(freshId))
    ensures registry.clients == old(registry.clients)
    ensures o.modelError.Some? ==> service.activeStreams == old(service.activeStreams)
    ensures o.modelError.None? ==>
              service.activeStreams == old(service.activeStreams)[freshId := Service.StreamInfo(params, now)]
  {
    r := service.Start(params, freshId, now);
    if o.modelError.Some? {
      GenerateSlides(registry, service, freshId, params, o);
      assert old(service.activeStreams)[freshId := Service.StreamInfo(params, now)] - {freshId}
          == old(service.activeStreams);
    }
  }

}
