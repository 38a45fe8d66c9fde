# PageLM slides generation, modelled in Dafny

PageLM turns a chat or a topic into a slide deck that the browser shows as the
slides arrive. The model covers these parts:

- **The backend job service** (`backend/src/services/slides/index.ts`). A start
  request records the job under a fresh id and answers with the id and the path
  of its WebSocket stream. The run itself is launched detached.
- **The run** (`backend/src/services/slides/generator.ts`). It does the
  following, in order:
  - assembles the content: a chat transcript, else the topic, else nothing;
  - sends `ready`;
  - asks the language model for a title, cleans it up and sends it as `title`;
  - asks for a JSON array of slide outlines and cuts the array out of the reply;
  - sends one `slide` per outline element (only the first slide gets an
    image, and only when the image service is configured);
  - sends `done`.

  Any failure is reported as a single `error` event. On every path the job's
  bookkeeping and its socket binding are removed. Events reach the client
  through a process-wide registry of sockets, and only when the bound socket is
  open.
- **The page** (`frontend/src/pages/Slides.tsx`). It covers these parts:
  - a reducer that folds those events into the page's state cells;
  - the two ways of starting a generation: from a chat id, or from a typed
    topic, which must not be blank;
  - the phase label;
  - the slide cursor and its keyboard bindings.

The model is organised in these modules:

| module | file | models |
|---|---|---|
| `Protocol` | `protocol.dfy` | the values that cross the wire: the start parameters, the slide record and the events |
| `Text` | `text.dfy` | the JavaScript string operations the code relies on: `trim`, `slice(0, n)`, `join` and the decimal rendering of an index |
| `Channels` | `channels.dfy` | the `clients` map and `sendEvent`. `Socket` and `ClientRegistry` are classes whose fields the methods update |
| `Service` | `service.dfy` | `slidesService`: the `activeStreams` map in the class `SlidesService` |
| `Generator` | `generator.dfy` | the run, at two levels. The spec functions `Pipeline` and `RunEvents` say what a run emits. The methods `TryGenerate`, `EmitSlides` and `GenerateSlides` do it step by step and are proved to emit exactly that, to the socket that is bound |
| `Stream` | `stream.dfy` | properties of every run's event stream, for every request and every behaviour of the external calls |
| `SlidesPage` | `slides_page.dfy` | the page. It has the pure reducer `Reduce` and the class `Page` with the state cells, and it links the page to the backend's stream |

The language model, the chat history store, `JSON.parse` and the image service
are fields of `Generator.Oracles`. They are total functions whose results
either return a value or throw with the text that `String(error)` gives. The
uuid, the clock and the server's `readyState` are inputs.

Three behaviours of the code are worth stating:

- The run is a single stage. It makes one title request and one outline
  request, and it never sends `phase` or `plan` events. The page's reducer
  still handles those two events, and `Reduce` models that handling.
- Nothing rejects an empty request. A start with neither a chat nor a topic
  runs on empty content and still sends `ready`
  (`Stream.EmptyRequestStillStarts`).
- The page has no case for `title`, so a `title` event changes nothing there.

Three consequences of the code are worth knowing:

- Starting a new generation does not move the slide cursor back. A cursor left
  past the end of the new, shorter deck stays there until `prevSlide` brings it
  back (`SlidesPage.CursorStaysInRange`, `SlidesPage.Page.GenerateSlides`).
- `ready` is sent before any request is made. For a topic or an empty request
  that happens before `start` answers, so no client ever sees it
  (`Stream.LateSubscriber`, `Channels.ClientRegistry.SendEvent`).
- The keyboard handler is registered on the window, so it is also active
  while the topic form is shown. It suppresses the default action of a space,
  so a space typed into the topic input never reaches it
  (`SlidesPage.Page.HandleKeyDown`, whose `prevented` result is true for `" "`).

## Model

| member | source | states |
|---|---|---|
| `Text.Trim` | backend/src/services/slides/generator.ts:49 | `s.trim()`: leading, then trailing ECMAScript whitespace removed; what it keeps is stated by `Text.TrimSpec` and `Text.TrimEmptyIffBlank` |
| `Text.TrimSpec` | backend/src/services/slides/generator.ts:49 | `trim` keeps the infix of the text between its leading and trailing whitespace (the full ECMAScript whitespace and line-terminator set), and the result neither starts nor ends with whitespace |
| `Text.TrimEmptyIffBlank` | frontend/src/pages/Slides.tsx:97 | a trimmed topic is empty exactly when the topic is all whitespace |
| `Text.TrimOfPadded` | backend/src/services/slides/generator.ts:49 | trimming recovers any text that has no whitespace at either end from that text padded with whitespace on both sides |
| `Text.Slice` | backend/src/services/slides/generator.ts:47 | `slice(0, n)` is the first `n` characters, or the whole text when it is shorter |
| `Text.Join` | backend/src/services/slides/generator.ts:38 | `parts.join(sep)`: the parts with one separator between neighbours; where each part and separator lands is stated by `Text.JoinPlacesPart` and `Text.JoinPlacesSeparator` |
| `Text.JoinPlacesPart` | backend/src/services/slides/generator.ts:38 | `join` keeps every part, in order, at its offset, and the last part ends the joined text |
| `Text.JoinPlacesSeparator` | backend/src/services/slides/generator.ts:38 | `join` puts exactly one separator between consecutive parts |
| `Text.NatToString` | backend/src/services/slides/generator.ts:89 | `${i}` for an index is a non-empty string of decimal digits with no leading zero, one digit exactly below ten |
| `Text.NatToStringValue` | backend/src/services/slides/generator.ts:89 | the digits of `${i}` denote the index `i`: reading the rendering back as a decimal number gives `i` |
| `Text.NatToStringInjective` | backend/src/services/slides/generator.ts:89 | distinct indices render as distinct strings |
| `Channels.Socket.constructor` | backend/src/services/slides/generator.ts:24-25 | a client socket in a given `readyState` that has received nothing yet |
| `Channels.Socket.Send` | backend/src/services/slides/generator.ts:26 | sending appends the event to what the socket has received and leaves its state alone |
| `Channels.ClientRegistry.constructor` | backend/src/services/slides/generator.ts:13 | the registry starts with no socket bound |
| `Channels.ClientRegistry.RegisterClient` | backend/src/services/slides/generator.ts:15-17 | binds the socket to the job and replaces any earlier binding; every other binding is unchanged |
| `Channels.ClientRegistry.UnregisterClient` | backend/src/services/slides/generator.ts:19-21 | removes the job's binding and nothing else; does nothing for an unbound id |
| `Channels.ClientRegistry.SendEvent` | backend/src/services/slides/generator.ts:23-28 | the bound socket receives the event exactly when it is open; otherwise the event is dropped; bindings and socket states are unchanged, and nothing is queued |
| `Service.StreamUrl` | backend/src/services/slides/index.ts:20 | the stream path is the fixed subscription path followed by the job id, which can be read back from it |
| `Service.StreamUrlInjective` | backend/src/services/slides/index.ts:20 | two jobs never share a stream path |
| `Service.SlidesService.constructor` | backend/src/services/slides/index.ts:15 | no job is recorded at first |
| `Service.SlidesService.Start` | backend/src/services/slides/index.ts:18-31 | records exactly the given parameters and creation time under the fresh id, with no validation, and answers with the id and its stream path, whatever the run later does |
| `Service.SlidesService.GetStreamInfo` | backend/src/services/slides/index.ts:34-36 | returns the record of a live job, and nothing for an id never started or already cleaned up |
| `Service.SlidesService.Cleanup` | backend/src/services/slides/index.ts:38-40 | forgets the job and nothing else; idempotent, and a no-op on an unknown id |
| `Generator.RenderMessage` | backend/src/services/slides/generator.ts:38 | one history message rendered as its role, `": "`, then its content |
| `Generator.RenderAll` | backend/src/services/slides/generator.ts:38 | each history message is rendered, in order, as `role: content` |
| `Generator.Transcript` | backend/src/services/slides/generator.ts:38 | the chat transcript: each message as `role: content`, joined by a blank line; placement is stated by `Generator.TranscriptPlacesMessage` |
| `Generator.TranscriptPlacesMessage` | backend/src/services/slides/generator.ts:38 | each message appears in the transcript as `role: content` at its offset, followed by a blank line unless it is the last one, which ends the transcript |
| `Generator.GatherContent` | backend/src/services/slides/generator.ts:35-41 | the content of a run: the transcript for a truthy `chatId` (a failing lookup fails), else a truthy `topic`, else the empty string; stated per case by `Generator.GatherContentSources` |
| `Generator.GatherContentSources` | backend/src/services/slides/generator.ts:35-41 | the content comes from the chat when `chatId` is truthy (and the topic is then irrelevant), else from a truthy topic, else it is empty; `filePath` never matters; only a history failure fails assembly |
| `Generator.TitlePrompt` | backend/src/services/slides/generator.ts:47 | the title instruction followed by the first 2000 characters of the content; stated by `Generator.PromptsTruncateContent` |
| `Generator.StructurePrompt` | backend/src/services/slides/generator.ts:53-60 | the outline instruction followed by the first 5000 characters of the content; stated by `Generator.PromptsTruncateContent` |
| `Generator.PromptsTruncateContent` | backend/src/services/slides/generator.ts:47-60 | each prompt is its fixed instruction followed by at most 2000 (title) or 5000 (outline) leading characters of the content, and by all of it when it fits |
| `Generator.StripQuotes` | backend/src/services/slides/generator.ts:49 | the first character is removed exactly when it is a quote, the last character of what remains is removed exactly when it is a quote, and nothing else is removed |
| `Generator.StripQuotesUnwraps` | backend/src/services/slides/generator.ts:49 | one pair of quotes of either kind around a title is removed |
| `Generator.StripQuotesOneSided` | backend/src/services/slides/generator.ts:49 | a quote at one end only is removed from that end, and the other end is kept |
| `Generator.CleanTitle` | backend/src/services/slides/generator.ts:49 | the title sent to the client: the reply trimmed, then unquoted; what it recovers is stated by `Generator.CleanTitleUnwraps` and `Generator.CleanTitleKeepsBare` |
| `Generator.CleanTitleUnwraps` | backend/src/services/slides/generator.ts:49 | a title that the model wraps in whitespace and one pair of quotes comes out exactly as meant |
| `Generator.CleanTitleKeepsBare` | backend/src/services/slides/generator.ts:49 | a bare title with no whitespace or quote at its ends is left alone |
| `Generator.StripQuotesRemovesOneLayer` | backend/src/services/slides/generator.ts:49 | only one layer of quotes is removed from each end |
| `Generator.StripQuotesOfLoneQuote` | backend/src/services/slides/generator.ts:49 | a lone quote character yields the empty title |
| `Generator.ExtractArraySpan` | backend/src/services/slides/generator.ts:66 | the regex matches exactly when some `[` occurs before some `]`, and the match is the span from the first `[` to the last `]` |
| `Generator.ExtractArraySpanRecovers` | backend/src/services/slides/generator.ts:66-69 | an array embedded in prose with no `[` before it and no `]` after it is recovered exactly, with no bracket balancing |
| `Generator.ExtractArraySpanNeedsOrder` | backend/src/services/slides/generator.ts:62-69 | with a `]` only before the first `[`, nothing matches, and an outline reply of that shape makes the outline stage throw the structure error |
| `Generator.SlideId` | backend/src/services/slides/generator.ts:89 | the id `slide-${i}` of slide `i`; distinct positions give distinct ids (`Generator.SlideIdInjective`) |
| `Generator.SlideIdInjective` | backend/src/services/slides/generator.ts:89 | distinct outline positions give distinct slide ids |
| `Generator.ImagePrompt` | backend/src/services/slides/generator.ts:81 | the slide title followed by the fixed illustration style text |
| `Generator.ImageFor` | backend/src/services/slides/generator.ts:77-86 | only slide 0 can have an image, only when the image service is configured, and it is exactly what the service returned; a configured service that succeeds always yields the image |
| `Generator.BulletsOf` | backend/src/services/slides/generator.ts:91 | `slideData.points || []`: the element's points, or no bullets when it has none |
| `Generator.BuildSlide` | backend/src/services/slides/generator.ts:88-93 | the slide record of element `i`: its id, the element's title, its bullets and the image URL |
| `Generator.SlideEvents` | backend/src/services/slides/generator.ts:74-95 | one `slide` event per outline element, in order, with id `slide-k`, the element's title, its points or no bullets, and the image of `ImageFor` |
| `Generator.Pipeline` | backend/src/services/slides/generator.ts:31-101 | what the `try` block emits and throws: model creation, content assembly, then `FromContent`; its stages are stated by `Stream.PipelineStages` and its outcomes by `Stream.SuccessfulRun` and `Stream.FailedRun` |
| `Generator.Outline` | backend/src/services/slides/generator.ts:53-71 | the outline request: the structure prompt, the array extraction, which fails with `StructureError` when there is no match, and the parse |
| `Generator.FromContent` | backend/src/services/slides/generator.ts:44-48 | `ready`, then the title request; its failure ends the stage with `ready` alone (`Stream.FromContentStages`) |
| `Generator.TitledDeck` | backend/src/services/slides/generator.ts:49-50 | the cleaned `title` event, then the slide deck (`Stream.TitledDeckStages`) |
| `Generator.SlideDeck` | backend/src/services/slides/generator.ts:62-101 | after a successful outline, one `slide` per element and `done`; after a failed one, nothing and the thrown text (`Stream.SlideDeckCases`) |
| `Generator.RunEvents` | backend/src/services/slides/generator.ts:30-104 | the whole stream of a run: what the `try` block emitted, then one `error` when it threw; its shape is stated by `Stream.RunIsWellFormed` |
| `Generator.EmitSlides` | backend/src/services/slides/generator.ts:74-99 | the slide loop sends exactly `SlideEvents` to the job's socket when it is open, and nothing otherwise |
| `Generator.TryGenerate` | backend/src/services/slides/generator.ts:31-44 | the `try` block throws exactly what `Pipeline` throws, and the open socket receives exactly `Pipeline`'s events |
| `Generator.GenerateFromContent` | backend/src/services/slides/generator.ts:44-48 | `ready`, then the title request; the socket receives `FromContent`'s events and the method throws what it throws |
| `Generator.GenerateTitledDeck` | backend/src/services/slides/generator.ts:49-50 | the cleaned `title` event, then the slide deck, as `TitledDeck` says |
| `Generator.GenerateSlideDeck` | backend/src/services/slides/generator.ts:62-101 | outline request, extraction, parse, slide loop and `done`, with early failure, as `SlideDeck` says |
| `Generator.RunAndReport` | backend/src/services/slides/generator.ts:102-104 | the `catch` adds one `error` with the thrown text, so the open socket receives exactly `RunEvents` |
| `Generator.GenerateSlides` | backend/src/services/slides/generator.ts:30-109 | the socket bound at the start receives exactly `RunEvents` when open and nothing otherwise, and keeps its state; on every path the job's record and binding are removed, and nothing else |
| `Generator.StartGeneration` | backend/src/services/slides/index.ts:18-31 | `start` with the part of the run that executes before it answers: the answer is the id and its stream address; when `createChatModel` throws the run is over and the record removed before `start` answers, otherwise the record is kept; no socket is bound or unbound |
| `Stream.SuccessfulRun` | backend/src/services/slides/generator.ts:44-101 | when every stage succeeds, the stream is `ready`, the cleaned title, one `slide` per outline element in order, then `done` |
| `Stream.FailedRun` | backend/src/services/slides/generator.ts:102-104 | a failing run ends in one `error` with the thrown text, after at most `ready` and `title`, and never sends a slide or `done` |
| `Stream.FailureEvents` | backend/src/services/slides/generator.ts:31-69 | what a failing run sends before the error depends on the stage that failed: nothing (model or content), `ready` (title request), or `ready` and `title` (outline) |
| `Stream.FailureOrSuccessThrown` | backend/src/services/slides/generator.ts:31-104 | the `try` block throws exactly when some stage fails |
| `Stream.RunEndsInDoneIffSucceeds` | backend/src/services/slides/generator.ts:101-104 | the stream is never empty, and it ends in `done` exactly when every stage succeeds |
| `Stream.SuccessStreamWellFormed` | backend/src/services/slides/generator.ts:44-101 | a successful stream has one terminal event, `ready` first, `title` second, and slides numbered from `slide-0` with an image only on the first |
| `Stream.FailureStreamWellFormed` | backend/src/services/slides/generator.ts:102-104 | a failing stream has one terminal event, and `ready` and `title` only in their places |
| `Stream.RunIsWellFormed` | backend/src/services/slides/generator.ts:30-109 | every run's stream has one terminal event, which comes last; `ready` only first, and always first when anything precedes the terminal event; `title` only second; slides numbered from `slide-0` in stream order; an image only on the first slide; no `phase` or `plan` |
| `Stream.EmptyRequestStillStarts` | backend/src/services/slides/generator.ts:35-48 | a request with neither chat nor topic is not rejected: `ready` is sent and the title prompt is the bare instruction |
| `Stream.EventsBeforeAnswer` | backend/src/services/slides/generator.ts:30-44 | the events sent before the run's first `await`, which happens inside `start`: the whole run when `createChatModel` throws, nothing for a chat, `ready` otherwise |
| `Stream.LateSubscriber` | backend/src/services/slides/index.ts:29 | the events sent before `start` answers are a prefix of the run's stream, and a client that subscribes afterwards can get only the rest; a failing model leaves no rest, and for a topic or empty request the rest has no `ready` |
| `Stream.SlideEventsIgnoreImages` | backend/src/services/slides/generator.ts:79-93 | slides built with two image services agree in everything but their images |
| `Stream.SuccessStreamsAgree` | backend/src/services/slides/generator.ts:79-95 | the streams of two successful runs that differ only in the image service agree event by event except for slide images |
| `Stream.FailureIgnoresImages` | backend/src/services/slides/generator.ts:79-86 | a failing run never reaches the image service, so its outcome does not depend on it |
| `Stream.SuccessIgnoresImages` | backend/src/services/slides/generator.ts:79-86 | a successful run stays successful under another image service, with the same number of events that agree except for images |
| `Stream.ImagesAffectOnlyImages` | backend/src/services/slides/generator.ts:79-86 | image failures are swallowed: another image service, or none, changes neither how a run ends nor how many events it sends, only slide images |
| `SlidesPage.GeneratingLabel` | frontend/src/pages/Slides.tsx:25 | the per-slide label: the fixed lead, the number, the fixed tail; stated by `SlidesPage.GeneratingLabelShowsNumber` |
| `SlidesPage.GetPhaseLabel` | frontend/src/pages/Slides.tsx:21-28 | `getPhaseLabel`; its three cases are stated by `SlidesPage.PhaseLabels` |
| `SlidesPage.PhaseLabels` | frontend/src/pages/Slides.tsx:21-28 | `planning` gets the analysing label; `generating_slide_` + n gets the per-slide label for n; any other phase is shown as it is |
| `SlidesPage.GeneratingLabelShowsNumber` | frontend/src/pages/Slides.tsx:25 | the per-slide label holds the number verbatim between the fixed lead and tail, so distinct numbers get distinct labels |
| `SlidesPage.ErrorText` | frontend/src/pages/Slides.tsx:75 | the error shown is the event's own text when that is not empty, and the default message otherwise |
| `SlidesPage.Reduce` | frontend/src/pages/Slides.tsx:50-80 | `handleEvent` as a function of the view before the event; per-event effects are stated by `SlidesPage.ReduceEffects` |
| `SlidesPage.ReduceEffects` | frontend/src/pages/Slides.tsx:50-80 | per event, the whole new view: `ready` only raises loading; `phase` only sets the phase; `plan` only sets the plan, to the event's title, subtitle, audience and slide estimate; `slide` only appends, keeping earlier slides; `done` only stops loading and clears the phase; `error` does the same and shows its text or the default; `title` changes nothing. No other event touches the slides, the plan, the error or the phase |
| `SlidesPage.ReduceAll` | frontend/src/pages/Slides.tsx:50-80 | the view after a sequence of events, oldest first; splitting is stated by `SlidesPage.ReduceAllAppend` |
| `SlidesPage.ReduceAllAppend` | frontend/src/pages/Slides.tsx:50-80 | folding a stream in two parts is folding it at once |
| `SlidesPage.SlidesAccumulate` | frontend/src/pages/Slides.tsx:67-68 | after any stream, the slides are the earlier slides followed by exactly the stream's slides, in order |
| `SlidesPage.SlidesOfSlideEvents` | frontend/src/pages/Slides.tsx:67-68 | a run of `slide` events contributes their slides one for one |
| `SlidesPage.ReduceSlideEvents` | frontend/src/pages/Slides.tsx:67-68 | `slide` events change nothing but the slides |
| `SlidesPage.SuccessDisplay` | frontend/src/pages/Slides.tsx:50-80 | after a reset, the stream `ready`, `title`, slides, `done` leaves exactly those slides, not loading, no phase, no error |
| `SlidesPage.SuccessfulRunDisplay` | frontend/src/pages/Slides.tsx:50-80 | a reset page that receives a successful run shows every slide the backend built, in order, and ends not loading, with no phase and no error |
| `SlidesPage.FailureDisplay` | frontend/src/pages/Slides.tsx:70-78 | after a reset, a failing stream leaves no slides, not loading, no phase, and shows the error text or the default |
| `SlidesPage.FailedRunDisplay` | frontend/src/pages/Slides.tsx:70-78 | a reset page that receives a failing run shows no slide, is not loading, and shows the backend's thrown text, or the default message when that is empty |
| `SlidesPage.CaughtText` | frontend/src/pages/Slides.tsx:91 | the message of a thrown `Error`, otherwise the default error text (the same expression recurs at line 106); stated by `SlidesPage.AfterStartEffects` |
| `SlidesPage.Reset` | frontend/src/pages/Slides.tsx:83-86 | the reset a start performs: loading, no error, no slides, no plan |
| `SlidesPage.AfterStart` | frontend/src/pages/Slides.tsx:82-94 | the reset, then either waiting on the stream or the caught error and loading off; stated by `SlidesPage.AfterStartEffects` |
| `SlidesPage.AfterStartEffects` | frontend/src/pages/Slides.tsx:82-109 | any start empties the slides and the plan; it keeps loading exactly when the request was accepted; a rejection shows the error's message, or the default for a non-`Error` value |
| `SlidesPage.NextIndex` | frontend/src/pages/Slides.tsx:115-119 | the cursor after `nextSlide`; its bounds are stated by `SlidesPage.CursorStaysInRange` |
| `SlidesPage.PrevIndex` | frontend/src/pages/Slides.tsx:121-125 | the cursor after `prevSlide`; its bounds are stated by `SlidesPage.CursorStaysInRange` |
| `SlidesPage.CursorStaysInRange` | frontend/src/pages/Slides.tsx:115-125 | next and previous keep a cursor that is inside the deck inside it and move it by at most one; a cursor past the end is not pulled back; next then previous returns to the start |
| `SlidesPage.ActionOf` | frontend/src/pages/Slides.tsx:130-138 | ArrowRight and space advance, ArrowLeft retreats, `n` and `N` toggle the notes, and these are the only bound keys |
| `SlidesPage.Page.constructor` | frontend/src/pages/Slides.tsx:35-42 | the state cells start empty, at slide 0, not loading and with notes hidden |
| `SlidesPage.Page.HandleEvent` | frontend/src/pages/Slides.tsx:50-80 | the cells change as `Reduce` says; the cursor, the topic and the notes toggle never change |
| `SlidesPage.Page.Start` | frontend/src/pages/Slides.tsx:83-93 | the reset, then subscription to the job, or the caught error, as `AfterStart` says |
| `SlidesPage.Page.GenerateSlides` | frontend/src/pages/Slides.tsx:82-94 | asks the backend for a deck from the chat id and updates the page as `AfterStart` says; the cursor is not reset |
| `SlidesPage.Page.SetTopic` | frontend/src/pages/Slides.tsx:156 | the topic cell takes the typed text and nothing else changes |
| `SlidesPage.Page.HandleGenerateFromTopic` | frontend/src/pages/Slides.tsx:96-109 | a blank topic changes nothing and sends nothing; otherwise the trimmed topic is sent and the page updates as `AfterStart` says |
| `SlidesPage.TopicRequestContent` | frontend/src/pages/Slides.tsx:103 | a non-blank topic request reaches the backend as content that is exactly the trimmed topic |
| `SlidesPage.Page.NextSlide` | frontend/src/pages/Slides.tsx:115-119 | the cursor advances only while a later slide exists; nothing else changes |
| `SlidesPage.Page.PrevSlide` | frontend/src/pages/Slides.tsx:121-125 | the cursor moves back only while it is past the first slide; nothing else changes |
| `SlidesPage.Page.HandleKeyDown` | frontend/src/pages/Slides.tsx:128-142 | the default action is suppressed exactly for the navigation keys; they move the cursor as next or previous do; `n`/`N` flip the notes; other keys change nothing |

## Left out

- The language model, the chat history store (`getMsgs`), `createChatModel`, `JSON.parse` and `generateImage` are oracles in `Generator.Oracles`. Their own behaviour is not modelled. `backend/src/agents/shared.ts` and the Replicate call in `backend/src/services/slides/image.ts` are not part of this model.
- Outline elements that are not objects, or whose `title` is not a string, are out of scope: the `parse` oracle returns well-typed elements. So is a parse result that is not an array: the extracted text always starts with `[` and ends with `]`.
- The thrown values are modelled by their `String(error)` text. The oracles produce that text directly, and the structure failure gives `Error: Failed to generate slide structure`.
- The 500 ms delay between slides is timing and is left out.
- `uuidv4()` becomes a fresh-id input to `Service.SlidesService.Start`, with the precondition that the id is not in use. `Date.now()` becomes a time input.
- `Service.SlidesService.Start`, `Generator.GenerateSlides`: the run is modelled as one sequential call with the job's socket bound, or not, from its start. In the code, `start` calls `generateSlides` without awaiting it. The run executes inside `start` up to its first `await`, and a client can only subscribe after `start` answers, so it receives only the rest of the stream. `Generator.StartGeneration` and `Stream.LateSubscriber` state what happens before the answer, not the point of subscription. `GenerateSlides` therefore states what a socket bound from the start would receive, which for a topic or empty request includes a `ready` that no real client gets. The interleaving of concurrent jobs and events that arrive while a start request is pending are left out. So are the `console.error` in the `catch`, the `console.log` of a failed image and the `.catch(console.error)` on the launch.
- `Channels.ClientRegistry.SendEvent`: the socket's `readyState` is taken as fixed for the length of a run. A socket that closes or opens mid-run is not modelled.
- `Text.Slice`, `Text.Trim`: strings are sequences of Unicode scalar values. `slice(0, n)` counts UTF-16 code units, so for text outside the Basic Multilingual Plane the cut point differs.
- The WebSocket route in `backend/src/core/index.ts` is I/O wiring. It only calls `registerClient` on subscription and `unregisterClient` on close or error, which are modelled. Also left out: the HTTP routes; `frontend/src/lib/api`, which is not part of this model; the JSX, CSS, PPTX export and navigation of the page.
- The frontend slide type's `type` and `speakerNotes` fields are left out; the page holds the backend's slide record. The plan's list of planned slides is left out too: it is always empty.
- `connectSlidesStream` is modelled as the page receiving the job's events in order, through `Page.HandleEvent`.
