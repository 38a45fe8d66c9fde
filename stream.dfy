/** Properties of the event stream of one generation run
    (backend/src/services/slides/generator.ts:30-109), stated about
    `Generator.RunEvents` for every request and every behaviour of the external
    calls. */
module Stream {
  import opened Protocol
  import opened Text
  import opened Generator

  predicate Terminal(ev: Event) {
    ev.Done? || ev.Error?
  }

  /** The shape every run's stream has: it is never empty and ends in exactly
      one terminal event (`done` or `error`); `ready` can only come first and
      does come first whenever anything precedes the terminal event; `title`
      can only be second; the `slide` events follow, numbered from `slide-0` in
      stream order, and only the first of them can carry an image. The backend
      never emits `phase` or `plan`. */
  predicate WellFormed(slidesId: string, evs: seq<Event>) {
    && |evs| >= 1
    && Terminal(evs[|evs| - 1])
    && (forall k | 0 <= k < |evs| - 1 :: !Terminal(evs[k]))
    && (forall k | 0 <= k < |evs| :: !evs[k].Phase? && !evs[k].PlanInfo?)
    && (|evs| > 1 ==> evs[0] == Ready(slidesId))
    && (forall k | 1 <= k < |evs| :: !evs[k].Ready?)
    && (forall k | 0 <= k < |evs| && evs[k].Title? :: k == 1)
    && (forall k | 0 <= k < |evs| && evs[k].SlideEvent? ::
          && k >= 2
          && evs[k].slide.id == SlideId(k - 2)
          && (evs[k].slide.imageUrl.Some? ==> k == 2))
  }

  /** The content a run works from, when assembly succeeds. */
  function ContentOf(params: StartParams, o: Oracles): string
    requires GatherContent(params, o.history).Returns?
  {
    GatherContent(params, o.history).value
  }

  /** Every stage of the `try` block gets through: the model is created, the
      content is assembled, the title request returns and the outline is
      obtained and parsed. */
  predicate Succeeds(params: StartParams, o: Oracles) {
    && o.modelError.None?
    && GatherContent(params, o.history).Returns?
    && o.invoke(TitlePrompt(ContentOf(params, o))).Returns?
    && Outline(ContentOf(params, o), o).Returns?
  }

  /** The slide deck after a successful title stage is either `done` after the
      slides, or nothing at all with an error. */
  lemma SlideDeckCases(content: string, o: Oracles)
    ensures Outline(content, o).Returns? ==>
              var data := Outline(content, o).value;
              SlideDeck(content, o) == Outcome(SlideEvents(data, o, |data|) + [Done], None)
    ensures Outline(content, o).Throws? ==> SlideDeck(content, o) == Outcome([], Some(Outline(content, o).error))
  {
  }

  // One stage at a time: what each stage of the run yields, given how its
  // external call went.

  lemma PipelineStages(slidesId: string, params: StartParams, o: Oracles)
    ensures o.modelError.Some? ==> Pipeline(slidesId, params, o) == Outcome([], o.modelError)
    ensures o.modelError.None? && GatherContent(params, o.history).Throws? ==>
              Pipeline(slidesId, params, o) == Outcome([], Some(GatherContent(params, o.history).error))
    ensures o.modelError.None? && GatherContent(params, o.history).Returns? ==>
              Pipeline(slidesId, params, o) == FromContent(slidesId, ContentOf(params, o), o)
  {
  }

  lemma FromContentStages(slidesId: string, content: string, o: Oracles)
    ensures o.invoke(TitlePrompt(content)).Throws? ==>
              FromContent(slidesId, content, o) == Outcome([Ready(slidesId)], Some(o.invoke(TitlePrompt(content)).error))
    ensures o.invoke(TitlePrompt(content)).Returns? ==>
              var rest := TitledDeck(o.invoke(TitlePrompt(content)).value, content, o);
              FromContent(slidesId, content, o) == Outcome([Ready(slidesId)] + rest.emitted, rest.thrown)
  {
  }

  lemma TitledDeckStages(titleText: string, content: string, o: Oracles)
    ensures Outline(content, o).Throws? ==>
              TitledDeck(titleText, content, o) == Outcome([Title(CleanTitle(titleText))], Some(Outline(content, o).error))
    ensures Outline(content, o).Returns? ==>
              var data := Outline(content, o).value;
              TitledDeck(titleText, content, o) ==
                Outcome([Title(CleanTitle(titleText))] + (SlideEvents(data, o, |data|) + [Done]), None)
  {
    SlideDeckCases(content, o);
    assert [Title(CleanTitle(titleText))] + [] == [Title(CleanTitle(titleText))];
  }

  /** A successful run emits `ready`, the cleaned title, one `slide` per outline
      element in order and `done`. */
  lemma {:induction false} SuccessfulRun(slidesId: string, params: StartParams, o: Oracles)
    requires Succeeds(params, o)
    ensures var content := ContentOf(params, o);
            var data := Outline(content, o).value;
            RunEvents(slidesId, params, o) ==
              [Ready(slidesId), Title(CleanTitle(o.invoke(TitlePrompt(content)).value))]
              + SlideEvents(data, o, |data|) + [Done]
  {
    var content := ContentOf(params, o);
    var titleText := o.invoke(TitlePrompt(content)).value;
    var data := Outline(content, o).value;
    var title := Title(CleanTitle(titleText));
    var slides := SlideEvents(data, o, |data|);
    var out := Pipeline(slidesId, params, o);
    PipelineStages(slidesId, params, o);
    FromContentStages(slidesId, content, o);
    TitledDeckStages(titleText, content, o);
    assert out == Outcome([Ready(slidesId)] + ([title] + (slides + [Done])), None);
    AppendAssoc([Ready(slidesId)], [title], slides + [Done]);
    AppendAssoc([Ready(slidesId), title], slides, [Done]);
    assert [Ready(slidesId)] + [title] == [Ready(slidesId), title];
    assert RunEvents(slidesId, params, o) == out.emitted;
  }

  /** What a failing run emits before its `error`: nothing when the model or
      the content fails, `ready` when the title request fails, `ready` and the
      title when the outline fails. */
  function FailurePrefix(slidesId: string, params: StartParams, o: Oracles): seq<Event>
    requires !Succeeds(params, o)
  {
    if o.modelError.Some? || GatherContent(params, o.history).Throws? then []
    else if o.invoke(TitlePrompt(ContentOf(params, o))).Throws? then [Ready(slidesId)]
    else [Ready(slidesId), Title(CleanTitle(o.invoke(TitlePrompt(ContentOf(params, o))).value))]
  }

  lemma FailureEvents(slidesId: string, params: StartParams, o: Oracles)
    requires !Succeeds(params, o)
    ensures Pipeline(slidesId, params, o) == Outcome(FailurePrefix(slidesId, params, o), Pipeline(slidesId, params, o).thrown)
    ensures Pipeline(slidesId, params, o).thrown.Some?
  {
    PipelineStages(slidesId, params, o);
    if o.modelError.None? && GatherContent(params, o.history).Returns? {
      var content := ContentOf(params, o);
      FromContentStages(slidesId, content, o);
      if o.invoke(TitlePrompt(content)).Returns? {
        TitledDeckStages(o.invoke(TitlePrompt(content)).value, content, o);
      }
    }
  }

  /** A failing run emits nothing after the point of failure but one `error`
      carrying the thrown text, and no slide at all: every failure happens
      before the slide loop. At most `ready` and `title` precede the error. */
  lemma {:induction false} FailedRun(slidesId: string, params: StartParams, o: Oracles)
    requires !Succeeds(params, o)
    ensures Pipeline(slidesId, params, o).thrown.Some?
    ensures var evs := RunEvents(slidesId, params, o);
            && 1 <= |evs| <= 3
            && evs[|evs| - 1] == Error(Pipeline(slidesId, params, o).thrown.value)
            && (forall k | 0 <= k < |evs| :: !evs[k].SlideEvent? && !evs[k].Done?)
    ensures WellFormed(slidesId, RunEvents(slidesId, params, o))
  {
    FailureEvents(slidesId, params, o);
    var prefix := FailurePrefix(slidesId, params, o);
    var e := Pipeline(slidesId, params, o).thrown.value;
    assert RunEvents(slidesId, params, o) == prefix + [Error(e)];
    FailureStreamWellFormed(slidesId, prefix, e);
  }

  lemma FailureStreamWellFormed(slidesId: string, prefix: seq<Event>, e: string)
    requires prefix == [] || prefix == [Ready(slidesId)] || (|prefix| == 2 && prefix[0] == Ready(slidesId) && prefix[1].Title?)
    ensures var evs := prefix + [Error(e)];
            && (forall k | 0 <= k < |evs| :: !evs[k].SlideEvent? && !evs[k].Done?)
            && WellFormed(slidesId, evs)
  {
  }

  /** Only a failing run throws. */
  lemma FailureOrSuccessThrown(slidesId: string, params: StartParams, o: Oracles)
    ensures Pipeline(slidesId, params, o).thrown.None? <==> Succeeds(params, o)
  {
    if Succeeds(params, o) {
      var content := ContentOf(params, o);
      PipelineStages(slidesId, params, o);
      FromContentStages(slidesId, content, o);
      TitledDeckStages(o.invoke(TitlePrompt(content)).value, content, o);
    } else {
      FailureEvents(slidesId, params, o);
    }
  }

  /** The stream ends in `done` exactly when every stage succeeds. */
  lemma RunEndsInDoneIffSucceeds(slidesId: string, params: StartParams, o: Oracles)
    ensures |RunEvents(slidesId, params, o)| >= 1
    ensures RunEvents(slidesId, params, o)[|RunEvents(slidesId, params, o)| - 1] == Done <==> Succeeds(params, o)
  {
    if Succeeds(params, o) {
      SuccessfulRun(slidesId, params, o);
    } else {
      FailedRun(slidesId, params, o);
    }
  }

  /** The stream of a successful run is well formed, whatever the title and
      the outline. */
  lemma SuccessStreamWellFormed(slidesId: string, title: string, data: seq<SlideData>, o: Oracles)
    ensures WellFormed(slidesId, [Ready(slidesId), Title(title)] + SlideEvents(data, o, |data|) + [Done])
  {
    var slides := SlideEvents(data, o, |data|);
    var evs := [Ready(slidesId), Title(title)] + slides + [Done];
    assert |evs| == |slides| + 3;
    forall k | 2 <= k < |evs| - 1
      ensures evs[k] == slides[k - 2]
    {
    }
  }

  /** Every run's stream is well formed. */
  lemma RunIsWellFormed(slidesId: string, params: StartParams, o: Oracles)
    ensures WellFormed(slidesId, RunEvents(slidesId, params, o))
  {
    if Succeeds(params, o) {
      SuccessfulRun(slidesId, params, o);
      var content := ContentOf(params, o);
      SuccessStreamWellFormed(slidesId, CleanTitle(o.invoke(TitlePrompt(content)).value), Outline(content, o).value, o);
    } else {
      FailedRun(slidesId, params, o);
    }
  }

  /** A request with neither a chat nor a topic is not rejected: once the model
      is created, the client is told the job is `ready` and the title request
      is made with the bare instruction. */
  lemma EmptyRequestStillStarts(slidesId: string, params: StartParams, o: Oracles)
    requires o.modelError.None?
    requires !Truthy(params.chatId) && !Truthy(params.topic)
    ensures |RunEvents(slidesId, params, o)| >= 2
    ensures RunEvents(slidesId, params, o)[0] == Ready(slidesId)
    ensures TitlePrompt(ContentOf(params, o)) == TitleInstruction
  {
    GatherContentSources(params, o.history, params.filePath, params.topic);
    assert TitleInstruction + Slice("", TitleBudget) == TitleInstruction;
    if Succeeds(params, o) {
      SuccessfulRun(slidesId, params, o);
    } else {
      var content := ContentOf(params, o);
      SlideDeckCases(content, o);
    }
  }

  /** The events a run sends before its first `await`. `slidesService.start`
      calls `generateSlides` without awaiting it, so this part of the run
      happens before `start` answers, while no client can know the fresh id.
      When `createChatModel` fails, that is the whole run; with a chat, the
      history lookup is awaited before anything is sent; otherwise `ready`
      is sent before the title request is awaited. */
  function EventsBeforeAnswer(slidesId: string, params: StartParams, o: Oracles): seq<Event> {
    if o.modelError.Some? then [Error(o.modelError.value)]
    else if Truthy(params.chatId) then []
    else [Ready(slidesId)]
  }

  /** What a client that subscribes once `start` has answered can receive: the
      run's stream after the events sent before the answer. With a failing
      model the run is already over by then, and for a topic or an empty
      request the rest of the stream holds no `ready`, so such a client never
      sees `ready`. */
  lemma LateSubscriber(slidesId: string, params: StartParams, o: Oracles)
    ensures var early, evs := EventsBeforeAnswer(slidesId, params, o), RunEvents(slidesId, params, o);
      && |early| <= |evs| && evs[..|early|] == early
      && (o.modelError.Some? ==> evs == early)
      && (o.modelError.None? && !Truthy(params.chatId) ==> forall k | |early| <= k < |evs| :: !evs[k].Ready?)
  {
    PipelineStages(slidesId, params, o);
    if o.modelError.None? && !Truthy(params.chatId) {
      GatherContentSources(params, o.history, params.filePath, params.topic);
      var content := ContentOf(params, o);
      FromContentStages(slidesId, content, o);
      assert RunEvents(slidesId, params, o)[0] == Ready(slidesId);
      RunIsWellFormed(slidesId, params, o);
    }
  }

  /** Two events that agree except possibly in the image of a slide. */
  predicate SameExceptImage(a: Event, b: Event) {
    if a.SlideEvent? then b.SlideEvent? && b.slide == a.slide.(imageUrl := b.slide.imageUrl)
    else a == b
  }

  lemma SlideEventsIgnoreImages(data: seq<SlideData>, o: Oracles, p: Oracles, n: nat)
    requires n <= |data|
    requires p == o.(imageEnabled := p.imageEnabled, image := p.image)
    ensures |SlideEvents(data, p, n)| == |SlideEvents(data, o, n)|
    ensures forall k | 0 <= k < n :: SameExceptImage(SlideEvents(data, o, n)[k], SlideEvents(data, p, n)[k])
  {
  }

  /** Slides built with two image services agree except in their images, and
      so do the streams around them. */
  lemma SuccessStreamsAgree(slidesId: string, title: string, data: seq<SlideData>, o: Oracles, p: Oracles)
    requires p == o.(imageEnabled := p.imageEnabled, image := p.image)
    ensures var a := [Ready(slidesId), Title(title)] + SlideEvents(data, o, |data|) + [Done];
            var b := [Ready(slidesId), Title(title)] + SlideEvents(data, p, |data|) + [Done];
            |a| == |b| && forall k | 0 <= k < |a| :: SameExceptImage(a[k], b[k])
  {
    var sa, sb := SlideEvents(data, o, |data|), SlideEvents(data, p, |data|);
    SlideEventsIgnoreImages(data, o, p, |data|);
    var a := [Ready(slidesId), Title(title)] + sa + [Done];
    var b := [Ready(slidesId), Title(title)] + sb + [Done];
    forall k | 0 <= k < |a|
      ensures SameExceptImage(a[k], b[k])
    {
      if 2 <= k < |a| - 1 {
        assert a[k] == sa[k - 2] && b[k] == sb[k - 2];
      }
    }
  }

  /** A failing run does not reach the slide loop, so its outcome does not
      depend on the image service. */
  lemma FailureIgnoresImages(slidesId: string, params: StartParams, o: Oracles, p: Oracles)
    requires p == o.(imageEnabled := p.imageEnabled, image := p.image)
    requires !Succeeds(params, o)
    ensures Pipeline(slidesId, params, p) == Pipeline(slidesId, params, o)
  {
    PipelineStages(slidesId, params, o);
    PipelineStages(slidesId, params, p);
    if o.modelError.None? && GatherContent(params, o.history).Returns? {
      var content := ContentOf(params, o);
      FromContentStages(slidesId, content, o);
      FromContentStages(slidesId, content, p);
      if o.invoke(TitlePrompt(content)).Returns? {
        var titleText := o.invoke(TitlePrompt(content)).value;
        assert Outline(content, p) == Outline(content, o);
        TitledDeckStages(titleText, content, o);
        TitledDeckStages(titleText, content, p);
      }
    }
  }

  lemma SuccessIgnoresImages(slidesId: string, params: StartParams, o: Oracles, p: Oracles)
    requires p == o.(imageEnabled := p.imageEnabled, image := p.image)
    requires Succeeds(params, o)
    ensures Succeeds(params, p)
    ensures |RunEvents(slidesId, params, p)| == |RunEvents(slidesId, params, o)|
    ensures forall k | 0 <= k < |RunEvents(slidesId, params, o)| ::
              SameExceptImage(RunEvents(slidesId, params, o)[k], RunEvents(slidesId, params, p)[k])
  {
    var content := ContentOf(params, o);
    assert Outline(content, p) == Outline(content, o);
    SuccessfulRun(slidesId, params, o);
    SuccessfulRun(slidesId, params, p);
    SuccessStreamsAgree(slidesId, CleanTitle(o.invoke(TitlePrompt(content)).value), Outline(content, o).value, o, p);
  }

  /** The image service only decides images: a run with another image service,
      or with none configured, ends the same way, emits as many events, and its
      events agree with this run's except for slide images. */
  lemma ImagesAffectOnlyImages(slidesId: string, params: StartParams, o: Oracles,
                               enabled: bool, image: string -> Attempt<string>)
    ensures var p := o.(imageEnabled := enabled, image := image);
            && Pipeline(slidesId, params, p).thrown == Pipeline(slidesId, params, o).thrown
            && |RunEvents(slidesId, params, p)| == |RunEvents(slidesId, params, o)|
            && forall k | 0 <= k < |RunEvents(slidesId, params, o)| ::
                 SameExceptImage(RunEvents(slidesId, params, o)[k], RunEvents(slidesId, params, p)[k])
  {
    var p := o.(imageEnabled := enabled, image := image);
    if Succeeds(params, o) {
      SuccessIgnoresImages(slidesId, params, o, p);
      RunEndsInDoneIffSucceeds(slidesId, params, o);
      RunEndsInDoneIffSucceeds(slidesId, params, p);
      FailureOrSuccessThrown(slidesId, params, o);
      FailureOrSuccessThrown(slidesId, params, p);
    } else {
      FailureIgnoresImages(slidesId, params, o, p);
      var evs := RunEvents(slidesId, params, o);
      forall k | 0 <= k < |evs|
        ensures SameExceptImage(evs[k], evs[k])
      {
      }
    }
  }
}
