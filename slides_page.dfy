/** The slides page of the frontend (frontend/src/pages/Slides.tsx): the
    phase label, the reducer that folds the backend's events into the page
    state, the two ways of starting a generation, and the slide cursor with its
    keyboard bindings. */
module SlidesPage {
  import opened Protocol
  import opened Text
  import Generator
  import Stream

  const Planning := "planning"
  const AnalysingLabel := "正在分析内容..."
  const GeneratingPrefix := "generating_slide_"
  const GeneratingLead := "正在生成第 "
  const GeneratingTail := " 张 Slide..."
  /** The message shown when an error carries no text of its own. */
  const DefaultError := "生成失败"

  /** The label of the slide-generation phase numbered `num`. */
  function GeneratingLabel(num: string): string {
    GeneratingLead + num + GeneratingTail
  }

  /** `getPhaseLabel`: `num` is what `phase.replace(GeneratingPrefix, "")` leaves,
      and since `phase` starts with the prefix the first occurrence replaced is
      the leading one. */
  function GetPhaseLabel(phase: string): string {
    if phase == Planning then AnalysingLabel
    else if StartsWith(phase, GeneratingPrefix) then GeneratingLabel(phase[|GeneratingPrefix|..])
    else phase
  }

  /** The three cases of the phase label: the planning phase gets the analysing
      label, the phase of slide `num` gets the per-slide label holding `num`,
      and any other phase is shown as it is. */
  lemma PhaseLabels(num: string, other: string)
    ensures GetPhaseLabel(Planning) == AnalysingLabel
    ensures GetPhaseLabel(GeneratingPrefix + num) == GeneratingLabel(num)
    ensures other != Planning && !StartsWith(other, GeneratingPrefix) ==> GetPhaseLabel(other) == other
  {
    var p := GeneratingPrefix + num;
    assert p[..|GeneratingPrefix|] == GeneratingPrefix;
    assert p != Planning by {
      assert p[0] == 'g' && Planning[0] == 'p';
    }
    assert p[|GeneratingPrefix|..] == num;
  }

  /** The per-slide label shows the slide number verbatim, between the fixed
      lead and tail, so distinct numbers get distinct labels. */
  lemma GeneratingLabelShowsNumber(num: string, num': string)
    ensures GeneratingLabel(num)[..|GeneratingLead|] == GeneratingLead
    ensures GeneratingLabel(num)[|GeneratingLead|..|GeneratingLead| + |num|] == num
    ensures GeneratingLabel(num)[|GeneratingLead| + |num|..] == GeneratingTail
    ensures GeneratingLabel(num) == GeneratingLabel(num') ==> num == num'
  {
    var l := GeneratingLabel(num);
    assert l == GeneratingLead + (num + GeneratingTail);
    assert l[|GeneratingLead|..] == num + GeneratingTail;
    if l == GeneratingLabel(num') {
      var l' := GeneratingLabel(num');
      assert l' == GeneratingLead + (num' + GeneratingTail);
      assert |num| == |num'|;
      assert num == l[|GeneratingLead|..][..|num|];
      assert num' == l'[|GeneratingLead|..][..|num'|];
    }
  }

  /** The header the `plan` event carries. The page also keeps an empty list of
      planned slides in it, which nothing fills. */
  datatype PresentationPlan = PresentationPlan(title: string, subtitle: Option<string>, targetAudience: Option<string>, estimatedSlides: int)

  /** The state cells the event stream and a generation start touch. */
  datatype View = View(slides: seq<Slide>, plan: Option<PresentationPlan>, phase: string, loading: bool, error: string)

  /** `ev.error || DefaultError`. */
  function ErrorText(e: string): (r: string)
    ensures r != ""
    ensures e != "" ==> r == e
    ensures e == "" ==> r == DefaultError
  {
    if e == "" then DefaultError else e
  }

  /** `handleEvent`, as a function of the state before the event. */
  function Reduce(v: View, ev: Event): View {
    match ev
    case Ready(_) => v.(loading := true)
    case Phase(p) => v.(phase := p)
    case PlanInfo(t, s, a, n) => v.(plan := Some(PresentationPlan(t, s, a, n)))
    case SlideEvent(slide) => v.(slides := v.slides + [slide])
    case Done => v.(loading := false, phase := "")
    case Error(e) => v.(error := ErrorText(e), loading := false, phase := "")
    case Title(_) => v
  }

  /** What each event does to the page: `ready` only raises `loading`; `phase`
      only sets the phase; `plan` only sets the plan, to the header the event
      carries; `slide` appends and keeps the earlier slides in order; `done`
      and `error` end the loading and clear the phase, `error` also showing
      its text or the default message; `title` changes nothing. No event other
      than `slide` touches the slides, none but `plan` the plan, none but
      `error` the error, and none but `phase`, `done` and `error` the phase. */
  lemma ReduceEffects(v: View, ev: Event)
    ensures var w := Reduce(v, ev);
      && (ev.SlideEvent? ==> w.slides == v.slides + [ev.slide] && w.slides[..|v.slides|] == v.slides)
      && (!ev.SlideEvent? ==> w.slides == v.slides)
      && (!ev.Error? ==> w.error == v.error)
      && (ev.Error? ==> w.error == ErrorText(ev.error) && w.error != "")
      && (ev.Done? || ev.Error? ==> !w.loading && w.phase == "")
      && (ev.Ready? ==> w.loading && w.phase == v.phase)
      && (ev.Title? ==> w == v)
      && (ev.Phase? ==> w == v.(phase := ev.value))
      && (ev.PlanInfo? ==>
            w == v.(plan := Some(PresentationPlan(ev.title, ev.subtitle, ev.targetAudience, ev.estimatedSlides))))
      && (!ev.PlanInfo? ==> w.plan == v.plan)
      && (ev.Ready? ==> w == v.(loading := true))
      && (ev.Done? ==> w == v.(loading := false, phase := ""))
      && (ev.Error? ==> w == v.(error := ErrorText(ev.error), loading := false, phase := ""))
      && (!ev.Phase? && !ev.Done? && !ev.Error? ==> w.phase == v.phase)
      && (ev.SlideEvent? ==> w == v.(slides := v.slides + [ev.slide]))
  {
  }

  /** The page after a sequence of events, the oldest first. */
  function ReduceAll(v: View, evs: seq<Event>): View {
    if evs == [] then v else Reduce(ReduceAll(v, evs[..|evs| - 1]), evs[|evs| - 1])
  }

  /** The slides the `slide` events of `evs` carry, in stream order. */
  function SlidesOf(evs: seq<Event>): seq<Slide> {
    if evs == [] then []
    else SlidesOf(evs[..|evs| - 1]) + (if evs[|evs| - 1].SlideEvent? then [evs[|evs| - 1].slide] else [])
  }

  lemma {:induction false} ReduceAllAppend(v: View, a: seq<Event>, b: seq<Event>)
    ensures ReduceAll(v, a + b) == ReduceAll(ReduceAll(v, a), b)
  {
    if b != [] {
      assert (a + b)[..|a + b| - 1] == a + b[..|b| - 1];
      ReduceAllAppend(v, a, b[..|b| - 1]);
    } else {
      assert a + b == a;
    }
  }

  /** The page's slides after a stream are its slides before it followed by
      exactly the slides the stream carries, in order. */
  lemma {:induction false} SlidesAccumulate(v: View, evs: seq<Event>)
    ensures ReduceAll(v, evs).slides == v.slides + SlidesOf(evs)
  {
    if evs != [] {
      SlidesAccumulate(v, evs[..|evs| - 1]);
    }
  }

  /** A stream of `slide` events carries their slides, one for one. */
  lemma {:induction false} SlidesOfSlideEvents(evs: seq<Event>)
    requires forall k | 0 <= k < |evs| :: evs[k].SlideEvent?
    ensures |SlidesOf(evs)| == |evs|
    ensures forall k | 0 <= k < |evs| :: SlidesOf(evs)[k] == evs[k].slide
  {
    if evs != [] {
      SlidesOfSlideEvents(evs[..|evs| - 1]);
    }
  }

  /** `setLoading(true); setError(""); setSlides([]); setPlan(null)`. */
  function Reset(v: View): View {
    v.(loading := true, error := "", slides := [], plan := None)
  }

  /** Folding only `slide` events into a view changes nothing but its slides. */
  lemma {:induction false} ReduceSlideEvents(v: View, evs: seq<Event>)
    requires forall k | 0 <= k < |evs| :: evs[k].SlideEvent?
    ensures ReduceAll(v, evs) == v.(slides := v.slides + SlidesOf(evs))
  {
    if evs != [] {
      ReduceSlideEvents(v, evs[..|evs| - 1]);
    }
  }

  /** A freshly reset page that receives a successful run's stream ends up
      showing every slide the run built, in order, no longer loading, with no
      phase and no error. */
  lemma SuccessfulRunDisplay(v: View, slidesId: string, params: StartParams, o: Generator.Oracles)
    requires Stream.Succeeds(params, o)
    ensures var content := Stream.ContentOf(params, o);
            var data := Generator.Outline(content, o).value;
            var w := ReduceAll(Reset(v), Generator.RunEvents(slidesId, params, o));
            && |w.slides| == |data|
            && (forall k | 0 <= k < |data| ::
                  w.slides[k] == Slide(Generator.SlideId(k), data[k].title, Generator.BulletsOf(data[k]), Generator.ImageFor(k, data[k], o)))
            && !w.loading && w.phase == "" && w.error == "" && w.plan == None
  {
    Stream.SuccessfulRun(slidesId, params, o);
    var content := Stream.ContentOf(params, o);
    var data := Generator.Outline(content, o).value;
    var title := Generator.CleanTitle(o.invoke(Generator.TitlePrompt(content)).value);
    SuccessDisplay(v, slidesId, title, Generator.SlideEvents(data, o, |data|));
  }

  lemma SuccessDisplay(v: View, slidesId: string, title: string, slides: seq<Event>)
    requires forall k | 0 <= k < |slides| :: slides[k].SlideEvent?
    ensures var w := ReduceAll(Reset(v), [Ready(slidesId), Title(title)] + slides + [Done]);
            && |w.slides| == |slides|
            && (forall k | 0 <= k < |slides| :: w.slides[k] == slides[k].slide)
            && !w.loading && w.phase == "" && w.error == "" && w.plan == None
  {
    var r := Reset(v);
    var head := [Ready(slidesId), Title(title)];
    ReduceAllAppend(r, head + slides, [Done]);
    ReduceAllAppend(r, head, slides);
    assert head[..1] == [Ready(slidesId)] && [Ready(slidesId)][..0] == [];
    assert ReduceAll(r, [Ready(slidesId)]) == r;
    var u := ReduceAll(r, head);
    assert u == r;
    ReduceSlideEvents(u, slides);
    SlidesOfSlideEvents(slides);
  }

  /** A freshly reset page that receives a failing run's stream shows no slide,
      is no longer loading, has no phase, and shows the thrown text, or the
      default message when that text is empty. */
  lemma FailedRunDisplay(v: View, slidesId: string, params: StartParams, o: Generator.Oracles)
    requires !Stream.Succeeds(params, o)
    ensures Generator.Pipeline(slidesId, params, o).thrown.Some?
    ensures var w := ReduceAll(Reset(v), Generator.RunEvents(slidesId, params, o));
            && w.slides == [] && !w.loading && w.phase == "" && w.plan == None
            && w.error == ErrorText(Generator.Pipeline(slidesId, params, o).thrown.value)
  {
    Stream.FailureEvents(slidesId, params, o);
    var prefix := Stream.FailurePrefix(slidesId, params, o);
    var e := Generator.Pipeline(slidesId, params, o).thrown.value;
    assert Generator.RunEvents(slidesId, params, o) == prefix + [Error(e)];
    FailureDisplay(v, slidesId, prefix, e);
  }

  lemma FailureDisplay(v: View, slidesId: string, prefix: seq<Event>, e: string)
    requires prefix == [] || prefix == [Ready(slidesId)] || (|prefix| == 2 && prefix[0] == Ready(slidesId) && prefix[1].Title?)
    ensures var w := ReduceAll(Reset(v), prefix + [Error(e)]);
            && w.slides == [] && !w.loading && w.phase == "" && w.plan == None && w.error == ErrorText(e)
  {
    var r := Reset(v);
    var evs := prefix + [Error(e)];
    assert evs[..|evs| - 1] == prefix;
    if prefix == [] {
    } else if prefix == [Ready(slidesId)] {
      assert prefix[..0] == [];
    } else {
      assert prefix[..1] == [Ready(slidesId)] && prefix[..1][..0] == [];
      assert ReduceAll(r, prefix[..1]) == r;
    }
    assert ReduceAll(r, prefix) == r;
  }

  /** What a start request's promise settles to: the job id, or the value
      thrown. */
  datatype StartReply = Started(slidesId: string) | Rejected(thrown: Thrown)

  /** A thrown value: an `Error` object with its message, or anything else. */
  datatype Thrown = ErrorObject(message: string) | OtherValue

  /** The error text the catch block shows for a thrown value. */
  function CaughtText(t: Thrown): string {
    match t
    case ErrorObject(m) => m
    case OtherValue => DefaultError
  }

  /** The page after a start attempt: subscribed and loading on success, or
      showing the caught error and not loading on failure. */
  function AfterStart(v: View, reply: StartReply): View {
    match reply
    case Started(_) => Reset(v)
    case Rejected(t) => Reset(v).(error := CaughtText(t), loading := false)
  }

  /** Starting always empties the slides and the plan, whatever the reply; only
      a rejected start shows an error, and it stops the loading. */
  lemma AfterStartEffects(v: View, reply: StartReply)
    ensures AfterStart(v, reply).slides == [] && AfterStart(v, reply).plan == None
    ensures AfterStart(v, reply).loading <==> reply.Started?
    ensures reply.Started? ==> AfterStart(v, reply).error == "" && AfterStart(v, reply).phase == v.phase
    ensures reply.Rejected? && reply.thrown.OtherValue? ==> AfterStart(v, reply).error == DefaultError
    ensures reply.Rejected? && reply.thrown.ErrorObject? ==> AfterStart(v, reply).error == reply.thrown.message
  {
  }

  /** The cursor after `nextSlide`: it moves on only while a later slide exists. */
  function NextIndex(current: int, count: nat): int {
    if current < count - 1 then current + 1 else current
  }

  /** The cursor after `prevSlide`: it moves back only while it is past the first slide. */
  function PrevIndex(current: int): int {
    if current > 0 then current - 1 else current
  }

  predicate CursorInRange(current: int, count: nat) {
    0 <= current < count
  }

  /** The cursor never leaves the deck once it is inside it, and moves by at
      most one; a cursor past the end of the deck is not pulled back by
      `nextSlide`, and one at the first slide stays there under `prevSlide`. */
  lemma CursorStaysInRange(current: int, count: nat)
    ensures CursorInRange(current, count) ==> CursorInRange(NextIndex(current, count), count)
    ensures CursorInRange(current, count) ==> CursorInRange(PrevIndex(current), count)
    ensures current >= count - 1 ==> NextIndex(current, count) == current
    ensures current <= 0 ==> PrevIndex(current) == current
    ensures 0 <= NextIndex(current, count) - current <= 1 && 0 <= current - PrevIndex(current) <= 1
    ensures CursorInRange(current, count) && current < count - 1 ==> PrevIndex(NextIndex(current, count)) == current
  {
  }

  /** What a key press does on the page. */
  datatype KeyAction = Advance | Retreat | ToggleNotes | Ignore

  function ActionOf(key: string): (a: KeyAction)
    ensures a == Advance <==> key == "ArrowRight" || key == " "
    ensures a == Retreat <==> key == "ArrowLeft"
    ensures a == ToggleNotes <==> key == "n" || key == "N"
  {
    if key == "ArrowRight" || key == " " then Advance
    else if key == "ArrowLeft" then Retreat
    else if key == "n" || key == "N" then ToggleNotes
    else Ignore
  }

  /** The page's state cells. */
  class Page {
    var slides: seq<Slide>
    var currentSlide: int
    var plan: Option<PresentationPlan>
    var phase: string
    var loading: bool
    var error: string
    var topic: string
    var showNotes: bool

    /** The initial values of the state cells. */
    constructor ()
      ensures slides == [] && currentSlide == 0 && plan == None && phase == ""
      ensures !loading && error == "" && topic == "" && !showNotes
    {
      slides := [];
      currentSlide := 0;
      plan := None;
      phase := "";
      loading := false;
      error := "";
      topic := "";
      showNotes := false;
    }

    function Snapshot(): View
      reads this
    {
      View(slides, plan, phase, loading, error)
    }

    /** `handleEvent`: the cells change as `Reduce` says, and the cursor, the
        topic and the notes toggle never do. */
    method HandleEvent(ev: Event)
      modifies this
      ensures Snapshot() == Reduce(old(Snapshot()), ev)
      ensures currentSlide == old(currentSlide) && topic == old(topic) && showNotes == old(showNotes)
    {
      match ev {
        case Ready(_) =>
          loading := true;
        case Phase(p) =>
          phase := p;
        case PlanInfo(t, s, a, n) =>
          plan := Some(PresentationPlan(t, s, a, n));
        case SlideEvent(slide) =>
          slides := slides + [slide];
        case Done =>
          loading := false;
          phase := "";
        case Error(e) =>
          error := ErrorText(e);
          loading := false;
          phase := "";
        case Title(_) =>
      }
    }

    /** The reset, the start request and its outcome shared by both ways of
        starting. Returns the job whose stream the page subscribes to. */
    method Start(reply: StartReply) returns (subscribed: Option<string>)
      modifies this
      ensures Snapshot() == AfterStart(old(Snapshot()), reply)
      ensures subscribed == if reply.Started? then Some(reply.slidesId) else None
      ensures currentSlide == old(currentSlide) && topic == old(topic) && showNotes == old(showNotes)
    {
      loading := true;
      error := "";
      slides := [];
      plan := None;
      match reply {
        case Started(id) =>
          subscribed := Some(id);
        case Rejected(t) =>
          error := CaughtText(t);
          loading := false;
          subscribed := None;
      }
    }

    /** `generateSlides(cid)`: asks for a deck from chat `cid`, whatever the
        cursor, which is not reset. */
    method GenerateSlides(cid: string, reply: StartReply) returns (request: StartParams, subscribed: Option<string>)
      modifies this
      ensures request == StartParams(Some(cid), None, None)
      ensures Snapshot() == AfterStart(old(Snapshot()), reply)
      ensures subscribed == if reply.Started? then Some(reply.slidesId) else None
      ensures currentSlide == old(currentSlide) && topic == old(topic) && showNotes == old(showNotes)
    {
      request := StartParams(Some(cid), None, None);
      subscribed := Start(reply);
    }

    /** `setTopic`, as the topic input's `onChange` calls it: only the topic
        changes. */
    method SetTopic(t: string)
      modifies this
      ensures topic == t
      ensures Snapshot() == old(Snapshot()) && currentSlide == old(currentSlide) && showNotes == old(showNotes)
    {
      topic := t;
    }

    /** `handleGenerateFromTopic`: a blank topic does nothing at all; otherwise
        a deck is asked for with the trimmed topic. */
    method HandleGenerateFromTopic(reply: StartReply) returns (request: Option<StartParams>, subscribed: Option<string>)
      modifies this
      ensures Trim(old(topic)) == "" ==> request == None && subscribed == None && Snapshot() == old(Snapshot())
      ensures Trim(old(topic)) != "" ==>
                && request == Some(StartParams(None, Some(Trim(old(topic))), None))
                && Snapshot() == AfterStart(old(Snapshot()), reply)
                && subscribed == if reply.Started? then Some(reply.slidesId) else None
      ensures currentSlide == old(currentSlide) && topic == old(topic) && showNotes == old(showNotes)
    {
      var trimmed := Trim(topic);
      if trimmed == "" {
        return None, None;
      }
      request := Some(StartParams(None, Some(trimmed), None));
      subscribed := Start(reply);
    }

    /** `nextSlide`. */
    method NextSlide()
      modifies this
      ensures currentSlide == NextIndex(old(currentSlide), |slides|)
      ensures Snapshot() == old(Snapshot()) && topic == old(topic) && showNotes == old(showNotes)
    {
      if currentSlide < |slides| - 1 {
        currentSlide := currentSlide + 1;
      }
    }

    /** `prevSlide`. */
    method PrevSlide()
      modifies this
      ensures currentSlide == PrevIndex(old(currentSlide))
      ensures Snapshot() == old(Snapshot()) && topic == old(topic) && showNotes == old(showNotes)
    {
      if currentSlide > 0 {
        currentSlide := currentSlide - 1;
      }
    }

    /** The keyboard handler: the arrow keys and the space bar move the cursor
        and suppress the browser's default action; `n` and `N` toggle the
        notes; every other key changes nothing. */
    method HandleKeyDown(key: string) returns (prevented: bool)
      modifies this
      ensures prevented <==> ActionOf(key) == Advance || ActionOf(key) == Retreat
      ensures currentSlide == match ActionOf(key)
                              case Advance => NextIndex(old(currentSlide), |slides|)
                              case Retreat => PrevIndex(old(currentSlide))
                              case _ => old(currentSlide)
      ensures showNotes == (if ActionOf(key) == ToggleNotes then !old(showNotes) else old(showNotes))
      ensures Snapshot() == old(Snapshot()) && topic == old(topic)
    {
      prevented := false;
      if key == "ArrowRight" || key == " " {
        prevented := true;
        NextSlide();
      } else if key == "ArrowLeft" {
        prevented := true;
        PrevSlide();
      } else if key == "n" || key == "N" {
        showNotes := !showNotes;
      }
    }
  }

  /** A non-blank topic request reaches the backend as content: the run works
      from exactly the trimmed topic. */
  lemma TopicRequestContent(t: string, history: string -> Attempt<seq<Generator.Message>>)
    requires Trim(t) != ""
    ensures Generator.GatherContent(StartParams(None, Some(Trim(t)), None), history) == Returns(Trim(t))
  {
  }
}
