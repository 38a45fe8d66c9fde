/** Values that cross the boundary between the slides backend and its client:
    the start request, the slide record and the JSON events pushed over the socket. */
module Protocol {

  datatype Option<+T> = None | Some(value: T)

  /** The outcome of a call that may throw: `Throws` carries `String(error)`,
      the text the backend's catch block forwards. */
  datatype Attempt<+T> = Returns(value: T) | Throws(error: string)

  /** The body of a start request. Every field is optional; nothing checks that
      one of them is present. */
  datatype StartParams = StartParams(chatId: Option<string>, topic: Option<string>, filePath: Option<string>)

  /** JavaScript truthiness of an optional string: defined and not empty. */
  predicate Truthy(s: Option<string>) {
    s.Some? && s.value != ""
  }

  /** A slide as the backend emits it: `imageUrl` is absent unless an image was produced. */
  datatype Slide = Slide(id: string, title: string, bullets: seq<string>, imageUrl: Option<string>)

  /** The `type`-tagged events of the stream. The backend emits `Ready`, `Title`,
      `SlideEvent`, `Done` and `Error`; the client's reducer also understands
      `Phase` and `PlanInfo`. */
  datatype Event =
    | Ready(slidesId: string)
    | Title(value: string)
    | Phase(value: string)
    | PlanInfo(title: string, subtitle: Option<string>, targetAudience: Option<string>, estimatedSlides: int)
    | SlideEvent(slide: Slide)
    | Done
    | Error(error: string)
}
