/** Values that flow through the scan handler: detected metadata objects,
    preview-layer points and the feedback events the handler emits. */
module Metadata {

  datatype Option<T> = None | Some(value: T)

  /** A point in preview-layer coordinates.  The platform uses floating
      point; the model never computes with coordinates, so integers do. */
  datatype Point = Point(x: int, y: int)

  /** What the downcast and type test on a detected object find: a
      machine-readable code of type QR, a machine-readable code of another
      type, or some other kind of metadata object (a face, a body, ...). */
  datatype Kind = QrCode | OtherCode | NotMachineReadable

  /** One object of a detection batch.  `stringValue` is the decoded payload
      if the platform could read one; `transformed` is the outcome of
      converting the object into preview-layer coordinates: `None` when the
      conversion does not yield a machine-readable code object, otherwise the
      converted corner list. */
  datatype MetadataObject = MetadataObject(
    kind: Kind,
    stringValue: Option<string>,
    transformed: Option<seq<Point>>)

  /** Observable effects of handling a batch, in the order they are issued:
      the success sound, the success haptic, the payload log line, and the
      bounding-box update (with its auto-hide) posted to the main queue. */
  datatype Event = Sound | Haptic | Log(payload: string) | Box(corners: seq<Point>)

  datatype EventTag = SoundTag | HapticTag | LogTag | BoxTag

  function Tag(e: Event): EventTag
  {
    match e
    case Sound => SoundTag
    case Haptic => HapticTag
    case Log(_) => LogTag
    case Box(_) => BoxTag
  }

  /** Number of events of one kind in an event sequence. */
  function Count(events: seq<Event>, t: EventTag): nat
  {
    if events == [] then 0
    else (if Tag(events[0]) == t then 1 else 0) + Count(events[1..], t)
  }

  /** The payloads logged by an event sequence, in order. */
  function Logs(events: seq<Event>): seq<string>
  {
    if events == [] then []
    else (if events[0].Log? then [events[0].payload] else []) + Logs(events[1..])
  }

  lemma {:induction false} CountAppend(a: seq<Event>, b: seq<Event>, t: EventTag)
    ensures Count(a + b, t) == Count(a, t) + Count(b, t)
  {
    if a != [] {
      assert (a + b)[1..] == a[1..] + b;
      CountAppend(a[1..], b, t);
    } else {
      assert a + b == b;
    }
  }

  lemma {:induction false} LogsAppend(a: seq<Event>, b: seq<Event>)
    ensures Logs(a + b) == Logs(a) + Logs(b)
  {
    if a != [] {
      assert (a + b)[1..] == a[1..] + b;
      LogsAppend(a[1..], b);
    } else {
      assert a + b == b;
    }
  }

  /** Regrouping a four-part concatenation. */
  lemma AppendAssociative(a: seq<Event>, b: seq<Event>, c: seq<Event>, d: seq<Event>)
    ensures a + (b + c + d) == (a + b + c) + d
  {
  }
}
