/** The scan-handling logic of the view controller as pure functions: how one
    batch of detected metadata objects is turned into feedback events and an
    updated history of scanned payloads, given the settings of four of the screen's five switches (the torch
    switch has no effect on scanning). */
module ScanGate {
  import opened Metadata

  /** Four of the screen's five switches; the torch switch is left out. */
  datatype Settings = Settings(
    allowDuplicateReading: bool,
    makeSound: bool,
    makeHapticFeedback: bool,
    showBoundingBox: bool)

  /** Events emitted so far and the history of scanned payloads after them. */
  datatype Outcome = Outcome(events: seq<Event>, seen: set<string>)

  /** The success sound: issued only when the sound switch is on. */
  function SuccessSound(makeSound: bool): (r: seq<Event>)
    ensures r == [] || r == [Sound]
    ensures Sound in r <==> makeSound
  {
    if makeSound then [Sound] else []
  }

  /** The success haptic: issued only when the haptic switch is on. */
  function SuccessHaptic(makeHapticFeedback: bool): (r: seq<Event>)
    ensures r == [] || r == [Haptic]
    ensures Haptic in r <==> makeHapticFeedback
  {
    if makeHapticFeedback then [Haptic] else []
  }

  /** What a successful read issues: sound, haptic, then the log line. */
  function SuccessFeedback(s: Settings, payload: string): (r: seq<Event>)
    ensures 1 <= |r| <= 3 && r[|r| - 1] == Log(payload)
    ensures Sound in r <==> s.makeSound
    ensures Haptic in r <==> s.makeHapticFeedback
  {
    SuccessSound(s.makeSound) + SuccessHaptic(s.makeHapticFeedback) + [Log(payload)]
  }

  lemma SuccessFeedbackCounts(s: Settings, payload: string)
    ensures Logs(SuccessFeedback(s, payload)) == [payload]
    ensures Count(SuccessFeedback(s, payload), SoundTag) == if s.makeSound then 1 else 0
    ensures Count(SuccessFeedback(s, payload), HapticTag) == if s.makeHapticFeedback then 1 else 0
    ensures Count(SuccessFeedback(s, payload), BoxTag) == 0
  {
    var p := payload;
    var f := SuccessFeedback(s, p);
    var tail := [Log(p)];
    assert Logs(tail) == [p] && Count(tail, SoundTag) == 0 && Count(tail, HapticTag) == 0 && Count(tail, BoxTag) == 0;
    if s.makeSound && s.makeHapticFeedback {
      assert f == [Sound, Haptic] + tail;
      assert f[1..] == [Haptic] + tail && f[1..][1..] == tail;
    } else if s.makeSound {
      assert f == [Sound] + tail && f[1..] == tail;
    } else if s.makeHapticFeedback {
      assert f == [Haptic] + tail && f[1..] == tail;
    } else {
      assert f == tail;
    }
  }

  /** The outcome of the guards for one object: abort the rest of the batch,
      or go on with its payload and the bounding-box update it posts. */
  datatype Decision = Abort | Proceed(payload: string, box: seq<Event>)

  /** The guards of one loop iteration: the object must be a QR code with a
      string value, and, when the bounding box is shown, its transform into
      preview coordinates must succeed.  With the bounding box hidden the
      transform outcome plays no part.  The decision never depends on the
      history. */
  function Decide(s: Settings, obj: MetadataObject): (r: Decision)
    ensures r.Proceed? <==>
              obj.kind == QrCode && obj.stringValue.Some? && (s.showBoundingBox ==> obj.transformed.Some?)
    ensures r.Proceed? ==> r.payload == obj.stringValue.value
    ensures r.Proceed? && s.showBoundingBox ==> r.box == [Box(obj.transformed.value)]
    ensures r.Proceed? && !s.showBoundingBox ==> r.box == []
  {
    if obj.kind != QrCode || obj.stringValue.None? then Abort
    else if !s.showBoundingBox then Proceed(obj.stringValue.value, [])
    else match obj.transformed
      case None => Abort
      case Some(corners) => Proceed(obj.stringValue.value, [Box(corners)])
  }

  /** The duplicate gate for one accepted payload.  Note the polarity: with
      allowDuplicateReading ON, a payload already in the history is
      suppressed; with it OFF, every payload is reported and the history is
      left alone. */
  function Gate(s: Settings, seen: set<string>, payload: string): (r: Outcome)
    ensures s.allowDuplicateReading && payload in seen ==> r.events == [] && r.seen == seen
    ensures s.allowDuplicateReading && payload !in seen ==> r.seen == seen + {payload}
    ensures !s.allowDuplicateReading ==> r.seen == seen
  {
    if s.allowDuplicateReading then
      if payload !in seen then Outcome(SuccessFeedback(s, payload), seen + {payload})
      else Outcome([], seen)
    else
      Outcome(SuccessFeedback(s, payload), seen)
  }

  /** A read that gets through the gate issues its sound and haptic only
      when their switches are on, and no bounding-box update. */
  lemma GateFeedback(s: Settings, seen: set<string>, payload: string)
    ensures var r := Gate(s, seen, payload);
            && Logs(r.events) == (if s.allowDuplicateReading && payload in seen then [] else [payload])
            && Count(r.events, SoundTag) == (if s.makeSound then |Logs(r.events)| else 0)
            && Count(r.events, HapticTag) == (if s.makeHapticFeedback then |Logs(r.events)| else 0)
            && Count(r.events, BoxTag) == 0
  {
    SuccessFeedbackCounts(s, payload);
  }

  /** One delegate callback: walk the batch in order; the first object whose
      guards fail ends the callback. */
  function Run(s: Settings, seen: set<string>, objs: seq<MetadataObject>): (r: Outcome)
    ensures seen <= r.seen
    ensures !s.allowDuplicateReading ==> r.seen == seen
    decreases |objs|
  {
    if objs == [] then Outcome([], seen)
    else match Decide(s, objs[0])
      case Abort => Outcome([], seen)
      case Proceed(payload, box) =>
        var g := Gate(s, seen, payload);
        var rest := Run(s, g.seen, objs[1..]);
        Outcome(box + g.events + rest.events, rest.seen)
  }

  lemma RunAborts(s: Settings, seen: set<string>, objs: seq<MetadataObject>)
    requires objs != [] && Decide(s, objs[0]).Abort?
    ensures Run(s, seen, objs) == Outcome([], seen)
  {
  }

  lemma RunProceeds(s: Settings, seen: set<string>, objs: seq<MetadataObject>, payload: string, box: seq<Event>)
    requires objs != [] && Decide(s, objs[0]) == Proceed(payload, box)
    ensures var g := Gate(s, seen, payload);
            Run(s, seen, objs) ==
              Outcome(box + g.events + Run(s, g.seen, objs[1..]).events, Run(s, g.seen, objs[1..]).seen)
  {
  }

  /** The payloads of the objects a callback gets through the guards for,
      in order: the batch up to, not including, the first rejected object. */
  function Accepted(s: Settings, objs: seq<MetadataObject>): seq<string>
  {
    if objs == [] then []
    else match Decide(s, objs[0])
      case Abort => []
      case Proceed(payload, _) => [payload] + Accepted(s, objs[1..])
  }

  /** One delegate callback: the switch settings it sees and its batch.  The
      sound, haptic and bounding-box switches may move between callbacks
      without touching the history, so each callback carries its own. */
  datatype Callback = Callback(settings: Settings, objs: seq<MetadataObject>)

  /** A sequence of callbacks with no duplicate-switch action in between:
      the history is threaded through, the other switches may differ from
      one callback to the next. */
  function RunSession(seen: set<string>, callbacks: seq<Callback>): Outcome
    decreases |callbacks|
  {
    if callbacks == [] then Outcome([], seen)
    else
      var first := Run(callbacks[0].settings, seen, callbacks[0].objs);
      var rest := RunSession(first.seen, callbacks[1..]);
      Outcome(first.events + rest.events, rest.seen)
  }

  function AllAccepted(callbacks: seq<Callback>): seq<string>
  {
    if callbacks == [] then []
    else Accepted(callbacks[0].settings, callbacks[0].objs) + AllAccepted(callbacks[1..])
  }

  /** Every callback of a session sees allowDuplicateReading ON. */
  predicate SuppressionOn(callbacks: seq<Callback>)
  {
    forall i :: 0 <= i < |callbacks| ==> callbacks[i].settings.allowDuplicateReading
  }

  function Elements(ps: seq<string>): set<string>
  {
    set p | p in ps
  }

  predicate Distinct(ps: seq<string>)
  {
    forall i, j :: 0 <= i < j < |ps| ==> ps[i] != ps[j]
  }

  /** Reference definition of duplicate suppression: keep an element exactly
      when it is neither in the history nor earlier in the sequence. */
  function FirstOccurrences(ps: seq<string>, seen: set<string>): seq<string>
    decreases |ps|
  {
    if ps == [] then []
    else
      var init, last := ps[..|ps| - 1], ps[|ps| - 1];
      FirstOccurrences(init, seen) + (if last !in seen && last !in init then [last] else [])
  }
}
