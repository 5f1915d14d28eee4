/** What the scan handler promises, stated about the pure model: which
    payloads get logged, when the history changes, which objects end a
    callback early, and when sounds, haptics and boxes are issued. */
module ScanProperties {
  import opened Metadata
  import opened ScanGate

  lemma ElementsAppend(a: seq<string>, b: seq<string>)
    ensures Elements(a + b) == Elements(a) + Elements(b)
  {
    assert forall p :: p in a + b <==> p in a || p in b;
  }

  // ---------------------------------------------------------------------
  // The reference definition of duplicate suppression

  /** Suppressing over a concatenation: the second part is suppressed
      against the history extended with everything in the first part. */
  lemma {:induction false} FirstOccurrencesAppend(a: seq<string>, b: seq<string>, seen: set<string>)
    ensures FirstOccurrences(a + b, seen) == FirstOccurrences(a, seen) + FirstOccurrences(b, seen + Elements(a))
    decreases |b|
  {
    if b == [] {
      assert a + b == a;
    } else {
      var init, last := b[..|b| - 1], b[|b| - 1];
      var ab := a + b;
      assert ab[..|ab| - 1] == a + init;
      assert ab[|ab| - 1] == last;
      FirstOccurrencesAppend(a, init, seen);
      assert (last !in seen && last !in a + init) == (last !in seen + Elements(a) && last !in init);
    }
  }

  /** Suppressing a sequence with a known first element. */
  lemma FirstOccurrencesCons(p: string, rest: seq<string>, seen: set<string>)
    ensures FirstOccurrences([p] + rest, seen) ==
              (if p !in seen then [p] else []) + FirstOccurrences(rest, seen + {p})
  {
    assert Elements([p]) == {p};
    FirstOccurrencesAppend([p], rest, seen);
    assert FirstOccurrences([p], seen) == if p !in seen then [p] else [];
  }

  /** An element is kept exactly when it occurs and is not in the history. */
  lemma {:induction false} FirstOccurrencesMembers(ps: seq<string>, seen: set<string>)
    ensures forall p :: p in FirstOccurrences(ps, seen) <==> p in ps && p !in seen
    decreases |ps|
  {
    if ps != [] {
      var init, last := ps[..|ps| - 1], ps[|ps| - 1];
      FirstOccurrencesMembers(init, seen);
      assert ps == init + [last];
    }
  }

  /** Nothing is kept twice. */
  lemma {:induction false} FirstOccurrencesDistinct(ps: seq<string>, seen: set<string>)
    ensures Distinct(FirstOccurrences(ps, seen))
    decreases |ps|
  {
    if ps != [] {
      var init, last := ps[..|ps| - 1], ps[|ps| - 1];
      FirstOccurrencesDistinct(init, seen);
      FirstOccurrencesMembers(init, seen);
    }
  }

  // ---------------------------------------------------------------------
  // One callback

  /** The log of a callback whose first object is accepted. */
  lemma RunStepLogs(s: Settings, seen: set<string>, objs: seq<MetadataObject>, payload: string, box: seq<Event>)
    requires objs != [] && Decide(s, objs[0]) == Proceed(payload, box)
    ensures var g := Gate(s, seen, payload);
            Logs(Run(s, seen, objs).events) == Logs(g.events) + Logs(Run(s, g.seen, objs[1..]).events)
  {
    var g := Gate(s, seen, payload);
    var rest := Run(s, g.seen, objs[1..]);
    LogsAppend(box + g.events, rest.events);
    LogsAppend(box, g.events);
    assert Logs(box) == [];
  }

  /** The event counts of a callback whose first object is accepted. */
  lemma RunStepCount(s: Settings, seen: set<string>, objs: seq<MetadataObject>, payload: string, box: seq<Event>, t: EventTag)
    requires objs != [] && Decide(s, objs[0]) == Proceed(payload, box)
    ensures var g := Gate(s, seen, payload);
            Count(Run(s, seen, objs).events, t) ==
              (if t == BoxTag && s.showBoundingBox then 1 else 0)
              + Count(g.events, t) + Count(Run(s, g.seen, objs[1..]).events, t)
  {
    var g := Gate(s, seen, payload);
    var rest := Run(s, g.seen, objs[1..]);
    CountAppend(box + g.events, rest.events, t);
    CountAppend(box, g.events, t);
  }

  /** With allowDuplicateReading ON a callback adds exactly its accepted
      payloads to the history. */
  lemma {:induction false} SuppressionRecordsAccepted(s: Settings, seen: set<string>, objs: seq<MetadataObject>)
    requires s.allowDuplicateReading
    ensures Run(s, seen, objs).seen == seen + Elements(Accepted(s, objs))
    decreases |objs|
  {
    if objs == [] {
      assert Elements([]) == {};
    } else {
      match Decide(s, objs[0])
      case Abort =>
        assert Elements([]) == {};
      case Proceed(payload, box) =>
        var g := Gate(s, seen, payload);
        var acc := Accepted(s, objs[1..]);
        assert g.seen == seen + {payload};
        SuppressionRecordsAccepted(s, g.seen, objs[1..]);
        assert Accepted(s, objs) == [payload] + acc;
        assert Elements([payload]) == {payload};
        ElementsAppend([payload], acc);
    }
  }

  /** With allowDuplicateReading ON the log of a callback is exactly the
      first occurrences of the accepted payloads that are not yet in the
      history, in order. */
  lemma {:induction false} SuppressionLogsFirstOccurrences(s: Settings, seen: set<string>, objs: seq<MetadataObject>)
    requires s.allowDuplicateReading
    ensures Logs(Run(s, seen, objs).events) == FirstOccurrences(Accepted(s, objs), seen)
    decreases |objs|
  {
    if objs != [] {
      match Decide(s, objs[0])
      case Abort =>
      case Proceed(payload, box) =>
        var g := Gate(s, seen, payload);
        var rest := Run(s, g.seen, objs[1..]);
        var acc := Accepted(s, objs[1..]);
        assert g.seen == seen + {payload};
        SuppressionLogsFirstOccurrences(s, g.seen, objs[1..]);
        RunStepLogs(s, seen, objs, payload, box);
        GateFeedback(s, seen, payload);
        assert Accepted(s, objs) == [payload] + acc;
        FirstOccurrencesCons(payload, acc, seen);
    }
  }

  /** With allowDuplicateReading OFF every accepted payload is logged, repeats
      included, in order, and the history is untouched. */
  lemma {:induction false} EveryDetectionLogged(s: Settings, seen: set<string>, objs: seq<MetadataObject>)
    requires !s.allowDuplicateReading
    ensures Logs(Run(s, seen, objs).events) == Accepted(s, objs)
    ensures Run(s, seen, objs).seen == seen
    decreases |objs|
  {
    if objs != [] {
      match Decide(s, objs[0])
      case Abort =>
      case Proceed(payload, box) =>
        var g := Gate(s, seen, payload);
        EveryDetectionLogged(s, g.seen, objs[1..]);
        GateFeedback(s, seen, payload);
        RunStepLogs(s, seen, objs, payload, box);
    }
  }

  /** With allowDuplicateReading ON a callback logs no payload twice, logs no
      payload already in the history, and logs every accepted payload that is
      not in the history. */
  lemma SuppressedCallbackLogsOnce(s: Settings, seen: set<string>, objs: seq<MetadataObject>)
    requires s.allowDuplicateReading
    ensures Distinct(Logs(Run(s, seen, objs).events))
    ensures forall p :: p in Logs(Run(s, seen, objs).events) <==> p in Accepted(s, objs) && p !in seen
  {
    SuppressionLogsFirstOccurrences(s, seen, objs);
    FirstOccurrencesDistinct(Accepted(s, objs), seen);
    FirstOccurrencesMembers(Accepted(s, objs), seen);
  }

  /** An object whose guards fail ends the callback: neither it nor anything
      after it issues an event or changes the history. */
  lemma {:induction false} AbortedObjectEndsCallback(
    s: Settings, seen: set<string>,
    prefix: seq<MetadataObject>, bad: MetadataObject, tail: seq<MetadataObject>)
    requires Decide(s, bad).Abort?
    ensures Run(s, seen, prefix + [bad] + tail) == Run(s, seen, prefix)
    ensures Accepted(s, prefix + [bad] + tail) == Accepted(s, prefix)
    decreases |prefix|
  {
    var objs := prefix + [bad] + tail;
    if prefix == [] {
      assert objs[0] == bad;
    } else {
      assert objs[0] == prefix[0];
      assert objs[1..] == prefix[1..] + [bad] + tail;
      match Decide(s, prefix[0])
      case Abort =>
      case Proceed(payload, box) =>
        AbortedObjectEndsCallback(s, Gate(s, seen, payload).seen, prefix[1..], bad, tail);
        AbortedObjectEndsCallback(s, seen, prefix[1..], bad, tail);
    }
  }

  /** An object that is not a QR code or has no string value ends the
      callback, whatever the settings. */
  lemma UnreadableObjectEndsCallback(
    s: Settings, seen: set<string>,
    prefix: seq<MetadataObject>, bad: MetadataObject, tail: seq<MetadataObject>)
    requires bad.kind != QrCode || bad.stringValue.None?
    ensures Run(s, seen, prefix + [bad] + tail) == Run(s, seen, prefix)
  {
    AbortedObjectEndsCallback(s, seen, prefix, bad, tail);
  }

  /** With the bounding box shown, a QR code whose preview transform fails
      ends the callback before any of its own events. */
  lemma FailedTransformEndsCallback(
    s: Settings, seen: set<string>,
    prefix: seq<MetadataObject>, bad: MetadataObject, tail: seq<MetadataObject>)
    requires s.showBoundingBox && bad.transformed.None?
    ensures Run(s, seen, prefix + [bad] + tail) == Run(s, seen, prefix)
  {
    AbortedObjectEndsCallback(s, seen, prefix, bad, tail);
  }

  /** A callback posts one bounding-box update per accepted object when the
      box is shown, and none when it is hidden. */
  lemma {:induction false} BoxesFollowSwitch(s: Settings, seen: set<string>, objs: seq<MetadataObject>)
    ensures Count(Run(s, seen, objs).events, BoxTag) ==
              if s.showBoundingBox then |Accepted(s, objs)| else 0
    decreases |objs|
  {
    if objs != [] {
      match Decide(s, objs[0])
      case Abort =>
      case Proceed(payload, box) =>
        var g := Gate(s, seen, payload);
        var rest := Run(s, g.seen, objs[1..]);
        BoxesFollowSwitch(s, g.seen, objs[1..]);
        GateFeedback(s, seen, payload);
        RunStepCount(s, seen, objs, payload, box, BoxTag);
    }
  }

  /** Every log line of a callback comes with exactly one success sound when
      the sound switch is on and with none when it is off; likewise for the
      success haptic and its switch. */
  lemma {:induction false} FeedbackFollowsSwitches(s: Settings, seen: set<string>, objs: seq<MetadataObject>)
    ensures Count(Run(s, seen, objs).events, SoundTag) ==
              if s.makeSound then |Logs(Run(s, seen, objs).events)| else 0
    ensures Count(Run(s, seen, objs).events, HapticTag) ==
              if s.makeHapticFeedback then |Logs(Run(s, seen, objs).events)| else 0
    decreases |objs|
  {
    if objs != [] {
      match Decide(s, objs[0])
      case Abort =>
      case Proceed(payload, box) =>
        var g := Gate(s, seen, payload);
        var rest := Run(s, g.seen, objs[1..]);
        FeedbackFollowsSwitches(s, g.seen, objs[1..]);
        GateFeedback(s, seen, payload);
        RunStepLogs(s, seen, objs, payload, box);
        RunStepCount(s, seen, objs, payload, box, SoundTag);
        RunStepCount(s, seen, objs, payload, box, HapticTag);
    }
  }

  /** Which objects are accepted depends on the bounding-box switch only. */
  lemma {:induction false} AcceptedIgnoresOtherSwitches(s1: Settings, s2: Settings, objs: seq<MetadataObject>)
    requires s1.showBoundingBox == s2.showBoundingBox
    ensures Accepted(s1, objs) == Accepted(s2, objs)
    decreases |objs|
  {
    if objs != [] {
      assert Decide(s1, objs[0]) == Decide(s2, objs[0]);
      AcceptedIgnoresOtherSwitches(s1, s2, objs[1..]);
    }
  }

  /** The sound and haptic switches change neither the history nor what is
      logged. */
  lemma FeedbackSwitchesIndependent(s1: Settings, s2: Settings, seen: set<string>, objs: seq<MetadataObject>)
    requires s1.allowDuplicateReading == s2.allowDuplicateReading
    requires s1.showBoundingBox == s2.showBoundingBox
    ensures Run(s1, seen, objs).seen == Run(s2, seen, objs).seen
    ensures Logs(Run(s1, seen, objs).events) == Logs(Run(s2, seen, objs).events)
  {
    AcceptedIgnoresOtherSwitches(s1, s2, objs);
    if s1.allowDuplicateReading {
      SuppressionLogsFirstOccurrences(s1, seen, objs);
      SuppressionLogsFirstOccurrences(s2, seen, objs);
      SuppressionRecordsAccepted(s1, seen, objs);
      SuppressionRecordsAccepted(s2, seen, objs);
    } else {
      EveryDetectionLogged(s1, seen, objs);
      EveryDetectionLogged(s2, seen, objs);
    }
  }

  // ---------------------------------------------------------------------
  // Several callbacks between two duplicate-switch actions

  /** The history only grows over callbacks, whatever the switches. */
  lemma {:induction false} SessionHistoryGrows(seen: set<string>, callbacks: seq<Callback>)
    ensures seen <= RunSession(seen, callbacks).seen
    decreases |callbacks|
  {
    if callbacks != [] {
      SessionHistoryGrows(Run(callbacks[0].settings, seen, callbacks[0].objs).seen, callbacks[1..]);
    }
  }

  /** Over several callbacks with allowDuplicateReading ON, whatever the
      other switches do in between, the log is the first occurrences of all
      accepted payloads not in the starting history. */
  lemma {:induction false} SessionLogsFirstOccurrences(seen: set<string>, callbacks: seq<Callback>)
    requires SuppressionOn(callbacks)
    ensures Logs(RunSession(seen, callbacks).events) == FirstOccurrences(AllAccepted(callbacks), seen)
    ensures RunSession(seen, callbacks).seen == seen + Elements(AllAccepted(callbacks))
    decreases |callbacks|
  {
    if callbacks == [] {
      assert Elements([]) == {};
    } else {
      var s, objs := callbacks[0].settings, callbacks[0].objs;
      assert s.allowDuplicateReading;
      var first := Run(s, seen, objs);
      var acc0, accRest := Accepted(s, objs), AllAccepted(callbacks[1..]);
      SuppressionLogsFirstOccurrences(s, seen, objs);
      SuppressionRecordsAccepted(s, seen, objs);
      assert SuppressionOn(callbacks[1..]) by {
        forall i | 0 <= i < |callbacks[1..]| ensures callbacks[1..][i].settings.allowDuplicateReading {
          assert callbacks[1..][i] == callbacks[i + 1];
        }
      }
      SessionLogsFirstOccurrences(first.seen, callbacks[1..]);
      LogsAppend(first.events, RunSession(first.seen, callbacks[1..]).events);
      FirstOccurrencesAppend(acc0, accRest, seen);
      ElementsAppend(acc0, accRest);
    }
  }

  /** Between two duplicate-switch actions with allowDuplicateReading ON,
      each payload is logged at most once, and every accepted payload not in
      the starting history is logged. */
  lemma SessionLogsAtMostOnce(seen: set<string>, callbacks: seq<Callback>)
    requires SuppressionOn(callbacks)
    ensures Distinct(Logs(RunSession(seen, callbacks).events))
    ensures forall p :: p in Logs(RunSession(seen, callbacks).events) <==>
                          p in AllAccepted(callbacks) && p !in seen
  {
    SessionLogsFirstOccurrences(seen, callbacks);
    FirstOccurrencesDistinct(AllAccepted(callbacks), seen);
    FirstOccurrencesMembers(AllAccepted(callbacks), seen);
  }

  // ---------------------------------------------------------------------
  // Worked examples

  /** A QR code with a readable payload and a successful preview transform. */
  function ReadableQr(payload: string): MetadataObject
  {
    MetadataObject(QrCode, Some(payload), Some([]))
  }

  /** With suppression on and an empty history, reading a, b, a, c logs
      a, b, c. */
  lemma SuppressionExample(s: Settings, a: string, b: string, c: string)
    requires s.allowDuplicateReading
    requires a != b && a != c && b != c
    ensures Logs(Run(s, {}, [ReadableQr(a), ReadableQr(b), ReadableQr(a), ReadableQr(c)]).events)
              == [a, b, c]
  {
    var objs := [ReadableQr(a), ReadableQr(b), ReadableQr(a), ReadableQr(c)];
    assert Accepted(s, objs) == [a, b, a, c] by {
      assert Accepted(s, objs[3..]) == [c];
      assert Accepted(s, objs[2..]) == [a, c];
      assert Accepted(s, objs[1..]) == [b, a, c];
    }
    assert FirstOccurrences([a, b, a, c], {}) == [a, b, c] by {
      assert [a, b, a, c] == [a] + [b, a, c];
      FirstOccurrencesCons(a, [b, a, c], {});
      assert [b, a, c] == [b] + [a, c];
      FirstOccurrencesCons(b, [a, c], {} + {a});
      assert [a, c] == [a] + [c];
      FirstOccurrencesCons(a, [c], {} + {a} + {b});
      assert [c] == [c] + [];
      FirstOccurrencesCons(c, [], {} + {a} + {b} + {a});
    }
    SuppressionLogsFirstOccurrences(s, {}, objs);
  }

  /** With suppression off, reading a three times logs a three times. */
  lemma PassThroughExample(s: Settings, seen: set<string>, a: string)
    requires !s.allowDuplicateReading
    ensures Logs(Run(s, seen, [ReadableQr(a), ReadableQr(a), ReadableQr(a)]).events) == [a, a, a]
  {
    var objs := [ReadableQr(a), ReadableQr(a), ReadableQr(a)];
    assert Accepted(s, objs[2..]) == [a];
    assert Accepted(s, objs[1..]) == [a, a];
    EveryDetectionLogged(s, seen, objs);
  }
}
