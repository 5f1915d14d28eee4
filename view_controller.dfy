/** The view controller as an object: its four scanning switch fields, the history of
    scanned payloads, the bounding-box layer, the switch actions and the
    metadata delegate callback, each proved against the pure model. */
module Controller {
  import opened Metadata
  import opened ScanGate
  import opened BoundingPath
  import opened ScanProperties

  /** The shape layer that draws the outline of the tracked code; a new
      layer has no path and is not hidden. */
  class ShapeLayer {
    var path: seq<PathElement>
    var isHidden: bool

    constructor ()
      ensures path == [] && !isHidden
    {
      path := [];
      isHidden := false;
    }
  }

  class ViewController {
    var allowDuplicateReading: bool
    var makeSound: bool
    var makeHapticFeedback: bool
    var showBoundingBox: bool
    var scannedQRs: set<string>
    const boundingBox: ShapeLayer

    /** Every switch starts off and the history starts empty. */
    constructor ()
      ensures CurrentSettings() == Settings(false, false, false, false)
      ensures scannedQRs == {}
      ensures fresh(boundingBox) && boundingBox.path == [] && !boundingBox.isHidden
    {
      allowDuplicateReading := false;
      makeSound := false;
      makeHapticFeedback := false;
      showBoundingBox := false;
      scannedQRs := {};
      boundingBox := new ShapeLayer();
    }

    function CurrentSettings(): Settings
      reads this
    {
      Settings(allowDuplicateReading, makeSound, makeHapticFeedback, showBoundingBox)
    }

    // -------------------------------------------------------------------
    // Switch actions

    /** The duplicate switch: clears the history whichever way it moves. */
    method SetAllowDuplicateReading(isOn: bool)
      modifies this
      ensures scannedQRs == {}
      ensures CurrentSettings() == old(CurrentSettings()).(allowDuplicateReading := isOn)
    {
      scannedQRs := {};
      if isOn {
        allowDuplicateReading := true;
      } else {
        allowDuplicateReading := false;
      }
    }

    method SetMakeSound(isOn: bool)
      modifies this
      ensures scannedQRs == old(scannedQRs)
      ensures CurrentSettings() == old(CurrentSettings()).(makeSound := isOn)
    {
      if isOn {
        makeSound := true;
      } else {
        makeSound := false;
      }
    }

    method SetMakeHaptic(isOn: bool)
      modifies this
      ensures scannedQRs == old(scannedQRs)
      ensures CurrentSettings() == old(CurrentSettings()).(makeHapticFeedback := isOn)
    {
      if isOn {
        makeHapticFeedback := true;
      } else {
        makeHapticFeedback := false;
      }
    }

    method SetShowBoundingBox(isOn: bool)
      modifies this
      ensures scannedQRs == old(scannedQRs)
      ensures CurrentSettings() == old(CurrentSettings()).(showBoundingBox := isOn)
    {
      if isOn {
        showBoundingBox := true;
      } else {
        showBoundingBox := false;
      }
    }

    // -------------------------------------------------------------------
    // Feedback

    method PlaySuccessSound() returns (e: seq<Event>)
      ensures e == SuccessSound(makeSound)
    {
      e := [];
      if makeSound {
        e := [Sound];
      }
    }

    method HapticSuccessNotification() returns (e: seq<Event>)
      ensures e == SuccessHaptic(makeHapticFeedback)
    {
      e := [];
      if makeHapticFeedback {
        e := [Haptic];
      }
    }

    /** Draws the outline through the given corners and shows it; an empty
        corner list leaves the layer as it was. */
    method UpdateBoundingBox(points: seq<Point>)
      modifies boundingBox
      ensures points == [] ==>
                boundingBox.path == old(boundingBox.path) && boundingBox.isHidden == old(boundingBox.isHidden)
      ensures points != [] ==>
                IsClosedPolygon(points, boundingBox.path) && boundingBox.path == ClosedPath(points)
      ensures points != [] ==> !boundingBox.isHidden
    {
      if points == [] {
        return;
      }
      var firstPoint := points[0];
      var path := [MoveTo(firstPoint)];

      var newPoints := points;
      newPoints := newPoints[1..];
      newPoints := newPoints + [firstPoint];

      for i := 0 to |newPoints|
        invariant |path| == i + 1 && path[0] == MoveTo(firstPoint)
        invariant forall k :: 0 <= k < i ==> path[k + 1] == LineTo(newPoints[k])
      {
        path := path + [LineTo(newPoints[i])];
      }

      assert forall k :: 1 <= k < |points| ==> path[k] == LineTo(points[k]) by {
        forall k | 1 <= k < |points| ensures path[k] == LineTo(points[k]) {
          assert path[(k - 1) + 1] == LineTo(newPoints[k - 1]);
        }
      }
      assert path[|points|] == LineTo(newPoints[|points| - 1]);
      ClosedPolygonUnique(points, path);
      boundingBox.path := path;
      boundingBox.isHidden := false;
    }

    // -------------------------------------------------------------------
    // The metadata delegate callback

    /** The duplicate gate of the callback for one read payload: with
        allowDuplicateReading on, only a payload not yet in the history is
        reported, and it is recorded; with it off, every payload is reported
        and the history is left alone. */
    method ReportRead(stringValue: string) returns (feedback: seq<Event>)
      modifies this`scannedQRs
      ensures feedback == Gate(CurrentSettings(), old(scannedQRs), stringValue).events
      ensures scannedQRs == Gate(CurrentSettings(), old(scannedQRs), stringValue).seen
    {
      feedback := [];
      if allowDuplicateReading {
        if stringValue !in scannedQRs {
          scannedQRs := scannedQRs + {stringValue};
          var snd := PlaySuccessSound();
          var hap := HapticSuccessNotification();
          feedback := snd + hap + [Log(stringValue)];
        }
      } else {
        var snd := PlaySuccessSound();
        var hap := HapticSuccessNotification();
        feedback := snd + hap + [Log(stringValue)];
      }
    }

    /** Handles one batch of detected objects in order and returns the events
        it issues; the history is updated as the pure model says. */
    method MetadataOutput(metadataObjects: seq<MetadataObject>) returns (events: seq<Event>)
      modifies this`scannedQRs
      ensures CurrentSettings() == old(CurrentSettings())
      ensures events == Run(old(CurrentSettings()), old(scannedQRs), metadataObjects).events
      ensures scannedQRs == Run(old(CurrentSettings()), old(scannedQRs), metadataObjects).seen
      ensures old(scannedQRs) <= scannedQRs
    {
      var s := CurrentSettings();
      ghost var total := Run(s, scannedQRs, metadataObjects);
      events := [];
      for i := 0 to |metadataObjects|
        invariant total.events == events + Run(s, scannedQRs, metadataObjects[i..]).events
        invariant total.seen == Run(s, scannedQRs, metadataObjects[i..]).seen
      {
        var metadataObject := metadataObjects[i];

        ghost var todo := metadataObjects[i..];
        assert todo != [] && todo[0] == metadataObject;
        assert todo[1..] == metadataObjects[i + 1..];
        ghost var before := scannedQRs;
        ghost var eventsBefore := events;

        if metadataObject.kind != QrCode || metadataObject.stringValue.None? {
          RunAborts(s, before, todo);
          return;
        }
        var stringValue := metadataObject.stringValue.value;

        var box := [];
        if showBoundingBox {
          match metadataObject.transformed
          case None =>
            RunAborts(s, before, todo);
            return;
          case Some(corners) =>
            box := [Box(corners)];
        }
        events := events + box;
        var feedback := ReportRead(stringValue);
        events := events + feedback;
        ghost var g := Gate(s, before, stringValue);
        assert Decide(s, metadataObject) == Proceed(stringValue, box);
        RunProceeds(s, before, todo, stringValue, box);
        ghost var rest := Run(s, scannedQRs, metadataObjects[i + 1..]);
        AppendAssociative(eventsBefore, box, g.events, rest.events);
      }
    }
  }

  /** The duplicate switch restores reporting: with suppression on, a second
      read of "A" is silent, and after the switch is turned off and on again
      "A" is logged again. */
  method RescanAfterToggle() returns (first: seq<Event>, repeat: seq<Event>, afterToggle: seq<Event>)
    ensures Logs(first) == ["A"] && Logs(repeat) == [] && Logs(afterToggle) == ["A"]
  {
    var qr := MetadataObject(QrCode, Some("A"), Some([]));
    var vc := new ViewController();
    vc.SetAllowDuplicateReading(true);
    first := vc.MetadataOutput([qr]);
    repeat := vc.MetadataOutput([qr]);
    vc.SetAllowDuplicateReading(false);
    vc.SetAllowDuplicateReading(true);
    afterToggle := vc.MetadataOutput([qr]);
    SuppressionLogsFirstOccurrences(vc.CurrentSettings(), {}, [qr]);
    SuppressionLogsFirstOccurrences(vc.CurrentSettings(), {"A"}, [qr]);
  }
}
