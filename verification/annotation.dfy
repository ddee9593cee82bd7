/** The per-frame drawing decision of the animal detector.

    For each detector result of a frame, and for each box of that result in the
    detector's order, a box whose confidence is strictly above 0.4 is drawn: a
    rectangle and a label, both in the colour of its class, the label naming the
    class through the result's class-name table. Boxes at or below the threshold
    are skipped. Looking up a class id that the table lacks raises an error that
    ends the program; here it is the `UnknownClass` outcome.

    The model computes the list of annotations that would be drawn, not the
    drawing itself. */
module Annotation {
  import opened Colours

  /** Boxes must score strictly above this confidence to be drawn. */
  const ConfidenceThreshold: real := 0.4

  /** Corner coordinates of a bounding box, already converted to integers. */
  datatype Box = Box(x1: int, y1: int, x2: int, y2: int)

  /** One box reported by the detector: class id, confidence and corners. */
  datatype Detection = Detection(cls: nat, conf: real, box: Box)

  /** One detector result: the model's class-name table and the boxes it found. */
  datatype DetectorResult = DetectorResult(names: map<nat, string>, boxes: seq<Detection>)

  /** What is drawn for one kept box: the rectangle's corners, its colour, and a
      label made of the class name and the confidence, placed at the first corner. */
  datatype Mark = Mark(box: Box, colour: Bgr, cls: nat, name: string, conf: real)

  /** Either every annotation of a frame, in drawing order, or the first class id
      whose name lookup failed. */
  datatype Plan = Planned(marks: seq<Mark>) | UnknownClass(cls: nat)

  /** Whether a detection passes the confidence filter. */
  predicate Kept(d: Detection) {
    d.conf > ConfidenceThreshold
  }

  /** The detections that pass the filter, in the detector's order. */
  function Filter(ds: seq<Detection>): (kept: seq<Detection>)
    ensures |kept| <= |ds|
    ensures forall d :: d in kept <==> d in ds && Kept(d)
  {
    if ds == [] then []
    else if Kept(ds[0]) then [ds[0]] + Filter(ds[1..])
    else Filter(ds[1..])
  }

  /** The annotation drawn for a kept detection whose class is named. */
  function MarkOf(d: Detection, names: map<nat, string>): Mark
    requires d.cls in names
  {
    Mark(d.box, GetColours(d.cls), d.cls, names[d.cls], d.conf)
  }

  /** `marks` is exactly the annotation of each detection of `ds`, in order. */
  ghost predicate MarksOf(marks: seq<Mark>, ds: seq<Detection>, names: map<nat, string>) {
    && |marks| == |ds|
    && forall k :: 0 <= k < |ds| ==> ds[k].cls in names && marks[k] == MarkOf(ds[k], names)
  }

  /** Every kept detection of `ds` has a class name in `names`. */
  ghost predicate AllKeptNamed(ds: seq<Detection>, names: map<nat, string>) {
    forall i :: 0 <= i < |ds| && Kept(ds[i]) ==> ds[i].cls in names
  }

  /** The annotations of one detector result, processed box by box in order; the
      first kept box with an unnamed class stops the frame. */
  function PlanBoxes(ds: seq<Detection>, names: map<nat, string>): (p: Plan)
    ensures p.Planned? ==> |p.marks| == |Filter(ds)|
    ensures p.UnknownClass? ==> p.cls !in names && exists d :: d in ds && Kept(d) && d.cls == p.cls
  {
    if ds == [] then Planned([])
    else if !Kept(ds[0]) then PlanBoxes(ds[1..], names)
    else if ds[0].cls !in names then UnknownClass(ds[0].cls)
    else
      match PlanBoxes(ds[1..], names)
      case Planned(rest) => Planned([MarkOf(ds[0], names)] + rest)
      case UnknownClass(c) => UnknownClass(c)
  }

  /** The annotations of a whole frame: each detector result in turn, the first
      unnamed class stopping everything. */
  function PlanFrame(rs: seq<DetectorResult>): (p: Plan)
    ensures p.UnknownClass? ==> exists r, d :: r in rs && d in r.boxes && Kept(d) && d.cls == p.cls && p.cls !in r.names
    ensures p.Planned? ==> |p.marks| <= |FrameBoxes(rs)|
  {
    if rs == [] then Planned([])
    else
      match PlanBoxes(rs[0].boxes, rs[0].names)
      case UnknownClass(c) => UnknownClass(c)
      case Planned(first) =>
        match PlanFrame(rs[1..])
        case Planned(rest) => Planned(first + rest)
        case UnknownClass(c) => UnknownClass(c)
  }

  /** All boxes of a frame, result after result. */
  function FrameBoxes(rs: seq<DetectorResult>): seq<Detection> {
    if rs == [] then [] else rs[0].boxes + FrameBoxes(rs[1..])
  }

  /** The annotation of each detection of `ds`, in order. */
  function MarkAll(ds: seq<Detection>, names: map<nat, string>): seq<Mark>
    requires forall d :: d in ds ==> d.cls in names
  {
    seq(|ds|, k requires 0 <= k < |ds| => MarkOf(ds[k], names))
  }

  /** Reference definition of what a frame draws: for each result in turn, the
      annotation of each of its kept boxes, named through that result's table. */
  function FrameMarks(rs: seq<DetectorResult>): seq<Mark>
    requires forall i :: 0 <= i < |rs| ==> AllKeptNamed(rs[i].boxes, rs[i].names)
  {
    if rs == [] then []
    else
      KeptNamed(rs[0].boxes, rs[0].names);
      MarkAll(Filter(rs[0].boxes), rs[0].names) + FrameMarks(rs[1..])
  }

  /** Under `AllKeptNamed`, every detection that passes the filter has a name. */
  lemma KeptNamed(ds: seq<Detection>, names: map<nat, string>)
    requires AllKeptNamed(ds, names)
    ensures forall d :: d in Filter(ds) ==> d.cls in names
  {
    forall d | d in Filter(ds)
      ensures d.cls in names
    {
      var i :| 0 <= i < |ds| && ds[i] == d;
    }
  }

  /** The filter distributes over concatenation, so it keeps the detector's order. */
  lemma {:induction false} FilterAppend(a: seq<Detection>, b: seq<Detection>)
    ensures Filter(a + b) == Filter(a) + Filter(b)
  {
    if a == [] {
      assert a + b == b;
    } else {
      assert (a + b)[1..] == a[1..] + b;
      FilterAppend(a[1..], b);
    }
  }

  /** Filtering twice keeps what filtering once keeps. */
  lemma {:induction false} FilterIdempotent(ds: seq<Detection>)
    ensures Filter(Filter(ds)) == Filter(ds)
  {
    if ds != [] {
      FilterIdempotent(ds[1..]);
      if Kept(ds[0]) {
        assert ([ds[0]] + Filter(ds[1..]))[1..] == Filter(ds[1..]);
      }
    }
  }

  /** A box whose confidence is exactly the threshold is never drawn, whatever
      boxes surround it: it does not pass the filter, and no annotation of the
      result carries its confidence. */
  lemma AtThresholdNotDrawn(ds: seq<Detection>, names: map<nat, string>, d: Detection)
    requires d in ds && d.conf == ConfidenceThreshold
    ensures d !in Filter(ds)
    ensures PlanBoxes(ds, names).Planned? ==> forall m :: m in PlanBoxes(ds, names).marks ==> m.conf != d.conf
  {
    PlanBoxesMeaning(ds, names);
    if PlanBoxes(ds, names).Planned? {
      var marks := PlanBoxes(ds, names).marks;
      forall m | m in marks
        ensures m.conf != d.conf
      {
        var k :| 0 <= k < |marks| && marks[k] == m;
        assert Filter(ds)[k] in Filter(ds);
      }
    }
  }

  /** A box above the threshold with a named class is drawn, and only it. */
  lemma AboveThresholdDrawn(d: Detection, names: map<nat, string>)
    requires d.conf > ConfidenceThreshold && d.cls in names
    ensures PlanBoxes([d], names) == Planned([MarkOf(d, names)])
  {
  }

  /** A result's boxes are planned exactly when every kept box has a class name,
      and then the plan is the annotation of each kept box, in the detector's order. */
  lemma PlanBoxesMeaning(ds: seq<Detection>, names: map<nat, string>)
    ensures PlanBoxes(ds, names).Planned? <==> AllKeptNamed(ds, names)
    ensures PlanBoxes(ds, names).Planned? ==> MarksOf(PlanBoxes(ds, names).marks, Filter(ds), names)
  {
    PlanBoxesPlannedIff(ds, names);
    if PlanBoxes(ds, names).Planned? {
      PlanBoxesMarks(ds, names);
    }
  }

  /** `AllKeptNamed` splits into the first box and the rest. */
  lemma AllKeptNamedCons(ds: seq<Detection>, names: map<nat, string>)
    requires ds != []
    ensures AllKeptNamed(ds, names) <==>
      (Kept(ds[0]) ==> ds[0].cls in names) && AllKeptNamed(ds[1..], names)
  {
    assert forall i :: 1 <= i < |ds| ==> ds[i] == ds[1..][i - 1];
  }

  /** A result's boxes are planned exactly when every kept box has a class name. */
  lemma {:induction false} PlanBoxesPlannedIff(ds: seq<Detection>, names: map<nat, string>)
    ensures PlanBoxes(ds, names).Planned? <==> AllKeptNamed(ds, names)
  {
    if ds != [] {
      PlanBoxesPlannedIff(ds[1..], names);
      AllKeptNamedCons(ds, names);
    }
  }

  /** A planned result holds the annotation of each kept box, in order. */
  lemma {:induction false} PlanBoxesMarks(ds: seq<Detection>, names: map<nat, string>)
    requires PlanBoxes(ds, names).Planned?
    ensures MarksOf(PlanBoxes(ds, names).marks, Filter(ds), names)
  {
    if ds != [] {
      var tail := ds[1..];
      assert PlanBoxes(tail, names).Planned?;
      PlanBoxesMarks(tail, names);
      if Kept(ds[0]) {
        var rest := PlanBoxes(tail, names).marks;
        var marks := [MarkOf(ds[0], names)] + rest;
        var kept := [ds[0]] + Filter(tail);
        assert PlanBoxes(ds, names).marks == marks;
        assert Filter(ds) == kept;
        assert forall k :: 1 <= k < |kept| ==> kept[k] == Filter(tail)[k - 1] && marks[k] == rest[k - 1];
      }
    }
  }

  /** A failed plan names the first kept box whose class the table lacks. */
  lemma {:induction false} PlanBoxesFailure(ds: seq<Detection>, names: map<nat, string>)
    ensures PlanBoxes(ds, names).UnknownClass? ==>
      exists i :: 0 <= i < |ds| && Kept(ds[i]) && ds[i].cls == PlanBoxes(ds, names).cls
        && ds[i].cls !in names && AllKeptNamed(ds[..i], names)
  {
    if ds != [] && PlanBoxes(ds, names).UnknownClass? {
      if Kept(ds[0]) && ds[0].cls !in names {
        assert ds[..0] == [];
      } else {
        PlanBoxesFailure(ds[1..], names);
        var i :| 0 <= i < |ds[1..]| && Kept(ds[1..][i]) && ds[1..][i].cls == PlanBoxes(ds, names).cls
          && ds[1..][i].cls !in names && AllKeptNamed(ds[1..][..i], names);
        var prefix := ds[..i + 1];
        assert prefix == [ds[0]] + ds[1..][..i];
        assert AllKeptNamed(prefix, names) by {
          forall j | 0 <= j < i + 1 && Kept(prefix[j])
            ensures prefix[j].cls in names
          {
            if j > 0 {
              assert prefix[j] == ds[1..][..i][j - 1];
            }
          }
        }
      }
    }
  }

  /** Everything a planned frame draws passed the filter and carries the colour of
      its own class. */
  lemma {:induction false} FrameMarksWellFormed(rs: seq<DetectorResult>)
    ensures PlanFrame(rs).Planned? ==> forall m :: m in PlanFrame(rs).marks ==>
      m.conf > ConfidenceThreshold && m.colour == GetColours(m.cls)
  {
    if rs != [] && PlanFrame(rs).Planned? {
      PlanBoxesMeaning(rs[0].boxes, rs[0].names);
      FrameMarksWellFormed(rs[1..]);
      var first := PlanBoxes(rs[0].boxes, rs[0].names).marks;
      var kept := Filter(rs[0].boxes);
      forall m | m in first
        ensures m.conf > ConfidenceThreshold && m.colour == GetColours(m.cls)
      {
        var k :| 0 <= k < |first| && first[k] == m;
        assert kept[k] in kept;
      }
    }
  }

  /** Every kept box of a planned result is drawn at its own corners, in the colour
      of its own class id, labelled with that class's name and its confidence. */
  lemma KeptBoxesDrawnAsDetected(ds: seq<Detection>, names: map<nat, string>)
    ensures PlanBoxes(ds, names).Planned? ==> forall k :: 0 <= k < |Filter(ds)| ==>
      var d, m := Filter(ds)[k], PlanBoxes(ds, names).marks[k];
      && d.cls in names
      && m.box == d.box && m.cls == d.cls && m.conf == d.conf
      && m.colour == GetColours(d.cls) && m.name == names[d.cls]
  {
    PlanBoxesMeaning(ds, names);
  }

  /** A frame is drawn without error exactly when every result names all its
      kept boxes; it then draws, result after result, the annotation of each kept
      box, in the detector's order. */
  lemma {:induction false} PlanFrameMeaning(rs: seq<DetectorResult>)
    ensures PlanFrame(rs).Planned? <==> forall i :: 0 <= i < |rs| ==> AllKeptNamed(rs[i].boxes, rs[i].names)
    ensures PlanFrame(rs).Planned? ==> PlanFrame(rs).marks == FrameMarks(rs)
  {
    if rs != [] {
      PlanFrameMeaning(rs[1..]);
      PlanBoxesMeaning(rs[0].boxes, rs[0].names);
      assert forall i :: 1 <= i < |rs| ==> rs[i] == rs[1..][i - 1];
      if PlanFrame(rs).Planned? {
        KeptNamed(rs[0].boxes, rs[0].names);
        MarksOfUnique(PlanBoxes(rs[0].boxes, rs[0].names).marks,
                      MarkAll(Filter(rs[0].boxes), rs[0].names), Filter(rs[0].boxes), rs[0].names);
      }
    }
  }

  /** A frame with a single detector result draws exactly that result's plan. */
  lemma SingleResultFrame(r: DetectorResult)
    ensures PlanFrame([r]) == PlanBoxes(r.boxes, r.names)
  {
    if PlanBoxes(r.boxes, r.names).Planned? {
      assert PlanBoxes(r.boxes, r.names).marks + [] == PlanBoxes(r.boxes, r.names).marks;
    }
  }

  /** The box loop of one detector result, as the detector runs it: boxes are
      visited in order, kept boxes are annotated, and an unnamed class stops the
      loop. `drawn` lists the positions of the annotated boxes. */
  method DrawBoxes(ds: seq<Detection>, names: map<nat, string>) returns (p: Plan, drawn: seq<nat>)
    ensures p == PlanBoxes(ds, names)
    ensures p.Planned? ==> |drawn| == |p.marks|
    ensures p.Planned? ==> forall k :: 0 <= k < |drawn| ==>
      drawn[k] < |ds| && ds[drawn[k]].cls in names && p.marks[k] == MarkOf(ds[drawn[k]], names)
    ensures p.Planned? ==> forall k, l :: 0 <= k < l < |drawn| ==> drawn[k] < drawn[l]
    ensures p.Planned? ==> forall i :: 0 <= i < |ds| ==> (Kept(ds[i]) <==> i in drawn)
  {
    var marks: seq<Mark> := [];
    drawn := [];
    var i := 0;
    while i < |ds|
      invariant 0 <= i <= |ds|
      invariant AllKeptNamed(ds[..i], names)
      invariant MarksOf(marks, Filter(ds[..i]), names)
      invariant DrawnAt(drawn, marks, ds, names, i)
    {
      if Kept(ds[i]) && ds[i].cls !in names {
        p := UnknownClass(ds[i].cls);
        PlanBoxesFirstFailure(ds, names, i);
        return;
      }
      PlanStep(ds, names, i, marks);
      DrawnStep(drawn, marks, ds, names, i);
      if Kept(ds[i]) {
        marks := marks + [MarkOf(ds[i], names)];
        drawn := drawn + [i];
      }
      i := i + 1;
    }
    assert ds[..i] == ds;
    PlanBoxesMeaning(ds, names);
    MarksOfUnique(marks, PlanBoxes(ds, names).marks, Filter(ds), names);
    p := Planned(marks);
  }

  /** `drawn` lists, in increasing order, the positions below `upto` of the kept
      boxes of `ds`, and `marks` holds their annotations. */
  ghost predicate DrawnAt(drawn: seq<nat>, marks: seq<Mark>, ds: seq<Detection>, names: map<nat, string>, upto: nat) {
    && upto <= |ds|
    && |drawn| == |marks|
    && (forall k :: 0 <= k < |drawn| ==>
          drawn[k] < upto && ds[drawn[k]].cls in names && marks[k] == MarkOf(ds[drawn[k]], names))
    && (forall k, l :: 0 <= k < l < |drawn| ==> drawn[k] < drawn[l])
    && (forall j :: 0 <= j < upto ==> (Kept(ds[j]) <==> j in drawn))
  }

  /** One iteration of the box loop extends the drawn positions by the current box
      exactly when it is kept. */
  lemma DrawnStep(drawn: seq<nat>, marks: seq<Mark>, ds: seq<Detection>, names: map<nat, string>, i: nat)
    requires i < |ds| && DrawnAt(drawn, marks, ds, names, i)
    requires Kept(ds[i]) ==> ds[i].cls in names
    ensures Kept(ds[i]) ==> DrawnAt(drawn + [i], marks + [MarkOf(ds[i], names)], ds, names, i + 1)
    ensures !Kept(ds[i]) ==> DrawnAt(drawn, marks, ds, names, i + 1)
  {
  }

  /** The annotations of a sequence of detections are determined by it. */
  lemma MarksOfUnique(m1: seq<Mark>, m2: seq<Mark>, ds: seq<Detection>, names: map<nat, string>)
    requires MarksOf(m1, ds, names) && MarksOf(m2, ds, names)
    ensures m1 == m2
  {
  }

  /** One iteration of the box loop keeps the loop's account of the prefix seen so far. */
  lemma PlanStep(ds: seq<Detection>, names: map<nat, string>, i: nat, marks: seq<Mark>)
    requires i < |ds| && AllKeptNamed(ds[..i], names) && MarksOf(marks, Filter(ds[..i]), names)
    requires Kept(ds[i]) ==> ds[i].cls in names
    ensures AllKeptNamed(ds[..i + 1], names)
    ensures Kept(ds[i]) ==> MarksOf(marks + [MarkOf(ds[i], names)], Filter(ds[..i + 1]), names)
    ensures !Kept(ds[i]) ==> MarksOf(marks, Filter(ds[..i + 1]), names)
  {
    var prefix := ds[..i + 1];
    assert prefix == ds[..i] + [ds[i]];
    FilterAppend(ds[..i], [ds[i]]);
    assert forall j :: 0 <= j < i ==> prefix[j] == ds[..i][j];
  }

  /** The first kept box with an unnamed class decides the failure. */
  lemma {:induction false} PlanBoxesFirstFailure(ds: seq<Detection>, names: map<nat, string>, i: nat)
    requires i < |ds| && Kept(ds[i]) && ds[i].cls !in names && AllKeptNamed(ds[..i], names)
    ensures PlanBoxes(ds, names) == UnknownClass(ds[i].cls)
  {
    if i > 0 {
      assert Kept(ds[0]) ==> ds[..i][0].cls in names;
      var tail := ds[1..][..i - 1];
      assert tail == ds[..i][1..];
      assert AllKeptNamed(tail, names) by {
        forall j | 0 <= j < i - 1 && Kept(tail[j])
          ensures tail[j].cls in names
        {
          assert tail[j] == ds[..i][j + 1];
        }
      }
      PlanBoxesFirstFailure(ds[1..], names, i - 1);
    }
  }
}
