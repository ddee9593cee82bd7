# Animal detector: colour assignment and box annotation

This project models the original logic of a real-time animal detector. The detector
runs a trained YOLOv8 model on camera frames and draws the boxes it finds. Two pieces
of that program are its own logic, and both are modelled here:

- `Colours` (`colours.dfy`) models `getColours`. It maps a class id to the BGR colour of
  that class. The class id modulo 3 picks one of three base colours: blue, green or red.
  Each channel is then shifted by `(increment * (cls // 3)) % 256`. Python's operator
  precedence reduces only the shift modulo 256, not the sum. So a channel lies in
  `[base, base + 255]` and can reach 510. Class 3, for example, gets `(256, 254, 1)`.
  Python's floor `//` and `%` with a positive divisor are exactly Dafny's Euclidean
  `/` and `%` for every integer. So the model takes any `int` class id and is exact.
  The proved properties:
  - the channel ranges;
  - the base colours for classes 0 to 2;
  - period 768;
  - two ids share a colour exactly when they agree modulo 768. This is the precise form
    of the docstring's "unique colors" claim. Colours from different palette slots
    never coincide.
- `Annotation` (`annotation.dfy`) models the box loop of the main loop as a pure
  function of the detector's output. For each result, in order, every box whose
  confidence is strictly above 0.4 is annotated. The annotation is a rectangle and a
  label, both in `getColours` of the box's class id. The label names that class through
  the result's class-name table. If the table lacks a kept box's class, the lookup
  raises and ends the program. The model records this as the `UnknownClass` outcome.
  `DrawBoxes` is the loop as the detector runs it. It also returns the positions of the
  boxes it drew: these are increasing, and they are exactly the kept positions.

## Model

| member | source | states |
|---|---|---|
| Colours.GetColours | detection.py:16-39 | every channel lies between its base value and base + 255, so in 0..510; class ids 0, 1, 2 get exactly the base colours (255,0,0), (0,255,0), (0,0,255) |
| Colours.ClassThreeLeavesByteRange | detection.py:36-37 | because only the shift is reduced modulo 256, class 3 gets (256, 254, 1), outside the 0..255 byte range |
| Colours.SameSlotColours | detection.py:30-37 | for ids in the same palette slot, colours agree exactly when their cycles `cls // 3` agree modulo 256 |
| Colours.DifferentSlotsDiffer | detection.py:27-37 | ids in different palette slots never get the same colour, whatever the ids |
| Colours.ColoursEqualIff | detection.py:16-39 | two ids get the same colour if and only if they are congruent modulo 768 |
| Colours.Periodic | detection.py:30-37 | the colour of id c + 768 is the colour of id c |
| Colours.UniqueWithinPeriod | detection.py:16-39 | distinct ids within 0..767 always get distinct colours: the docstring's uniqueness claim, within its true range |
| Annotation.Filter | detection.py:59-61 | a detection is kept if and only if it is in the input and its confidence is strictly above 0.4; nothing is added |
| Annotation.FilterAppend | detection.py:59-61 | filtering distributes over concatenation, so kept boxes stay in the detector's order |
| Annotation.FilterIdempotent | detection.py:61 | filtering an already filtered list changes nothing |
| Annotation.KeptBoxesDrawnAsDetected | detection.py:69-82 | in a planned result, the k-th annotation is drawn at the k-th kept box's corners, in `getColours` of that box's class id, labelled with that class's name and the box's confidence |
| Annotation.AtThresholdNotDrawn | detection.py:59-61 | a box with confidence exactly 0.4, anywhere in a result's boxes, is not kept by the filter, and no annotation of the result carries its confidence |
| Annotation.AboveThresholdDrawn | detection.py:59-82 | a lone box above 0.4 with a named class is drawn, and nothing else is |
| Annotation.PlanBoxes | detection.py:59-82 | the box loop of one result: a planned result has one annotation per kept box; a failure names a class id missing from the table that belongs to some kept box |
| Annotation.PlanFrame | detection.py:54-82 | the loop over a frame's results: a failure names the class id of a kept box of some result whose own name table lacks it; a planned frame draws no more annotations than it has boxes |
| Annotation.PlanFrameMeaning | detection.py:54-82 | a frame is drawn without error if and only if every result names all its kept boxes; its annotations are then, result after result, the annotation of each kept box in the detector's order |
| Annotation.PlanBoxesMeaning | detection.py:59-82 | a result's boxes are drawn without error if and only if every kept box's class is in the name table; then the annotations are exactly one per kept box, in order, each with the box's own colour and name |
| Annotation.PlanBoxesFailure | detection.py:69-72 | a failed result names a kept box whose class is missing from the table, and every kept box before it has a name |
| Annotation.PlanBoxesFirstFailure | detection.py:59-72 | the first kept box with a missing class decides the failure |
| Annotation.DrawBoxes | detection.py:59-82 | the box loop returns the plan of the recursive definition; on success the drawn positions are strictly increasing and are exactly the positions of the boxes above 0.4, and each annotation is that box's mark |
| Annotation.FrameMarksWellFormed | detection.py:54-82 | every annotation of a fully drawn frame has confidence above 0.4 and the colour of its own class id |
| Annotation.SingleResultFrame | detection.py:54-59 | a frame with one detector result draws exactly that result's annotations |

## Left out

- Loading the model and `yolo.track` inference (detection.py:11, 51): an external machine-learning library. The detector's output is a parameter, a sequence of results.
- Camera capture and the `continue` that skips a failed read, `imshow`, `waitKey`, the `q` key exit, and releasing the camera and windows (detection.py:14, 42-48, 85-93): input/output and user-interface plumbing with no logic of its own.
- The `cv2.rectangle` and `cv2.putText` calls (detection.py:78-82): foreign drawing code. The model says which boxes are drawn, with which colours and labels, not how. It also does not model how OpenCV treats channel values above 255.
- The `int()` truncation of box corners and the `:.2f` formatting of the confidence (detection.py:66, 81): box corners are integers in the model, and the label carries the class name and the confidence as a real number, not the formatted text.
- Annotation.Kept: the detector's confidence is a 32-bit float tensor compared with the double 0.4. The model compares exact reals, so rounding of values very close to 0.4 is not modelled.
- Drawing stops at an unknown class id: the model returns no annotations for the frame, since the exception ends the program before the frame is shown. The boxes drawn into the frame buffer before the error are not modelled.
