/** Pointer capture shared by both front-end variants: the sample record, the
    freezing 50-sample buffer, the honeypot read and the scan payload. */
module Capture {
  import opened Basics

  /** One recorded pointer position, `{ x: clientX, y: clientY, time: Date.now() }`.
      Coordinates and milliseconds are whole numbers. */
  datatype Sample = Sample(x: int, y: int, time: int)

  /** The body posted to the scan endpoint: `mouse_data`, `typing_speed`, `honeypot_field`. */
  datatype Payload = Payload(mouseData: seq<Sample>, typingSpeed: seq<int>, honeypotField: string)

  /** Both variants stop storing samples once this many are held. */
  const Capacity: nat := 50

  /** What a mouse-move handler does to the stored buffer: append while it holds
      fewer than `Capacity` samples, otherwise drop the new sample. */
  function Record(buffer: seq<Sample>, s: Sample): (r: seq<Sample>)
    ensures buffer <= r && |r| <= |buffer| + 1
    ensures |r| > |buffer| <==> |buffer| < Capacity
    ensures |r| > |buffer| ==> r[|buffer|] == s
    ensures |buffer| <= Capacity ==> |r| <= Capacity
  {
    if |buffer| < Capacity then buffer + [s] else buffer
  }

  /** The stored buffer is always the first `Capacity` moves in arrival order:
      recording one more move into the first `Capacity` of `moves` gives the
      first `Capacity` of `moves + [s]`. */
  lemma {:induction false} RecordKeepsFirst(moves: seq<Sample>, s: Sample)
    ensures Record(Take(moves, Capacity), s) == Take(moves + [s], Capacity)
    ensures |Record(Take(moves, Capacity), s)| <= Capacity
  {
    if |moves| < Capacity {
      assert Take(moves + [s], Capacity) == moves + [s];
    } else {
      TakeStable(moves, [s], Capacity);
    }
  }

  /** The trap field's value as the payload carries it: `document.getElementById("hp-field")?.value || ""`.
      `None` stands for a page without the field. */
  function HoneypotValue(field: Option<string>): (v: string)
    ensures field.None? ==> v == ""
    ensures field.Some? ==> v == field.value
  {
    match field
    case None => ""
    case Some(text) => text
  }

  /** When the stored buffer last changed: the time of its newest sample, or
      the mount time while it is empty. The debounce timer counts from here. */
  function LastChange(buffer: seq<Sample>, mounted: int): (since: int)
  {
    if buffer == [] then mounted else buffer[|buffer| - 1].time
  }
}
