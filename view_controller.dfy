/** The view controller's state: the rolling window filled by the
    accelerometer callback and the note cursor advanced by each trigger. */
module Controller {

  import opened MotionWindow
  import opened VelocityMapping
  import opened NoteCursor

  class ViewController {
    /** The last CAPACITY magnitudes, oldest first. */
    var history: seq<real>
    /** The note number the next trigger plays. */
    var x: int
    /** Every magnitude delivered so far, in arrival order. */
    ghost var samples: seq<real>

    ghost predicate Valid()
      reads this
    {
      InRange(x) && history == Recent(samples)
    }

    /** A fresh controller: empty window, cursor at the lowest note. */
    constructor ()
      ensures Valid()
      ensures history == [] && samples == [] && x == LOWEST
    {
      history := [];
      x := LOWEST;
      samples := [];
    }

    /** The accelerometer callback's update: append the magnitude and, when
        the window then holds more than CAPACITY samples, remove the one at
        index 0. */
    method Append(v: real)
      requires Valid()
      modifies this`history, this`samples
      ensures Valid()
      ensures samples == old(samples) + [v]
      ensures |old(history)| < CAPACITY ==> history == old(history) + [v]
      ensures |old(history)| == CAPACITY ==> history == old(history)[1..] + [v]
      ensures |history| <= CAPACITY && history[|history| - 1] == v
    {
      RecentBounded(samples);
      RecentSnoc(samples, v);
      history := history + [v];
      if |history| > CAPACITY {
        history := history[1..];
      }
      samples := samples + [v];
      RecentBounded(samples);
    }

    /** The trigger: compute the velocity from the window's peak, play the
        current note with it, then advance the cursor. The note and the
        velocity handed to the instrument are returned. */
    method Trigger() returns (note: int, vel: int)
      requires Valid()
      modifies this`x
      ensures Valid()
      ensures history == old(history) && samples == old(samples)
      ensures note == old(x)
      ensures vel == Velocity(Peak(history))
      ensures x == NextNote(old(x))
    {
      var highest := Peak(history);
      var velocity := (highest - 0.8) * 64.0;
      if velocity < 0.0 {
        velocity := 1.0;
      }
      if velocity > 126.0 {
        velocity := 126.0;
      }
      var converted := ToUInt8(velocity);
      assert converted.Some?;
      note, vel := x, converted.value;
      x := x + 1;
      if x > 108 {
        x := 21;
      }
    }
  }

  /** A trigger on a fresh controller plays note 21 with the velocity of the
      default peak 1.2, and moves the cursor to 22. */
  method EmptyWindowScenario() returns (note: int, vel: int, next: int)
    ensures note == 21 && vel == 25 && next == 22
  {
    var c := new ViewController();
    ScenarioVelocities();
    note, vel := c.Trigger();
    next := c.x;
  }

  /** After the magnitudes 0.9, 1.5 and 0.95 arrive, a trigger uses the peak
      1.5. */
  method ThreeSampleScenario() returns (note: int, vel: int)
    ensures note == 21 && vel == 44
  {
    var c := new ViewController();
    c.Append(0.9);
    assert c.history == [0.9];
    c.Append(1.5);
    assert c.history == [0.9, 1.5];
    c.Append(0.95);
    assert c.history == [0.9, 1.5, 0.95];
    ThreeSamplePeak();
    ScenarioVelocities();
    note, vel := c.Trigger();
  }

  /** The peak of the window 0.9, 1.5, 0.95 is its middle element. */
  lemma ThreeSamplePeak()
    ensures Peak([0.9, 1.5, 0.95]) == 1.5
  {
    assert Peak([0.95]) == 0.95;
    assert [0.9, 1.5, 0.95][1..] == [1.5, 0.95];
    assert [1.5, 0.95][1..] == [0.95];
  }
}
