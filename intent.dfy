/** The movement keys the board tracks and how they resolve to the ship's velocity. */
module Intent {

  /** A key event's key: the four movement keys, or any other key by its code. */
  datatype Key = W | S | A | D | Other(code: int)

  /** The four pressed-state flags. */
  datatype Held = Held(w: bool, s: bool, a: bool, d: bool)

  predicate IsMovement(key: Key) {
    !key.Other?
  }

  /** The flag that tracks a movement key. */
  function Flag(h: Held, key: Key): bool
    requires IsMovement(key)
  {
    match key
    case W => h.w
    case S => h.s
    case A => h.a
    case D => h.d
  }

  /** The flags after a key-down event. */
  function Press(h: Held, key: Key): Held {
    match key
    case W => h.(w := true)
    case S => h.(s := true)
    case A => h.(a := true)
    case D => h.(d := true)
    case Other(_) => h
  }

  /** The flags after a key-up event. */
  function Release(h: Held, key: Key): Held {
    match key
    case W => h.(w := false)
    case S => h.(s := false)
    case A => h.(a := false)
    case D => h.(d := false)
    case Other(_) => h
  }

  /** One axis of the ship's velocity: `positive` held alone moves forward, `negative` held alone moves back. */
  function Axis(positive: bool, negative: bool, speed: int): (v: int)
    ensures v == speed || v == -speed || v == 0
  {
    if positive && !negative then speed
    else if negative && !positive then -speed
    else 0
  }

  /** Vertical velocity: W moves up, S moves down. */
  function Vertical(h: Held, speed: int): int {
    Axis(h.w, h.s, speed)
  }

  /** Horizontal velocity: D moves right, A moves left. */
  function Horizontal(h: Held, speed: int): int {
    Axis(h.d, h.a, speed)
  }

  /** A key-down sets its own flag and no other; any other key changes nothing. */
  lemma PressTouchesOnlyItsFlag(h: Held, key: Key, probe: Key)
    requires IsMovement(probe)
    ensures Flag(Press(h, key), probe) == (if probe == key then true else Flag(h, probe))
    ensures !IsMovement(key) ==> Press(h, key) == h
  {
  }

  /** A key-up clears its own flag and no other; any other key changes nothing. */
  lemma ReleaseTouchesOnlyItsFlag(h: Held, key: Key, probe: Key)
    requires IsMovement(probe)
    ensures Flag(Release(h, key), probe) == (if probe == key then false else Flag(h, probe))
    ensures !IsMovement(key) ==> Release(h, key) == h
  {
  }

  /** Releasing a key after pressing it leaves its flag false, and restores the flags exactly
      when the key had not been held before. */
  lemma ReleaseUndoesPress(h: Held, key: Key)
    ensures Release(Press(h, key), key) == Release(h, key)
    ensures IsMovement(key) ==> !Flag(Release(Press(h, key), key), key)
    ensures IsMovement(key) && !Flag(h, key) ==> Release(Press(h, key), key) == h
  {
  }

  /** The axis rule as three exclusive cases (for a positive speed): forward iff only the
      positive key is held, back iff only the negative key is held, still iff both or neither. */
  lemma AxisCases(positive: bool, negative: bool, speed: int)
    requires speed > 0
    ensures Axis(positive, negative, speed) == speed <==> positive && !negative
    ensures Axis(positive, negative, speed) == -speed <==> negative && !positive
    ensures Axis(positive, negative, speed) == 0 <==> positive == negative
  {
  }

  /** Swapping the two keys of an axis reverses the velocity. */
  lemma AxisAntisymmetric(positive: bool, negative: bool, speed: int)
    ensures Axis(negative, positive, speed) == -Axis(positive, negative, speed)
  {
  }

  /** Holding W and then S cancels the vertical motion; releasing S then moves the ship up. */
  lemma HoldUpThenDown(h: Held, speed: int)
    ensures Vertical(Press(Press(h, W), S), speed) == 0
    ensures Vertical(Release(Press(Press(h, W), S), S), speed) == speed
  {
  }
}
