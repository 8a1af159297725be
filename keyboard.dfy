/**
 * Keyboard input (src/input/keyboard.ts): tracks the held movement keys and
 * turns them into a direction. Arrow keys and W, A, S, D are aliases.
 */
module Keyboard {
  const MovementKeys: set<string> := {"ArrowUp", "ArrowDown", "ArrowLeft", "ArrowRight", "w", "a", "s", "d"}

  predicate StartsWith(s: string, prefix: string) {
    |prefix| <= |s| && s[..|prefix|] == prefix
  }

  /** `toLowerCase` on ASCII letters; other characters are kept. */
  function LowerChar(c: char): char {
    if 'A' <= c <= 'Z' then (c as int - 'A' as int + 'a' as int) as char else c
  }

  function ToLower(s: string): (r: string)
    ensures |r| == |s| && forall i | 0 <= i < |s| :: r[i] == LowerChar(s[i])
  {
    seq(|s|, i requires 0 <= i < |s| => LowerChar(s[i]))
  }

  /** `normalizeKey`: arrow keys as they are, anything else in lower case. */
  function NormalizeKey(key: string): (r: string)
    ensures StartsWith(key, "Arrow") ==> r == key
    ensures !StartsWith(key, "Arrow") ==> r == ToLower(key)
  {
    if StartsWith(key, "Arrow") then key else ToLower(key)
  }

  /**
   * Shift or Caps Lock does not matter: "W" and "w" are the same key; the
   * arrow keys keep their names; other keys are not movement keys.
   */
  lemma NormalizeKeyExamples()
    ensures NormalizeKey("W") == "w" && NormalizeKey("w") == "w" && NormalizeKey("D") == "d"
    ensures NormalizeKey("ArrowLeft") == "ArrowLeft"
    ensures NormalizeKey("ARROWUP") !in MovementKeys
    ensures NormalizeKey("Enter") !in MovementKeys
  {
    assert !StartsWith("W", "Arrow");
    assert !StartsWith("D", "Arrow");
    assert !StartsWith("w", "Arrow");
    assert StartsWith("ArrowLeft", "Arrow");
    assert !StartsWith("ARROWUP", "Arrow") by { assert "ARROWUP"[1] != "Arrow"[1]; }
    assert ToLower("ARROWUP") == "arrowup";
    assert !StartsWith("Enter", "Arrow");
    assert ToLower("Enter") == "enter";
  }

  /** A window event the input listens to. */
  datatype KeyEvent = KeyDown(key: string) | KeyUp(key: string) | Blur

  /** The held keys after an event: a movement key goes down or up; losing focus lets go of all. */
  function Apply(pressed: set<string>, e: KeyEvent): (r: set<string>)
    ensures r <= pressed + MovementKeys
    ensures pressed <= MovementKeys ==> r <= MovementKeys
  {
    match e
    case KeyDown(key) => var k := NormalizeKey(key); if k !in MovementKeys then pressed else pressed + {k}
    case KeyUp(key) => var k := NormalizeKey(key); if k !in MovementKeys then pressed else pressed - {k}
    case Blur => {}
  }

  /**
   * What each event does to the held keys: a key that is not a movement key
   * changes nothing, a movement key goes in on key-down and out on key-up,
   * and losing focus lets go of everything, so the input stands still.
   */
  lemma ApplyEffects(pressed: set<string>, key: string)
    ensures NormalizeKey(key) !in MovementKeys ==>
      Apply(pressed, KeyDown(key)) == pressed && Apply(pressed, KeyUp(key)) == pressed
    ensures NormalizeKey(key) in MovementKeys ==>
      && Apply(pressed, KeyDown(key)) == pressed + {NormalizeKey(key)}
      && Apply(pressed, KeyUp(key)) == pressed - {NormalizeKey(key)}
    ensures Apply(pressed, Blur) == {} && MovementOf(Apply(pressed, Blur)) == Movement(0, 0)
  {
  }

  /** Pressing a key that was not held and letting it go leaves the held keys as they were. */
  lemma PressReleaseRestores(pressed: set<string>, key: string)
    requires NormalizeKey(key) !in pressed
    ensures Apply(Apply(pressed, KeyDown(key)), KeyUp(key)) == pressed
  {
  }

  /** The direction `getMovement` reports. */
  datatype Movement = Movement(x: int, y: int)

  function Flag(b: bool): int { if b then 1 else 0 }

  /** `getMovement`: right minus left and down minus up, each side held through either of its keys. */
  function MovementOf(pressed: set<string>): (m: Movement)
    ensures -1 <= m.x <= 1 && -1 <= m.y <= 1
  {
    var left := "ArrowLeft" in pressed || "a" in pressed;
    var right := "ArrowRight" in pressed || "d" in pressed;
    var up := "ArrowUp" in pressed || "w" in pressed;
    var down := "ArrowDown" in pressed || "s" in pressed;
    Movement(Flag(right) - Flag(left), Flag(down) - Flag(up))
  }

  /** The four directions a set of held keys stands for. */
  function Sides(pressed: set<string>): (bool, bool, bool, bool) {
    ("ArrowLeft" in pressed || "a" in pressed, "ArrowRight" in pressed || "d" in pressed,
     "ArrowUp" in pressed || "w" in pressed, "ArrowDown" in pressed || "s" in pressed)
  }

  /**
   * Only the sides matter, not which key holds them, so each letter is an
   * alias of its arrow; holding both sides of an axis cancels out, and the
   * movement is zero exactly when each axis is balanced.
   */
  lemma MovementFollowsSides(p: set<string>, q: set<string>)
    ensures Sides(p) == Sides(q) ==> MovementOf(p) == MovementOf(q)
    ensures MovementOf(p).x == 0 <==> Sides(p).0 == Sides(p).1
    ensures MovementOf(p).y == 0 <==> Sides(p).2 == Sides(p).3
  {
  }

  /** The held keys after a sequence of events. */
  function ApplyAll(pressed: set<string>, events: seq<KeyEvent>): set<string>
    decreases |events|
  {
    if |events| == 0 then pressed else ApplyAll(Apply(pressed, events[0]), events[1..])
  }

  /**
   * W down gives (0, -1), then ArrowRight down gives (1, -1), W up gives
   * (1, 0), ArrowRight up gives (0, 0). ArrowLeft down then losing focus
   * gives (0, 0).
   */
  lemma KeyboardExamples()
    ensures MovementOf({}) == Movement(0, 0)
    ensures MovementOf(ApplyAll({}, [KeyDown("w")])) == Movement(0, -1)
    ensures MovementOf(ApplyAll({}, [KeyDown("w"), KeyDown("ArrowRight")])) == Movement(1, -1)
    ensures MovementOf(ApplyAll({}, [KeyDown("w"), KeyDown("ArrowRight"), KeyUp("w")])) == Movement(1, 0)
    ensures MovementOf(ApplyAll({}, [KeyDown("w"), KeyDown("ArrowRight"), KeyUp("w"), KeyUp("ArrowRight")])) == Movement(0, 0)
    ensures MovementOf(ApplyAll({}, [KeyDown("ArrowLeft")])) == Movement(-1, 0)
    ensures MovementOf(ApplyAll({}, [KeyDown("ArrowLeft"), Blur])) == Movement(0, 0)
  {
    assert NormalizeKey("w") == "w" by { assert !StartsWith("w", "Arrow"); }
    assert NormalizeKey("ArrowRight") == "ArrowRight" by { assert StartsWith("ArrowRight", "Arrow"); }
    assert NormalizeKey("ArrowLeft") == "ArrowLeft" by { assert StartsWith("ArrowLeft", "Arrow"); }
    var e := [KeyDown("w"), KeyDown("ArrowRight"), KeyUp("w"), KeyUp("ArrowRight")];
    assert e[1..] == [KeyDown("ArrowRight"), KeyUp("w"), KeyUp("ArrowRight")];
    assert e[2..] == [KeyUp("w"), KeyUp("ArrowRight")];
    assert ApplyAll({"w", "ArrowRight"}, [KeyUp("w"), KeyUp("ArrowRight")]) == {};
    assert ApplyAll({}, [KeyDown("ArrowLeft"), Blur]) == {};
  }

  /**
   * `createKeyboardInputState(options)`: the held movement keys, and whether
   * the three listeners are still attached to the target.
   */
  class KeyboardInput {
    var pressed: set<string>
    var listening: bool

    ghost predicate Valid()
      reads this
    {
      pressed <= MovementKeys
    }

    constructor ()
      ensures Valid() && pressed == {} && listening
    {
      pressed, listening := {}, true;
    }

    /** The target dispatches an event: the listeners handle it while attached. */
    method Dispatch(e: KeyEvent)
      requires Valid()
      modifies this
      ensures Valid() && listening == old(listening)
      ensures pressed == if listening then Apply(old(pressed), e) else old(pressed)
    {
      if !listening {
        return;
      }
      match e
      case KeyDown(key) =>
        var k := NormalizeKey(key);
        if k !in MovementKeys {
          return;
        }
        pressed := pressed + {k};
      case KeyUp(key) =>
        var k := NormalizeKey(key);
        if k !in MovementKeys {
          return;
        }
        pressed := pressed - {k};
      case Blur =>
        pressed := {};
    }

    function GetMovement(): Movement
      reads this
    {
      MovementOf(pressed)
    }

    /** `dispose`: detaches the listeners and lets go of every key; later events change nothing. */
    method Dispose()
      modifies this
      ensures Valid() && !listening && pressed == {} && GetMovement() == Movement(0, 0)
    {
      listening := false;
      pressed := {};
    }
  }
}
