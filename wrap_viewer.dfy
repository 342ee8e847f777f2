/**
 * The slide viewer (client/components/wrap-viewer.tsx): a fixed registry of
 * eight slides, the index of the slide on screen and the direction of the
 * last move, changed by the next and previous buttons, the progress dots and
 * the arrow keys.
 */
module WrapViewer {

  datatype Direction = Forward | Backward

  datatype SlideKey = Intro | Summary | Categories | Soulmates | Time | Weekday | Weekend | Final

  /** The registry, in narrative order; its indices are the only valid slide positions. */
  const Slides: seq<SlideKey> := [Intro, Summary, Categories, Soulmates, Time, Weekday, Weekend, Final]

  const LastSlide := |Slides| - 1

  /** The viewer's two state cells as one value. */
  datatype NavState = NavState(current: int, direction: Direction)

  predicate InRange(s: NavState) {
    0 <= s.current < |Slides|
  }

  /** The state at mount. */
  const Initial := NavState(0, Forward)

  /** `nextSlide`: one slide forward unless already on the last one. */
  function Next(s: NavState): NavState {
    if s.current < LastSlide then NavState(s.current + 1, Forward) else s
  }

  /** `prevSlide`: one slide back unless already on the first one. */
  function Prev(s: NavState): NavState {
    if s.current > 0 then NavState(s.current - 1, Backward) else s
  }

  /** `goToSlide(index)`: jump, forward exactly when the target lies after the current slide. */
  function GoTo(s: NavState, index: int): NavState {
    NavState(index, if index > s.current then Forward else Backward)
  }

  /** The keydown handler: ArrowRight and ArrowLeft move, every other key is ignored. */
  function OnKey(s: NavState, key: string): NavState {
    if key == "ArrowRight" then Next(s)
    else if key == "ArrowLeft" then Prev(s)
    else s
  }

  /** The previous button's `disabled` attribute. */
  predicate PrevDisabled(s: NavState) {
    s.current == 0
  }

  /** The next button's `disabled` attribute. */
  predicate NextDisabled(s: NavState) {
    s.current == LastSlide
  }

  /** The state after a sequence of key presses, handled in order. */
  function PressAll(s: NavState, keys: seq<string>): NavState
    decreases |keys|
  {
    if keys == [] then s else PressAll(OnKey(s, keys[0]), keys[1..])
  }

  function Repeat(key: string, n: nat): (r: seq<string>)
    ensures |r| == n
    ensures forall k :: 0 <= k < n ==> r[k] == key
  {
    if n == 0 then [] else [key] + Repeat(key, n - 1)
  }

  function Min(a: int, b: int): int {
    if a <= b then a else b
  }

  function Max(a: int, b: int): int {
    if a >= b then a else b
  }

  /** Every transition keeps the index inside the registry (a jump only ever targets a registry index). */
  lemma TransitionsStayInRange(s: NavState, index: int, key: string)
    requires InRange(s)
    ensures InRange(Next(s)) && InRange(Prev(s)) && InRange(OnKey(s, key))
    ensures 0 <= index < |Slides| ==> InRange(GoTo(s, index))
  {
  }

  /** No wraparound: at either end the move away from the registry changes nothing. */
  lemma NoWraparound(s: NavState)
    ensures s.current == LastSlide ==> Next(s) == s
    ensures s.current == 0 ==> Prev(s) == s
  {
  }

  /** A button is disabled exactly where pressing it would change nothing. */
  lemma DisabledExactlyWhenInert(s: NavState)
    requires InRange(s)
    ensures PrevDisabled(s) <==> Prev(s) == s
    ensures NextDisabled(s) <==> Next(s) == s
  {
  }

  /** From an interior slide, forward then back returns to the same index. */
  lemma NextThenPrev(s: NavState)
    requires 0 <= s.current < LastSlide
    ensures Prev(Next(s)).current == s.current && Prev(Next(s)).direction == Backward
  {
  }

  lemma PrevThenNext(s: NavState)
    requires 0 < s.current < |Slides|
    ensures Next(Prev(s)).current == s.current && Next(Prev(s)).direction == Forward
  {
  }

  /** Jumping lands on the target and records the sign of the move; jumping in place reads backward. */
  lemma GoToDirection(s: NavState, index: int)
    ensures GoTo(s, index).current == index
    ensures GoTo(s, index).direction == Forward <==> index > s.current
    ensures index == s.current ==> GoTo(s, index).direction == Backward
  {
  }

  /** `n` presses of ArrowRight advance `n` slides but never past the last one. */
  lemma {:induction false} RightPresses(s: NavState, n: nat)
    requires InRange(s)
    ensures InRange(PressAll(s, Repeat("ArrowRight", n)))
    ensures PressAll(s, Repeat("ArrowRight", n)).current == Min(s.current + n, LastSlide)
    decreases n
  {
    if n > 0 {
      var keys := Repeat("ArrowRight", n);
      assert keys[1..] == Repeat("ArrowRight", n - 1);
      RightPresses(OnKey(s, "ArrowRight"), n - 1);
    }
  }

  /** `n` presses of ArrowLeft go back `n` slides but never before the first one. */
  lemma {:induction false} LeftPresses(s: NavState, n: nat)
    requires InRange(s)
    ensures InRange(PressAll(s, Repeat("ArrowLeft", n)))
    ensures PressAll(s, Repeat("ArrowLeft", n)).current == Max(s.current - n, 0)
    decreases n
  {
    if n > 0 {
      var keys := Repeat("ArrowLeft", n);
      assert keys[1..] == Repeat("ArrowLeft", n - 1);
      LeftPresses(OnKey(s, "ArrowLeft"), n - 1);
    }
  }

  /** Any sequence of key presses from an in-range state stays in range. */
  lemma {:induction false} PressesStayInRange(s: NavState, keys: seq<string>)
    requires InRange(s)
    ensures InRange(PressAll(s, keys))
    decreases |keys|
  {
    if keys != [] {
      TransitionsStayInRange(s, 0, keys[0]);
      PressesStayInRange(OnKey(s, keys[0]), keys[1..]);
    }
  }

  /** The viewer component; its two `useState` cells are the fields. */
  class Viewer {
    var currentSlide: int
    var direction: Direction

    ghost predicate Valid()
      reads this
    {
      0 <= currentSlide < |Slides|
    }

    function State(): NavState
      reads this
    {
      NavState(currentSlide, direction)
    }

    /** `slides[currentSlide]`, the slide being rendered. */
    function CurrentSlide(): (k: SlideKey)
      reads this
      requires Valid()
      ensures k == Slides[State().current]
    {
      Slides[currentSlide]
    }

    constructor ()
      ensures Valid()
      ensures currentSlide == 0 && direction == Forward
      ensures State() == Initial
    {
      currentSlide := 0;
      direction := Forward;
    }

    method NextSlide()
      requires Valid()
      modifies this
      ensures Valid()
      ensures old(currentSlide) < LastSlide ==> currentSlide == old(currentSlide) + 1 && direction == Forward
      ensures old(currentSlide) == LastSlide ==> currentSlide == old(currentSlide) && direction == old(direction)
      ensures State() == Next(old(State()))
    {
      if currentSlide < |Slides| - 1 {
        direction := Forward;
        currentSlide := currentSlide + 1;
      }
    }

    method PrevSlide()
      requires Valid()
      modifies this
      ensures Valid()
      ensures old(currentSlide) > 0 ==> currentSlide == old(currentSlide) - 1 && direction == Backward
      ensures old(currentSlide) == 0 ==> currentSlide == 0 && direction == old(direction)
      ensures State() == Prev(old(State()))
    {
      if currentSlide > 0 {
        direction := Backward;
        currentSlide := currentSlide - 1;
      }
    }

    /** No bounds check: the only callers are the progress dots, one per registry index, and they stay in range. */
    method GoToSlide(index: int)
      modifies this
      ensures 0 <= index < |Slides| ==> Valid()
      ensures currentSlide == index
      ensures direction == (if index > old(currentSlide) then Forward else Backward)
      ensures State() == GoTo(old(State()), index)
    {
      direction := if index > currentSlide then Forward else Backward;
      currentSlide := index;
    }

    method HandleKeyDown(key: string)
      requires Valid()
      modifies this
      ensures Valid()
      ensures key == "ArrowRight" ==> State() == Next(old(State()))
      ensures key == "ArrowLeft" ==> State() == Prev(old(State()))
      ensures key != "ArrowRight" && key != "ArrowLeft" ==> currentSlide == old(currentSlide) && direction == old(direction)
      ensures State() == OnKey(old(State()), key)
    {
      if key == "ArrowRight" {
        NextSlide();
      } else if key == "ArrowLeft" {
        PrevSlide();
      }
    }
  }
}
