/**
 * The arithmetic and the cyclic selector of `LightLevelOverlaySettingsScreen`:
 * the option arrays built by `range`, the two-column button grid, and
 * `GuiArrayButton`, which steps through an array of choices on each click.
 */
module SettingsScreen {
  import opened JavaInt
  import opened Minecraft

  /** The width and height `GuiArrayButton` passes to its `GuiButton` superclass. */
  const ButtonWidth: int := 150
  const ButtonHeight: int := 20

  /**
   * `range(max)`: a fresh array of sixteen `Integer` slots holding 0 .. max - 1
   * in order, the rest null (`None`). A `max` above 16 runs past the array.
   */
  method Range(max: int) returns (a: array<Option<int>>)
    requires max <= 16
    ensures fresh(a) && a.Length == 16
    ensures forall i :: 0 <= i < 16 ==> a[i] == if i < max then Some(i) else None
  {
    a := new Option<int>[16](_ => None);
    var i := 0;
    while i < max
      invariant 0 <= i <= 16 && (max >= 0 ==> i <= max) && (max < 0 ==> i == 0)
      invariant forall j :: 0 <= j < 16 ==> a[j] == if j < i then Some(j) else None
    {
      a[i] := Some(i);
      i := i + 1;
    }
  }

  /** `getGridX`: the left edge of grid column x on a screen `width` wide (Java's `/` and `%`). */
  function GridX(width: int, x: int): int {
    Div(width, 2) - 155 + Rem(x, 2) * 160
  }

  /** `getGridY`: the top edge of grid row y on a screen `height` high. */
  function GridY(height: int, y: int): int {
    Div(height, 7) + y * 24
  }

  /**
   * The grid has two columns, 160 apart, which every non-negative column
   * index falls into by parity, and whose buttons (150 wide) do not touch.
   */
  lemma GridColumns(width: int, x: int)
    requires x >= 0
    ensures GridX(width, 1) == GridX(width, 0) + 160
    ensures GridX(width, x) == if x % 2 == 0 then GridX(width, 0) else GridX(width, 1)
    ensures GridX(width, 0) + ButtonWidth < GridX(width, 1)
  {
  }

  /** Rows are 24 apart, so buttons (20 high) in consecutive rows leave a gap between them. */
  lemma GridRows(height: int, y: int)
    ensures GridY(height, y + 1) == GridY(height, y) + 24
    ensures GridY(height, y) + ButtonHeight < GridY(height, y + 1)
    ensures y >= 0 ==> GridY(height, y) >= GridY(height, 0)
  {
  }

  /**
   * The index a button starts at: the requested one when it lies strictly
   * between 0 and the array length, otherwise 0 (so the -1 of a failed
   * `indexOf` selects the first choice).
   */
  function InitialIndex(requested: int, length: int): (i: int)
    requires length > 0
    ensures 0 <= i < length
    ensures 0 < requested < length ==> i == requested
    ensures !(0 < requested < length) ==> i == 0
  {
    if requested > 0 && requested < length then requested else 0
  }

  /** One left click: the next choice, wrapping from the last to the first. */
  function Advance(i: int, length: int): (j: int)
    requires 0 <= i < length
    ensures 0 <= j < length
    ensures j == (i + 1) % length
  {
    if i < length - 1 then i + 1 else 0
  }

  /** The index after k left clicks from i. */
  function Presses(i: int, length: int, k: nat): (j: int)
    requires 0 <= i < length
    ensures 0 <= j < length
  {
    if k == 0 then i else Advance(Presses(i, length, k - 1), length)
  }

  /** The remainder of m + 1 is the next remainder of m, wrapping to 0. */
  lemma ModSucc(m: int, length: int)
    requires m >= 0 && length > 0
    ensures (m + 1) % length == if m % length + 1 < length then m % length + 1 else 0
  {
    var q, r := m / length, m % length;
    assert m == length * q + r;
    if r + 1 < length {
      DivModUnique(m + 1, length, q, r + 1);
    } else {
      assert m + 1 == length * (q + 1) + 0;
      DivModUnique(m + 1, length, q + 1, 0);
    }
  }

  /** k left clicks advance the index by k, modulo the array length. */
  lemma {:induction false} PressesShift(i: int, length: int, k: nat)
    requires 0 <= i < length
    ensures Presses(i, length, k) == (i + k) % length
  {
    if k == 0 {
      DivModUnique(i, length, 0, i);
    } else {
      PressesShift(i, length, k - 1);
      ModSucc(i + k - 1, length);
    }
  }

  /** As many left clicks as there are choices bring the button back to where it was. */
  lemma CycleReturns(i: int, length: int)
    requires 0 <= i < length
    ensures Presses(i, length, length) == i
    ensures forall k: nat :: 0 < k < length ==> Presses(i, length, k) != i
  {
    PressesShift(i, length, length);
    DivModUnique(i + length, length, 1, i);
    forall k: nat | 0 < k < length
      ensures Presses(i, length, k) != i
    {
      PressesShift(i, length, k);
      if i + k < length {
        DivModUnique(i + k, length, 0, i + k);
      } else {
        DivModUnique(i + k, length, 1, i + k - length);
      }
    }
  }

  /** `GuiArrayButton`: a button cycling through `choices` (the `array` field), captioned with the current choice. */
  class ArrayButton<T> {
    const choices: seq<T>
    const initialIndex: int
    var currentIndex: int
    /** The choice the caption is formatted from. */
    var shown: T

    ghost predicate Valid()
      reads this
    {
      0 <= initialIndex < |choices| && 0 <= currentIndex < |choices| && shown == choices[currentIndex]
    }

    /** Starts at the clamped initial index; an empty array fails when the caption is formatted. */
    constructor (choices: seq<T>, initialIndex: int)
      requires |choices| > 0
      ensures Valid() && this.choices == choices
      ensures this.initialIndex == InitialIndex(initialIndex, |choices|) && currentIndex == this.initialIndex
    {
      this.choices := choices;
      var start := if initialIndex > 0 && initialIndex < |choices| then initialIndex else 0;
      this.initialIndex := start;
      currentIndex := start;
      shown := choices[start];
    }

    /** `getValue`: the current choice, which is the one the caption shows. */
    function GetValue(): (v: T)
      reads this
      requires Valid()
      ensures v in choices && v == shown
    {
      choices[currentIndex]
    }

    /**
     * `mousePressed`: a miss returns false and changes nothing; a hit
     * advances to the next choice when the left button is down and returns
     * to the initial choice otherwise, and refreshes the caption.
     */
    method MousePressed(hit: bool, leftDown: bool) returns (pressed: bool)
      requires Valid()
      modifies this`currentIndex, this`shown
      ensures Valid() && pressed == hit
      ensures !hit ==> currentIndex == old(currentIndex) && shown == old(shown)
      ensures hit && leftDown ==> currentIndex == Advance(old(currentIndex), |choices|)
      ensures hit && !leftDown ==> currentIndex == initialIndex
    {
      if hit {
        if leftDown {
          currentIndex := if currentIndex < |choices| - 1 then currentIndex + 1 else 0;
        } else {
          currentIndex := initialIndex;
        }
        shown := choices[currentIndex];
        return true;
      } else {
        return false;
      }
    }
  }
}
