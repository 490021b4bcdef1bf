/**
 * Cyclic keyboard focus inside a pile or a list box: Tab and Shift-Tab move the focus to the
 * nearest selectable item in their direction, wrapping around the ends, and never land on a
 * text line or a divider unless nothing else can take the focus.
 */
module Focus {

  /** A focusable container reduced to what focus movement sees: which items are selectable, and the focus. */
  datatype Container = Container(items: seq<bool>, position: int)

  /** The position `i` steps away from `start` in `direction`, wrapped into `0 .. n - 1`. */
  function Probe(n: nat, start: int, direction: int, i: int): (p: int)
    requires n > 0
    ensures 0 <= p < n
  {
    (start + direction * i) % n
  }

  /**
   * Where the search for a selectable item ends if it has reached step `i` without success: the
   * first selectable position at step `i` or later, or `start` when steps `i .. n - 1` find none.
   */
  function SearchFrom(items: seq<bool>, start: int, direction: int, i: nat): int
    requires |items| > 0
    decreases |items| - i
  {
    if i >= |items| then start
    else if items[Probe(|items|, start, direction, i)] then Probe(|items|, start, direction, i)
    else SearchFrom(items, start, direction, i + 1)
  }

  /** The focus after one Tab (`direction == 1`) or Shift-Tab (`direction == -1`) from `start`. */
  function NextFocus(items: seq<bool>, start: int, direction: int): int {
    if |items| == 0 then start else SearchFrom(items, start, direction, 1)
  }

  /**
   * `move_focus_in_pile` and `move_focus_in_listbox`: try steps 1, 2, ... in `direction` and
   * move the focus to the first selectable item found; keep it where it is otherwise.
   */
  method MoveFocus(container: Container, direction: int) returns (moved: Container)
    ensures moved.items == container.items
    ensures moved.position == NextFocus(container.items, container.position, direction)
  {
    var numItems := |container.items|;
    var focusPosition := container.position;
    moved := container;
    var i := 1;
    while i < numItems
      invariant 1 <= i
      invariant moved == container
      invariant numItems > 0 ==> NextFocus(container.items, focusPosition, direction)
                                 == SearchFrom(container.items, focusPosition, direction, i)
    {
      var nextPosition := (focusPosition + direction * i) % numItems;
      if container.items[nextPosition] {
        moved := container.(position := nextPosition);
        break;
      }
      i := i + 1;
    }
  }

  /** Step `k` is the first step at or after `from` that reaches a selectable item. */
  ghost predicate FirstSelectableStep(items: seq<bool>, start: int, direction: int, from: int, k: int)
    requires |items| > 0
  {
    && from <= k < |items|
    && items[Probe(|items|, start, direction, k)]
    && forall j :: from <= j < k ==> !items[Probe(|items|, start, direction, j)]
  }

  /** No step at or after `from` reaches a selectable item. */
  ghost predicate NoSelectableStep(items: seq<bool>, start: int, direction: int, from: int)
    requires |items| > 0
  {
    forall j :: from <= j < |items| ==> !items[Probe(|items|, start, direction, j)]
  }

  /** The search from step `from` ends at the first selectable step, or at `start` when there is none. */
  lemma {:induction false} SearchFromSpec(items: seq<bool>, start: int, direction: int, from: nat)
    requires |items| > 0
    ensures var r := SearchFrom(items, start, direction, from);
      || (r == start && NoSelectableStep(items, start, direction, from))
      || (exists k :: FirstSelectableStep(items, start, direction, from, k) && r == Probe(|items|, start, direction, k))
    decreases |items| - from
  {
    var n := |items|;
    if from < n && !items[Probe(n, start, direction, from)] {
      SearchFromSpec(items, start, direction, from + 1);
      var r := SearchFrom(items, start, direction, from + 1);
      if exists k :: FirstSelectableStep(items, start, direction, from + 1, k) && r == Probe(n, start, direction, k) {
        var k :| FirstSelectableStep(items, start, direction, from + 1, k) && r == Probe(n, start, direction, k);
        assert FirstSelectableStep(items, start, direction, from, k);
      }
    } else if from < n {
      assert FirstSelectableStep(items, start, direction, from, from);
    }
  }

  /**
   * Tab moves to the position reached by the first selectable step `k` (no selectable item lies
   * on the steps before it), or leaves the focus where it was when no step finds one. Lists of
   * zero or one item never change focus, and a focus inside the list stays inside it.
   */
  lemma NextFocusSpec(items: seq<bool>, start: int, direction: int)
    ensures var r := NextFocus(items, start, direction);
      && (|items| <= 1 ==> r == start)
      && (0 <= start < |items| ==> 0 <= r < |items|)
      && (|items| > 0 ==>
            || (r == start && NoSelectableStep(items, start, direction, 1))
            || (exists k :: FirstSelectableStep(items, start, direction, 1, k) && r == Probe(|items|, start, direction, k)))
  {
    if |items| > 0 {
      SearchFromSpec(items, start, direction, 1);
    }
  }

  /** Euclidean remainder of a value at most one lap below zero or above `n`. */
  lemma WrapOnce(x: int, n: int)
    requires n > 0 && -n <= x < 2 * n
    ensures x % n == if x < 0 then x + n else if x < n then x else x - n
  {
  }

  /** Every step `1 .. n - 1` of a Tab or Shift-Tab lands somewhere other than where it started. */
  lemma ProbeAvoidsStart(n: nat, start: int, direction: int, k: int)
    requires n > 0 && 0 <= start < n && (direction == 1 || direction == -1) && 1 <= k < n
    ensures Probe(n, start, direction, k) != start
  {
  }

  /** Every other position of the list is reached by exactly one of the steps `1 .. n - 1`. */
  lemma ProbeReaches(n: nat, start: int, direction: int, p: int) returns (k: int)
    requires n > 0 && 0 <= start < n && (direction == 1 || direction == -1)
    requires 0 <= p < n && p != start
    ensures 1 <= k < n && Probe(n, start, direction, k) == p
  {
    var d := if direction == 1 then p - start else start - p;
    k := if d < 0 then d + n else d;
    if direction == 1 {
      WrapOnce(start + k, n);
    } else {
      WrapOnce(start - k, n);
    }
  }

  /**
   * With Tab or Shift-Tab from a position inside the list, the focus stays put exactly when no
   * other item is selectable; otherwise it lands on a selectable item.
   */
  lemma StaysExactlyWhenAlone(items: seq<bool>, start: int, direction: int)
    requires 0 <= start < |items| && (direction == 1 || direction == -1)
    ensures var r := NextFocus(items, start, direction);
      && (r == start <==> forall p :: 0 <= p < |items| && p != start ==> !items[p])
      && 0 <= r < |items|
      && (r != start ==> items[r])
  {
    var n := |items|;
    var r := NextFocus(items, start, direction);
    NextFocusSpec(items, start, direction);
    if exists k :: FirstSelectableStep(items, start, direction, 1, k) && r == Probe(n, start, direction, k) {
      var k :| FirstSelectableStep(items, start, direction, 1, k) && r == Probe(n, start, direction, k);
      ProbeAvoidsStart(n, start, direction, k);
    } else {
      assert r == start && NoSelectableStep(items, start, direction, 1);
      forall p | 0 <= p < n && p != start
        ensures !items[p]
      {
        var k := ProbeReaches(n, start, direction, p);
      }
    }
  }

  /**
   * Shift-Tab undoes Tab: from a selectable item, Tab and then Shift-Tab come back to it, since
   * every item Tab skipped is unselectable.
   */
  lemma ShiftTabUndoesTab(items: seq<bool>, start: int)
    requires 0 <= start < |items| && items[start]
    ensures NextFocus(items, NextFocus(items, start, 1), -1) == start
  {
    var n := |items|;
    var r := NextFocus(items, start, 1);
    NextFocusSpec(items, start, 1);
    StaysExactlyWhenAlone(items, start, 1);
    if r == start {
      StaysExactlyWhenAlone(items, start, -1);
    } else {
      var k :| FirstSelectableStep(items, start, 1, 1, k) && r == Probe(n, start, 1, k);
      WrapOnce(start + k, n);
      NextFocusSpec(items, r, -1);
      // Going back from r, step j < k lands where Tab's step k - j landed, and step k lands on start.
      forall j | 1 <= j < k
        ensures Probe(n, r, -1, j) == Probe(n, start, 1, k - j)
      {
        WrapOnce(r - j, n);
        WrapOnce(start + (k - j), n);
      }
      WrapOnce(r - k, n);
      assert Probe(n, r, -1, k) == start;
      assert FirstSelectableStep(items, r, -1, 1, k);
      if exists k' :: FirstSelectableStep(items, r, -1, 1, k') && NextFocus(items, r, -1) == Probe(n, r, -1, k') {
        var k' :| FirstSelectableStep(items, r, -1, 1, k') && NextFocus(items, r, -1) == Probe(n, r, -1, k');
        assert k' == k;
      }
    }
  }

  /**
   * Five items with the second and fourth unselectable: Tab from the first lands on the third,
   * skipping the second.
   */
  lemma TabSkipsUnselectable(items: seq<bool>)
    requires |items| == 5 && items[0] && !items[1] && items[2] && !items[3] && items[4]
    ensures NextFocus(items, 0, 1) == 2
  {
    assert SearchFrom(items, 0, 1, 1) == SearchFrom(items, 0, 1, 2);
  }

  /** With the same five items, Tab from the last wraps around to the first. */
  lemma TabWrapsAround(items: seq<bool>)
    requires |items| == 5 && items[0] && !items[1] && items[2] && !items[3] && items[4]
    ensures NextFocus(items, 4, 1) == 0
  {
  }
}
