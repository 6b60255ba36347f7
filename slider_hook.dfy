/** The `useSlider` hook: a keyboard cursor over `numItems` slots, moved one slot
    at a time by a "next" and a "previous" arrow key while the slider is active.

    The hook registers a `keyup` listener whose closure captures the position
    and the `isActive` prop of its render; an effect swaps in a new listener
    after each re-render that changed either. The model assumes every event
    arrives after the previous event's re-render and listener swap, so that it
    is handled against the state the previous event left; an event handled by
    a stale listener is not modelled. `Step` is what one event does, `Run` what
    a sequence of events does, and the class `Slider` holds the state the hook
    keeps between renders. */
module SliderHook {

  /** Values of `KeyboardEvent.key`: the four arrows, and `Other` for any other key. */
  datatype Key = ArrowRight | ArrowLeft | ArrowUp | ArrowDown | Other

  /** The `ArrowKey` union: the keys a slider may be configured with. */
  type ArrowKey = k: Key | !k.Other? witness ArrowRight

  /** The props of one `useSlider` call, apart from the starting position. */
  datatype Config = Config(numItems: int, nextKey: ArrowKey, prevKey: ArrowKey, isActive: bool)

  /** The error thrown when the hook is called with no slots. */
  datatype SliderError = NumItemsNotPositive

  datatype Result<T> = Ok(value: T) | Err(error: SliderError)

  predicate InRange(c: Config, p: int) {
    0 <= p < c.numItems
  }

  /** What the keyup listener does to the position `p` on key `k`. The `switch`
      tests `nextKey` before `prevKey`. The position is never validated, so the
      function is total; it never carries the position across a bound it did not
      already lie beyond. */
  function Step(c: Config, p: int, k: Key): (r: int)
    ensures -1 <= r - p <= 1
    ensures r != p ==> c.isActive && (k == c.nextKey || k == c.prevKey)
    ensures r > p ==> r < c.numItems
    ensures r < p ==> 0 <= r
    ensures InRange(c, p) ==> InRange(c, r)
  {
    if !c.isActive then p
    else if k == c.nextKey then (if p < c.numItems - 1 then p + 1 else p)
    else if k == c.prevKey then (if p > 0 then p - 1 else p)
    else p
  }

  /** The position after the listener has handled `keys`, in arrival order. */
  function Run(c: Config, p: int, keys: seq<Key>): (r: int)
    ensures InRange(c, p) ==> InRange(c, r)
    ensures -|keys| <= r - p <= |keys|
    decreases |keys|
  {
    if keys == [] then p else Run(c, Step(c, p, keys[0]), keys[1..])
  }

  /** `m` presses of the same key. */
  function Repeat(k: Key, m: nat): (keys: seq<Key>)
    ensures |keys| == m && forall i :: 0 <= i < m ==> keys[i] == k
  {
    seq(m, _ => k)
  }

  function Min(a: int, b: int): int { if a <= b then a else b }

  function Max(a: int, b: int): int { if a >= b then a else b }

  /** An active slider moves up by exactly one on `nextKey` below the last slot
      and stays put at or beyond it. */
  lemma NextKeyAdvances(c: Config, p: int)
    requires c.isActive
    ensures p < c.numItems - 1 ==> Step(c, p, c.nextKey) == p + 1
    ensures p >= c.numItems - 1 ==> Step(c, p, c.nextKey) == p
  {
  }

  /** An active slider moves down by exactly one on `prevKey` above slot 0 and
      stays put at or below it (the two keys being different). */
  lemma PrevKeyRetreats(c: Config, p: int)
    requires c.isActive && c.nextKey != c.prevKey
    ensures p > 0 ==> Step(c, p, c.prevKey) == p - 1
    ensures p <= 0 ==> Step(c, p, c.prevKey) == p
  {
  }

  /** An inactive slider ignores every key, an active one every key other than
      its own two. */
  lemma IgnoredKeys(c: Config, p: int, k: Key)
    requires !c.isActive || (k != c.nextKey && k != c.prevKey)
    ensures Step(c, p, k) == p
  {
  }

  /** Handling `a` and then `b` is handling `a + b`. */
  lemma {:induction false} RunAppend(c: Config, p: int, a: seq<Key>, b: seq<Key>)
    ensures Run(c, p, a + b) == Run(c, Run(c, p, a), b)
    decreases |a|
  {
    if a == [] {
      assert a + b == b;
    } else {
      assert (a + b)[1..] == a[1..] + b;
      RunAppend(c, Step(c, p, a[0]), a[1..], b);
    }
  }

  /** A sequence of events none of which the slider reacts to leaves the
      position where it was: all of them while inactive, or keys other than its
      own two while active. */
  lemma {:induction false} RunIgnored(c: Config, p: int, keys: seq<Key>)
    requires !c.isActive || forall i :: 0 <= i < |keys| ==> keys[i] != c.nextKey && keys[i] != c.prevKey
    ensures Run(c, p, keys) == p
    decreases |keys|
  {
    if keys != [] {
      RunIgnored(c, p, keys[1..]);
    }
  }

  /** `m` presses of `nextKey` from an in-range slot take an active slider `m`
      slots up, saturating at the last slot. */
  lemma {:induction false} RepeatNext(c: Config, p: int, m: nat)
    requires c.isActive && InRange(c, p)
    ensures Run(c, p, Repeat(c.nextKey, m)) == Min(p + m, c.numItems - 1)
    decreases m
  {
    if m > 0 {
      assert Repeat(c.nextKey, m)[1..] == Repeat(c.nextKey, m - 1);
      RepeatNext(c, Step(c, p, c.nextKey), m - 1);
    }
  }

  /** `m` presses of `prevKey` from an in-range slot take an active slider `m`
      slots down, saturating at slot 0. */
  lemma {:induction false} RepeatPrev(c: Config, p: int, m: nat)
    requires c.isActive && c.nextKey != c.prevKey && InRange(c, p)
    ensures Run(c, p, Repeat(c.prevKey, m)) == Max(p - m, 0)
    decreases m
  {
    if m > 0 {
      assert Repeat(c.prevKey, m)[1..] == Repeat(c.prevKey, m - 1);
      RepeatPrev(c, Step(c, p, c.prevKey), m - 1);
    }
  }

  /** Saturation is idempotent: at the last slot any number of `nextKey`
      presses, and at slot 0 any number of `prevKey` presses, change nothing. */
  lemma SaturationIdempotent(c: Config, m: nat)
    requires c.isActive && c.nextKey != c.prevKey && c.numItems >= 1
    ensures Run(c, c.numItems - 1, Repeat(c.nextKey, m)) == c.numItems - 1
    ensures Run(c, 0, Repeat(c.prevKey, m)) == 0
  {
    RepeatNext(c, c.numItems - 1, m);
    RepeatPrev(c, 0, m);
  }

  /** The state one `useSlider` call keeps: its props and its position. */
  class Slider {
    const numItems: int
    const nextKey: ArrowKey
    const prevKey: ArrowKey
    var isActive: bool
    var position: int

    function Props(): Config
      reads this
    {
      Config(numItems, nextKey, prevKey, isActive)
    }

    predicate InBounds()
      reads this
    {
      InRange(Props(), position)
    }

    /** Mounting the hook; the starting position is taken as given. */
    constructor(numItems: int, nextKey: ArrowKey, prevKey: ArrowKey, startingPosition: int := 0, isActive: bool := true)
      requires numItems >= 1
      ensures Props() == Config(numItems, nextKey, prevKey, isActive)
      ensures position == startingPosition
    {
      this.numItems := numItems;
      this.nextKey := nextKey;
      this.prevKey := prevKey;
      this.isActive := isActive;
      this.position := startingPosition;
    }

    /** The keyup listener. */
    method OnKeyUp(k: Key)
      modifies this`position
      ensures position == Step(old(Props()), old(position), k)
      ensures old(InBounds()) ==> InBounds()
    {
      if !isActive {
        return;
      }
      if k == nextKey {
        if position < numItems - 1 {
          position := position + 1;
        }
      } else if k == prevKey {
        if position > 0 {
          position := position - 1;
        }
      }
    }

    /** A re-render with a new `isActive` prop; the position is kept. */
    method SetActive(active: bool)
      modifies this`isActive
      ensures Props() == old(Props()).(isActive := active)
    {
      isActive := active;
    }
  }

  /** Calling the hook: fails when there are no slots, and otherwise mounts a
      slider at the starting position. */
  method UseSlider(numItems: int, nextKey: ArrowKey, prevKey: ArrowKey, startingPosition: int := 0, isActive: bool := true)
    returns (r: Result<Slider>)
    ensures r.Err? <==> numItems < 1
    ensures r.Err? ==> r.error == NumItemsNotPositive
    ensures r.Ok? ==> fresh(r.value) && r.value.position == startingPosition
    ensures r.Ok? ==> r.value.Props() == Config(numItems, nextKey, prevKey, isActive)
  {
    if numItems < 1 {
      return Err(NumItemsNotPositive);
    }
    var s := new Slider(numItems, nextKey, prevKey, startingPosition, isActive);
    return Ok(s);
  }
}
