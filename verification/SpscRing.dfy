/**
The single-producer single-consumer ring, one memory access per step.

The producer and the consumer each run a small program over the shared indices `head` and `tail`,
which count modulo 2^64, and the slots of `buffer`. `Step` is the program; `Emits` says what a step
returns to its caller. The element type is never inspected.
*/
module SpscRing {
  import opened Wrappers

  type Item(==, !new, 0)

  const WORD: nat := 0x1_0000_0000_0000_0000
  const HALF: nat := 0x8000_0000_0000_0000

  // ---------------------------------------------------------------- bits

  function Pow2(k: nat): (p: nat)
    ensures p >= 1
  {
    if k == 0 then 1 else 2 * Pow2(k - 1)
  }

  ghost predicate IsPow2(n: nat) {
    exists k: nat :: n == Pow2(k)
  }

  /** `a & b` on unsigned integers, bit by bit. */
  function BitAnd(a: nat, b: nat): nat
    decreases a
  {
    if a == 0 then 0 else 2 * BitAnd(a / 2, b / 2) + (a % 2) * (b % 2)
  }

  /** The smallest power of two that is at least `n`, doubling from `p`. */
  function CeilFrom(p: nat, n: nat): (r: nat)
    requires p > 0
    decreases n - p
  {
    if p >= n then p else CeilFrom(2 * p, n)
  }

  /** `normalize_capacity`: none when the constructor throws. Above 2^63 `std::bit_ceil` has no result. */
  function NormalizeCapacity(requested: nat): Option<nat>
    requires requested <= HALF
  {
    if requested < 2 then None else Some(CeilFrom(1, requested))
  }

  /** Masking with a power of two less one is the remainder. */
  lemma {:induction false} MaskIsMod(a: nat, k: nat)
    ensures BitAnd(a, Pow2(k) - 1) == a % Pow2(k)
    decreases a + k
  {
    if a == 0 {
      SmallMod(0, Pow2(k));
    } else if k == 0 {
      AndZero(a);
    } else {
      var p := Pow2(k - 1);
      MaskIsMod(a / 2, k - 1);
      ModDouble(a, p);
      HalfOfMask(p);
    }
  }

  lemma HalfOfMask(p: nat)
    requires p >= 1
    ensures (2 * p - 1) / 2 == p - 1 && (2 * p - 1) % 2 == 1
  {
  }

  lemma {:induction false} AndZero(a: nat)
    ensures BitAnd(a, 0) == 0
  {
    if a > 0 {
      AndZero(a / 2);
    }
  }

  lemma ModDouble(a: nat, p: nat)
    requires p > 0
    ensures a % (2 * p) == 2 * ((a / 2) % p) + a % 2
  {
    var q, r := (a / 2) / p, (a / 2) % p;
    assert a / 2 == p * q + r;
    assert (2 * p) * q == 2 * (p * q);
    ModUnique(a, 2 * p, q, 2 * r + a % 2);
  }

  lemma AtLeastOneTimes(m: nat, d: int)
    ensures d >= 1 ==> m * d >= m
    ensures d <= -1 ==> m * d <= 0 - m
  {
  }

  lemma ModUnique(a: int, m: nat, q: int, r: nat)
    requires m > 0 && r < m && a == m * q + r
    ensures a % m == r
  {
    var q', r' := a / m, a % m;
    assert a == m * q' + r' && 0 <= r' < m;
    assert m * (q - q') == m * q - m * q';
    AtLeastOneTimes(m, q - q');
  }

  lemma {:induction false} WordIsPow2()
    ensures Pow2(64) == WORD && Pow2(63) == HALF
  {
    assert Pow2(8) == 256;
    assert Pow2(16) == 0x1_0000;
    assert Pow2(24) == 0x100_0000;
    assert Pow2(32) == 0x1_0000_0000;
    assert Pow2(40) == 0x100_0000_0000;
    assert Pow2(48) == 0x1_0000_0000_0000;
    assert Pow2(56) == 0x100_0000_0000_0000;
  }

  lemma {:induction false} Pow2Divides(k: nat, n: nat)
    requires k <= n
    ensures Pow2(n) == Pow2(k) * Pow2(n - k)
    decreases n
  {
    if k < n {
      Pow2Divides(k, n - 1);
    }
  }

  lemma {:induction false} Pow2Monotone(k: nat, n: nat)
    requires k < n
    ensures Pow2(k) < Pow2(n)
    decreases n
  {
    if k < n - 1 {
      Pow2Monotone(k, n - 1);
    }
  }

  /** `bit_ceil`: a power of two that is large enough, and half of it is not. */
  lemma {:induction false} CeilIsSmallest(k: nat, n: nat)
    requires k == 0 || Pow2(k) < 2 * n
    requires n >= 1
    ensures IsPow2(CeilFrom(Pow2(k), n))
    ensures n <= CeilFrom(Pow2(k), n)
    ensures CeilFrom(Pow2(k), n) < 2 * n
    decreases n - Pow2(k)
  {
    if Pow2(k) < n {
      assert Pow2(k + 1) == 2 * Pow2(k);
      CeilIsSmallest(k + 1, n);
    }
  }

  /** A power of two below 2^64 is at most 2^63. */
  lemma Pow2BelowWord(k: nat)
    requires Pow2(k) < WORD
    ensures k <= 63 && Pow2(k) <= HALF
  {
    WordIsPow2();
    Pow2Order(k, 64);
    Pow2Order(k, 63);
  }

  lemma Pow2Order(k: nat, n: nat)
    ensures Pow2(k) < Pow2(n) <==> k < n
  {
    if k < n {
      Pow2Monotone(k, n);
    } else if n < k {
      Pow2Monotone(n, k);
    }
  }

  /** The capacity of every ring that can be constructed: a power of two between 2 and 2^63. */
  lemma {:induction false} CapacityIsPow2(requested: nat)
    requires 2 <= requested <= HALF
    ensures var c := NormalizeCapacity(requested);
      c.Some? && IsPow2(c.value) && requested <= c.value < 2 * requested && 2 <= c.value <= HALF
  {
    assert Pow2(0) == 1;
    CeilIsSmallest(0, requested);
    var k: nat :| CeilFrom(1, requested) == Pow2(k);
    Pow2BelowWord(k);
  }

  // ---------------------------------------------------------------- the program

  datatype Producer =
    | Resting
    | ReadTail(v: Item, tail: nat)     // tail_ loaded; head_ is compared next
    | Writing(v: Item, tail: nat)      // there was room; the slot is written next
    | Publishing(v: Item, tail: nat)   // tail_ is stored next

  datatype Consumer =
    | Waiting
    | ReadHead(head: nat)              // head_ loaded; tail_ is compared next
    | Taking(head: nat)                // there was an element; the slot is emptied next
    | Releasing(head: nat, out: Option<Item>)

  datatype World = World(capacity: nat, buffer: seq<Option<Item>>, head: nat, tail: nat, prod: Producer, cons: Consumer)

  datatype Turn = Produce(v: Item) | Consume

  datatype Event = Silent | Pushed(v: Item) | PushFull | Popped(out: Option<Item>) | PopEmpty

  function Initial(capacity: nat): World {
    World(capacity, seq(capacity, _ => None), 0, 0, Resting, Waiting)
  }

  /** `index & mask_`. */
  function SlotOf(w: World, index: nat): nat
    requires w.capacity > 0
  {
    BitAnd(index, w.capacity - 1)
  }

  /** A difference of two unsigned 64-bit counters. */
  function Minus(a: nat, b: nat): nat {
    (a - b) % WORD
  }

  function Step(w: World, turn: Turn): World
    requires w.capacity > 0
  {
    if turn.Produce? then
      match w.prod
      case Resting => w.(prod := ReadTail(turn.v, w.tail))
      case ReadTail(v, tail) =>
        if Minus(tail, w.head) == w.capacity then w.(prod := Resting) else w.(prod := Writing(v, tail))
      case Writing(v, tail) =>
        if SlotOf(w, tail) >= |w.buffer| then w
        else w.(buffer := w.buffer[SlotOf(w, tail) := Some(v)], prod := Publishing(v, tail))
      case Publishing(v, tail) => w.(tail := (tail + 1) % WORD, prod := Resting)
    else
      match w.cons
      case Waiting => w.(cons := ReadHead(w.head))
      case ReadHead(head) => if head == w.tail then w.(cons := Waiting) else w.(cons := Taking(head))
      case Taking(head) =>
        if SlotOf(w, head) >= |w.buffer| then w
        else w.(buffer := w.buffer[SlotOf(w, head) := None], cons := Releasing(head, w.buffer[SlotOf(w, head)]))
      case Releasing(head, _) => w.(head := (head + 1) % WORD, cons := Waiting)
  }

  /** What a step makes visible: a push by its store of `tail_`, a pop by its store of `head_`, and a
      failure by the load that decides it. */
  function Emits(w: World, turn: Turn): Event {
    if turn.Produce? then
      match w.prod
      case ReadTail(_, tail) => if Minus(tail, w.head) == w.capacity then PushFull else Silent
      case Publishing(v, _) => Pushed(v)
      case _ => Silent
    else
      match w.cons
      case ReadHead(head) => if head == w.tail then PopEmpty else Silent
      case Releasing(_, out) => Popped(out)
      case _ => Silent
  }

  // ---------------------------------------------------------------- the invariant

  /** `pushed` lists the published items since the start, of which the first `popped` were released. */
  ghost predicate Inv(w: World, pushed: seq<Item>, popped: nat) {
    && IsPow2(w.capacity) && w.capacity <= HALF
    && |w.buffer| == w.capacity
    && w.tail == |pushed| % WORD
    && w.head == popped % WORD
    && popped <= |pushed| <= popped + w.capacity
    && (!w.prod.Resting? ==> w.prod.tail == w.tail)
    && (w.prod.Writing? || w.prod.Publishing? ==> |pushed| < popped + w.capacity)
    && (w.prod.Publishing? ==> w.buffer[|pushed| % w.capacity] == Some(w.prod.v))
    && (!w.cons.Waiting? ==> w.cons.head == w.head)
    && (w.cons.Taking? || w.cons.Releasing? ==> popped < |pushed|)
    && (w.cons.Releasing? ==> w.cons.out == Some(pushed[popped]))
    && (forall i | popped <= i < |pushed| && (w.cons.Releasing? ==> i > popped) ::
          w.buffer[i % w.capacity] == Some(pushed[i]))
  }

  lemma SmallMod(a: nat, m: nat)
    requires a < m
    ensures a % m == a
  {
  }

  /** The counters determine the occupancy although they wrap. */
  lemma Occupancy(t: nat, h: nat)
    requires h <= t < h + WORD
    ensures Minus(t % WORD, h % WORD) == t - h
    ensures t % WORD == h % WORD <==> t == h
  {
    var a, b := t / WORD, h / WORD;
    assert t % WORD - h % WORD == WORD * (b - a) + (t - h);
    ModUnique(t % WORD - h % WORD, WORD, b - a, t - h);
  }

  /** Wrapped counters select the same slot as the counts they stand for. */
  lemma SlotIsMod(w: World, i: nat)
    requires IsPow2(w.capacity) && w.capacity <= HALF
    ensures SlotOf(w, i % WORD) == i % w.capacity < w.capacity
  {
    var k: nat :| w.capacity == Pow2(k);
    Pow2BelowWord(k);
    Pow2Divides(k, 64);
    WordIsPow2();
    MaskIsMod(i % WORD, k);
    ModOfMod(i, w.capacity, Pow2(64 - k));
  }

  lemma ModOfMod(i: nat, m: nat, s: nat)
    requires m > 0 && m * s == WORD
    ensures (i % WORD) % m == i % m
  {
    var q, r := i / WORD, i % WORD;
    var u, v := r / m, r % m;
    assert r == m * u + v;
    assert WORD * q == m * (s * q);
    assert m * (s * q + u) == m * (s * q) + m * u;
    ModUnique(i, m, s * q + u, v);
  }

  /** Less than a capacity apart, two counts select different slots. */
  lemma SlotsDiffer(i: nat, j: nat, m: nat)
    requires m > 0 && i < j < i + m
    ensures i % m != j % m
  {
    var a, b := i / m, j / m;
    assert i == m * a + i % m && j == m * b + j % m;
    assert m * (b - a) == m * b - m * a;
    AtLeastOneTimes(m, b - a);
  }

  lemma {:induction false} ProducerKeeps(w: World, pushed: seq<Item>, popped: nat, v: Item)
    requires Inv(w, pushed, popped)
    ensures Inv(Step(w, Produce(v)),
                if w.prod.Publishing? then pushed + [w.prod.v] else pushed, popped)
    ensures Emits(w, Produce(v)) == PushFull ==> |pushed| - popped == w.capacity
  {
    Occupancy(|pushed|, popped);
    SlotIsMod(w, |pushed|);
    if w.prod.Writing? {
      forall i | popped <= i < |pushed| ensures i % w.capacity != |pushed| % w.capacity {
        SlotsDiffer(i, |pushed|, w.capacity);
      }
    } else if w.prod.Publishing? {
      NextCount(|pushed|);
    }
  }

  lemma NextCount(n: nat)
    ensures (n % WORD + 1) % WORD == (n + 1) % WORD
  {
  }

  lemma {:induction false} ConsumerKeeps(w: World, pushed: seq<Item>, popped: nat)
    requires Inv(w, pushed, popped)
    ensures Inv(Step(w, Consume), pushed, if w.cons.Releasing? then popped + 1 else popped)
    ensures Emits(w, Consume) == PopEmpty ==> |pushed| == popped
    ensures w.cons.Releasing? ==> popped < |pushed| && w.cons.out == Some(pushed[popped])
  {
    Occupancy(|pushed|, popped);
    SlotIsMod(w, popped);
    if w.cons.Taking? {
      forall i | popped < i <= |pushed| && i < popped + w.capacity ensures i % w.capacity != popped % w.capacity {
        SlotsDiffer(popped, i, w.capacity);
      }
    } else if w.cons.Releasing? {
      NextCount(popped);
    }
  }

  /** The slot being written is never the slot being read. */
  lemma NoSlotRace(w: World, pushed: seq<Item>, popped: nat)
    requires Inv(w, pushed, popped)
    requires w.prod.Writing? && w.cons.Taking?
    ensures SlotOf(w, w.prod.tail) != SlotOf(w, w.cons.head)
  {
    SlotIsMod(w, |pushed|);
    SlotIsMod(w, popped);
    SlotsDiffer(popped, |pushed|, w.capacity);
  }

  // ---------------------------------------------------------------- runs

  ghost function Run(capacity: nat, turns: seq<Turn>): (w: World)
    requires capacity > 0
    ensures w.capacity == capacity
    decreases |turns|
  {
    if turns == [] then Initial(capacity)
    else Step(Run(capacity, turns[..|turns| - 1]), turns[|turns| - 1])
  }

  ghost function EventAt(capacity: nat, turns: seq<Turn>, i: nat): Event
    requires capacity > 0 && i < |turns|
  {
    Emits(Run(capacity, turns[..i]), turns[i])
  }

  /** The items whose push returned true. */
  ghost function Accepted(capacity: nat, turns: seq<Turn>): seq<Item>
    requires capacity > 0
    decreases |turns|
  {
    if turns == [] then []
    else
      var k := |turns| - 1;
      var e := EventAt(capacity, turns, k);
      Accepted(capacity, turns[..k]) + if e.Pushed? then [e.v] else []
  }

  /** What the pops that found an element returned. */
  ghost function Delivered(capacity: nat, turns: seq<Turn>): seq<Option<Item>>
    requires capacity > 0
    decreases |turns|
  {
    if turns == [] then []
    else
      var k := |turns| - 1;
      var e := EventAt(capacity, turns, k);
      Delivered(capacity, turns[..k]) + if e.Popped? then [e.out] else []
  }

  /** What the caller of a run has seen, against the state the run ends in. */
  ghost predicate Explained(w: World, pushed: seq<Item>, delivered: seq<Option<Item>>) {
    && Inv(w, pushed, |delivered|)
    && |delivered| <= |pushed|
    && forall i | 0 <= i < |delivered| :: delivered[i] == Some(pushed[i])
  }

  lemma {:induction false} RunInv(capacity: nat, turns: seq<Turn>)
    requires IsPow2(capacity) && capacity <= HALF
    ensures Explained(Run(capacity, turns), Accepted(capacity, turns), Delivered(capacity, turns))
    decreases |turns|
  {
    if turns == [] {
      SmallMod(0, WORD);
    } else {
      var k := |turns| - 1;
      RunInv(capacity, turns[..k]);
      StepExplained(Run(capacity, turns[..k]), Accepted(capacity, turns[..k]), Delivered(capacity, turns[..k]), turns[k]);
    }
  }

  lemma StepExplained(w: World, pushed: seq<Item>, delivered: seq<Option<Item>>, turn: Turn)
    requires Explained(w, pushed, delivered)
    ensures var e := Emits(w, turn);
      Explained(Step(w, turn), pushed + (if e.Pushed? then [e.v] else []), delivered + (if e.Popped? then [e.out] else []))
  {
    assert pushed + [] == pushed && delivered + [] == delivered;
    if turn.Produce? {
      ProducerKeeps(w, pushed, |delivered|, turn.v);
    } else {
      ConsumerKeeps(w, pushed, |delivered|);
    }
  }

  /** A bounded first-in-first-out queue, under every interleaving: what was popped is a prefix of what
      was pushed, in order, and never more than the capacity lies between. */
  lemma {:induction false} BoundedFifo(capacity: nat, turns: seq<Turn>)
    requires IsPow2(capacity) && capacity <= HALF
    ensures var pushed, delivered := Accepted(capacity, turns), Delivered(capacity, turns);
      && |delivered| <= |pushed| <= |delivered| + capacity
      && forall i | 0 <= i < |delivered| :: delivered[i] == Some(pushed[i])
  {
    RunInv(capacity, turns);
  }

  /** A push fails exactly when the ring is full at its load of `head_`, and a pop exactly when it is
      empty at its load of `tail_`. */
  lemma {:induction false} FailuresAreReal(capacity: nat, turns: seq<Turn>, turn: Turn)
    requires IsPow2(capacity) && capacity <= HALF
    ensures var w, n := Run(capacity, turns), |Accepted(capacity, turns)| - |Delivered(capacity, turns)|;
      && (turn.Produce? && w.prod.ReadTail? ==> (Emits(w, turn) == PushFull <==> n == capacity))
      && (turn.Consume? && w.cons.ReadHead? ==> (Emits(w, turn) == PopEmpty <==> n == 0))
  {
    RunInv(capacity, turns);
    Occupancy(|Accepted(capacity, turns)|, |Delivered(capacity, turns)|);
  }

  /** In every run, the producer never writes the slot the consumer is emptying. */
  lemma {:induction false} SlotsNeverRace(capacity: nat, turns: seq<Turn>)
    requires IsPow2(capacity) && capacity <= HALF
    requires Run(capacity, turns).prod.Writing? && Run(capacity, turns).cons.Taking?
    ensures var w := Run(capacity, turns); SlotOf(w, w.prod.tail) != SlotOf(w, w.cons.head)
  {
    RunInv(capacity, turns);
    NoSlotRace(Run(capacity, turns), Accepted(capacity, turns), |Delivered(capacity, turns)|);
  }

  lemma {:induction false} CountsGrow(capacity: nat, turns: seq<Turn>, i: nat)
    requires capacity > 0 && i <= |turns|
    ensures |Accepted(capacity, turns[..i])| <= |Accepted(capacity, turns)|
    ensures |Delivered(capacity, turns[..i])| <= |Delivered(capacity, turns)|
    decreases |turns|
  {
    var k := |turns| - 1;
    if i == |turns| {
      assert turns[..i] == turns;
    } else {
      assert turns[..k][..i] == turns[..i];
      CountsGrow(capacity, turns[..k], i);
    }
  }

  /** `size_approx` loads `head_` at one moment of a run and `tail_` at a later one: it counts what was pushed
      up to the second load and not popped at the first, modulo 2^64. So it is exactly that count unless 2^64
      items or more were pushed in between. The count is never less than what is in the ring at the second
      load, and zero only if the ring was empty at the first load and nothing was pushed since. */
  lemma {:induction false} SizeApprox(capacity: nat, turns: seq<Turn>, i: nat)
    requires IsPow2(capacity) && capacity <= HALF && i <= |turns|
    ensures var size, count :=
              Minus(Run(capacity, turns).tail, Run(capacity, turns[..i]).head),
              |Accepted(capacity, turns)| - |Delivered(capacity, turns[..i])|;
      && count >= |Accepted(capacity, turns)| - |Delivered(capacity, turns)| >= 0
      && size == count % WORD
      && (size == count <==> count < WORD)
      && (count == 0 ==> |Accepted(capacity, turns)| == |Accepted(capacity, turns[..i])| == |Delivered(capacity, turns[..i])|)
  {
    RunInv(capacity, turns);
    RunInv(capacity, turns[..i]);
    CountsGrow(capacity, turns, i);
    MinusCounts(|Accepted(capacity, turns)|, |Delivered(capacity, turns[..i])|);
  }

  lemma MinusCounts(t: nat, h: nat)
    requires h <= t
    ensures Minus(t % WORD, h % WORD) == (t - h) % WORD
    ensures (t - h) % WORD == t - h <==> t - h < WORD
  {
    var a, b := t / WORD, h / WORD;
    assert t % WORD - h % WORD == (t - h) - (a - b) * WORD;
  }
}
