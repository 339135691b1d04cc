/** First-fit allocation of port blocks (internal/ports/allocator.go). */
module Allocator {
  import opened PortForward

  const LAST_PORT := 65535

  datatype Block = Block(start: int, size: int) {
    function ImportRelay(): int { start + 4 }

    function End(): int { start + size - 1 }
  }

  /** What the operating system answers to a listen on 127.0.0.1 or, for the
      relay port of a block, on 0.0.0.0. */
  datatype Sockets = Sockets(loopback: int -> bool, anywhere: int -> bool)

  predicate Bindable(os: Sockets, block: Block, port: int)
  {
    if port == block.ImportRelay() then os.anywhere(port) else os.loopback(port)
  }

  /** Every port of the block can be bound: the fifth, which the relay uses, on
      all addresses, the others on the loopback address. */
  ghost predicate Available(os: Sockets, block: Block)
  {
    forall port | Holds(block, port) :: if port == block.start + 4 then os.anywhere(port) else os.loopback(port)
  }

  ghost predicate Holds(block: Block, port: int) { 0 <= port - block.start < block.size }

  /** Some port belongs to both blocks. */
  ghost predicate SharesPort(a: Block, b: Block)
  {
    exists port :: Holds(a, port) && Holds(b, port)
  }

  ghost predicate SharesAny(block: Block, used: seq<Block>)
  {
    exists i | 0 <= i < |used| :: SharesPort(block, used[i])
  }

  function Slot(base: int, size: int, k: nat): Block { Block(base + k * size, size) }

  /** How many whole blocks fit between the base and the last port. */
  function Slots(base: int, size: int): nat
    requires base >= 1 && size >= 1
  {
    if base > LAST_PORT then 0 else (LAST_PORT + 1 - base) / size
  }

  lemma Multiples(a: int, b: int, size: int)
    requires size >= 0 && a <= b
    ensures a * size <= b * size
  {
  }

  lemma SlotFits(base: int, size: int, k: nat)
    requires base >= 1 && size >= 1
    ensures Slot(base, size, k).End() <= LAST_PORT <==> k < Slots(base, size)
  {
    var room := LAST_PORT + 1 - base;
    Multiples(0, k, size);
    if room >= 0 {
      var n := room / size;
      assert n * size <= room < n * size + size;
      if k < n {
        Multiples(k + 1, n, size);
        assert (k + 1) * size == k * size + size;
      } else {
        Multiples(n, k, size);
      }
    }
  }

  method OverlapsAny(candidate: Block, used: seq<Block>) returns (r: bool)
    requires candidate.size >= 1 && forall i | 0 <= i < |used| :: used[i].size >= 1
    ensures r <==> SharesAny(candidate, used)
  {
    for i := 0 to |used|
      invariant forall j | 0 <= j < i :: !SharesPort(candidate, used[j])
    {
      var block := used[i];
      if candidate.start <= block.End() && block.start <= candidate.End() {
        var port := if candidate.start <= block.start then block.start else candidate.start;
        assert Holds(candidate, port) && Holds(block, port);
        assert SharesPort(candidate, used[i]);
        return true;
      }
    }
    return false;
  }

  method BlockAvailable(os: Sockets, block: Block) returns (r: bool)
    ensures r <==> Available(os, block)
  {
    var port := block.start;
    while port <= block.End()
      invariant block.start <= port
      invariant forall p | Holds(block, p) && p < port :: Bindable(os, block, p)
      decreases block.End() + 1 - port
    {
      if !Bindable(os, block, port) {
        assert Holds(block, port);
        return false;
      }
      port := port + 1;
    }
    return true;
  }

  ghost predicate Grantable(os: Sockets, used: seq<Block>, block: Block)
  {
    !SharesAny(block, used) && Available(os, block)
  }

  /** Below the number of slots are exactly the blocks that end at a port. */
  lemma SlotsSay(base: int, size: int, k: nat)
    requires base >= 1 && size >= 1
    ensures k < Slots(base, size) <==> base + k * size + size <= 0x1_0000
  {
    SlotFits(base, size, k);
  }

  /** The first aligned block that shares no port with a used block and that
      the system grants; none exactly when no such block exists. */
  method Reserve(base: int, size: int, used: seq<Block>, os: Sockets) returns (r: Option<Block>)
    requires forall i | 0 <= i < |used| :: used[i].size >= 1
    ensures base < 1 || size < 6 ==> r.None?
    ensures r.Some? ==> base >= 1 && size >= 6 && exists k: nat ::
              && k < Slots(base, size) && r.value == Slot(base, size, k) == Block(base + k * size, size)
              && Grantable(os, used, Slot(base, size, k))
              && forall j: nat | j < k :: !Grantable(os, used, Slot(base, size, j))
    ensures r.None? && base >= 1 && size >= 6 ==>
              forall j: nat | j < Slots(base, size) :: !Grantable(os, used, Slot(base, size, j))
  {
    if base < 1 || size < 6 {
      return None;
    }
    var start := base;
    ghost var k: nat := 0;
    while start + size - 1 <= LAST_PORT
      invariant start == base + k * size
      invariant forall j: nat | j < k :: !Grantable(os, used, Slot(base, size, j))
      decreases LAST_PORT - start
    {
      var candidate := Block(start, size);
      assert candidate == Slot(base, size, k);
      SlotFits(base, size, k);
      var taken := OverlapsAny(candidate, used);
      if !taken {
        var free := BlockAvailable(os, candidate);
        if free {
          return Some(candidate);
        }
      }
      assert (k + 1) * size == k * size + size;
      start := start + size;
      k := k + 1;
    }
    SlotFits(base, size, k);
    return None;
  }

  // ---- pigeonhole -----------------------------------------------------------

  ghost predicate Aligned(base: int, size: int, block: Block)
  {
    exists k: nat :: block == Slot(base, size, k)
  }

  lemma SlotsDisjoint(base: int, size: int, j: nat, k: nat)
    requires size >= 1
    ensures SharesPort(Slot(base, size, j), Slot(base, size, k)) <==> j == k
  {
    if j < k {
      assert (j + 1) * size <= k * size;
    } else if k < j {
      assert (k + 1) * size <= j * size;
    } else {
      assert Holds(Slot(base, size, j), Slot(base, size, j).start);
    }
  }

  /** With fewer used blocks than slots, some slot below the bound is free. */
  lemma {:induction false} FreeSlot(base: int, size: int, used: seq<Block>, bound: nat) returns (k: nat)
    requires size >= 1 && |used| < bound
    requires forall i | 0 <= i < |used| :: Aligned(base, size, used[i])
    ensures k < bound && !SharesAny(Slot(base, size, k), used)
  {
    var all := Below(bound);
    var taken := set j | j in all && exists i | 0 <= i < |used| :: used[i] == Slot(base, size, j);
    TakenBound(base, size, used, bound, taken);
    if all <= taken {
      SubsetSize(all, taken);
    }
    k :| k in all && k !in taken;
    if SharesAny(Slot(base, size, k), used) {
      var i :| 0 <= i < |used| && SharesPort(Slot(base, size, k), used[i]);
      var j: nat :| used[i] == Slot(base, size, j);
      SlotsDisjoint(base, size, k, j);
    }
  }

  lemma {:induction false} SubsetSize(a: set<nat>, b: set<nat>)
    requires a <= b
    ensures |a| <= |b|
  {
    if a != {} {
      var x :| x in a;
      SubsetSize(a - {x}, b - {x});
    }
  }

  ghost function Below(n: nat): (r: set<nat>)
    ensures |r| == n
    ensures forall j :: j in r <==> 0 <= j < n
  {
    if n == 0 then {} else Below(n - 1) + {n - 1}
  }

  lemma {:induction false} TakenBound(base: int, size: int, used: seq<Block>, bound: nat, taken: set<nat>)
    requires size >= 1
    requires forall j | j in taken :: exists i | 0 <= i < |used| :: used[i] == Slot(base, size, j)
    ensures |taken| <= |used|
  {
    if |used| == 0 {
      assert taken == {};
    } else if j :| j in taken && used[0] == Slot(base, size, j) {
      forall other | other in taken && other != j ensures used[0] != Slot(base, size, other) {
        SlotsDisjoint(base, size, j, other);
      }
      TakenBound(base, size, used[1..], bound, taken - {j});
    } else {
      TakenBound(base, size, used[1..], bound, taken);
    }
  }

  /** When the system grants every port, allocation among aligned blocks of one
      size succeeds as long as fewer blocks are used than fit. */
  lemma ReserveCannotFail(base: int, size: int, used: seq<Block>, os: Sockets) returns (k: nat)
    requires base >= 1 && size >= 6 && |used| < Slots(base, size)
    requires forall i | 0 <= i < |used| :: Aligned(base, size, used[i])
    requires forall port | 1 <= port <= LAST_PORT :: os.loopback(port) && os.anywhere(port)
    ensures k < Slots(base, size) && Grantable(os, used, Slot(base, size, k))
  {
    k := FreeSlot(base, size, used, Slots(base, size));
    SlotFits(base, size, k);
    assert k * size >= 0;
  }

  /** The bound is tight: a used list as long as there are slots can block
      every slot. */
  lemma BoundIsTight(base: int, size: int, used: seq<Block>, os: Sockets)
    requires base >= 1 && size >= 6
    requires used == seq(Slots(base, size), (k: nat) => Slot(base, size, k))
    ensures forall j: nat | j < Slots(base, size) :: !Grantable(os, used, Slot(base, size, j))
  {
    forall j: nat | j < Slots(base, size) ensures !Grantable(os, used, Slot(base, size, j)) {
      SlotsDisjoint(base, size, j, j);
      assert SharesPort(Slot(base, size, j), used[j]);
    }
  }
}
