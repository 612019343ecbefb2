/**
  Memory partitions (game_memory.cpp, game_memory.h): bump-pointer allocators, each over a piece
  carved off the front of the global hunk.

  Memory is one byte array; an address is an index into it and address 0 is null, so the hunk
  never starts at 0. The model follows the fields game_memory.cpp uses on a partition (Piece,
  Marker, MinBlockSize, NextPiece); a partition never grows: PushSize returns null when its piece
  is full.
*/
module Memory {
  import opened Wrappers
  import opened Platform

  // ---------------------------------------------------------------------------------------------
  // Values: the state of a partition's piece and marker, and the operations on it
  // ---------------------------------------------------------------------------------------------

  /** A partition's piece (Base, Size) and its bump Marker. */
  datatype PartitionView = PartitionView(base: nat, size: nat, marker: nat)

  /** The bounds every partition keeps: a zero-initialised partition is all zero (Base is null),
      an initialised one has its marker strictly inside its piece. */
  predicate Bounded(v: PartitionView) {
    (v.base == 0 ==> v.size == 0 && v.marker == 0) &&
    (v.base != 0 ==> v.marker < v.size)
  }

  /** The request fits: PushSize's strict test `Size < Piece.Size - Marker`, so a request for
      exactly the bytes that remain is refused. */
  predicate Fits(v: PartitionView, request: nat)
    requires Bounded(v)
  {
    request < v.size - v.marker
  }

  /** The partition after a PushSize of `request` bytes: the marker moves on by the request when
      it fits, and nothing changes otherwise. */
  function PushedView(v: PartitionView, request: nat): (r: PartitionView)
    requires Bounded(v)
    ensures Bounded(r)
    ensures r.base == v.base && r.size == v.size
  {
    if Fits(v, request) then v.(marker := v.marker + request) else v
  }

  /** The address PushSize returns: Base + Marker when the request fits, null (0) otherwise. */
  function PushedAddress(v: PartitionView, request: nat): nat
    requires Bounded(v)
  {
    if Fits(v, request) then v.base + v.marker else 0
  }

  /** A push of a non-zero request returns a non-null address exactly when the request fits; the
      block it returns starts at the old marker, ends at the new one, and lies inside the piece
      with at least one byte of the piece left after it. */
  lemma PushContract(v: PartitionView, request: nat)
    requires Bounded(v) && request > 0
    ensures PushedAddress(v, request) != 0 <==> Fits(v, request)
    ensures Fits(v, request) ==>
              PushedAddress(v, request) == v.base + v.marker &&
              PushedAddress(v, request) + request == v.base + PushedView(v, request).marker &&
              v.base <= PushedAddress(v, request) &&
              PushedAddress(v, request) + request < v.base + v.size
    ensures !Fits(v, request) ==> PushedView(v, request) == v
  {
  }

  /** A request for exactly the bytes left after the marker is refused. */
  lemma ExactRemainderRefused(v: PartitionView)
    requires Bounded(v)
    ensures !Fits(v, v.size - v.marker)
    ensures PushedAddress(v, v.size - v.marker) == 0
  {
  }

  /** The results of a run of PushSize calls, in order, and the partition after them. */
  function PushAll(v: PartitionView, requests: seq<nat>): (r: (PartitionView, seq<nat>))
    requires Bounded(v)
    ensures Bounded(r.0) && r.0.base == v.base && r.0.size == v.size
    ensures |r.1| == |requests|
    ensures v.marker <= r.0.marker
    decreases |requests|
  {
    if |requests| == 0 then (v, [])
    else
      var rest := PushAll(PushedView(v, requests[0]), requests[1..]);
      (rest.0, [PushedAddress(v, requests[0])] + rest.1)
  }

  /** Block i of a run of pushes, as a half-open address range [lo, hi). */
  predicate InBlock(requests: seq<nat>, addresses: seq<nat>, i: nat, a: nat)
    requires |addresses| == |requests| && i < |requests|
  {
    addresses[i] != 0 && addresses[i] <= a < addresses[i] + requests[i]
  }

  /** Every block a run of non-zero pushes hands out lies between the marker before the run
      and the marker after it. */
  lemma {:induction false} PushAllWithin(v: PartitionView, requests: seq<nat>, i: nat)
    requires Bounded(v) && i < |requests|
    requires forall k :: 0 <= k < |requests| ==> requests[k] > 0
    ensures var r := PushAll(v, requests);
      r.1[i] != 0 ==> v.base + v.marker <= r.1[i] && r.1[i] + requests[i] <= v.base + r.0.marker
    decreases |requests|
  {
    var w := PushedView(v, requests[0]);
    PushContract(v, requests[0]);
    if i > 0 {
      PushAllWithin(w, requests[1..], i - 1);
    }
  }

  /** The blocks of a run of pushes never overlap, and each lies inside the partition's piece:
      consecutive pushes hand out adjacent, disjoint ranges. */
  lemma {:induction false} PushAllDisjoint(v: PartitionView, requests: seq<nat>, i: nat, j: nat, a: nat)
    requires Bounded(v) && i < j < |requests|
    requires forall k :: 0 <= k < |requests| ==> requests[k] > 0
    ensures var r := PushAll(v, requests);
      !(InBlock(requests, r.1, i, a) && InBlock(requests, r.1, j, a))
    ensures var r := PushAll(v, requests);
      InBlock(requests, r.1, i, a) ==> v.base <= a < v.base + v.size
    decreases |requests|
  {
    var w := PushedView(v, requests[0]);
    var r := PushAll(v, requests);
    PushContract(v, requests[0]);
    PushAllWithin(v, requests, i);
    if i == 0 {
      // Block j starts at or after the marker that block 0 moved to.
      PushAllWithin(w, requests[1..], j - 1);
    } else {
      PushAllDisjoint(w, requests[1..], i - 1, j - 1, a);
    }
  }

  /** ResetPartition on one piece: the marker goes back to 0; Base and Size stay. */
  function RewoundView(v: PartitionView): (r: PartitionView)
    ensures r.marker == 0 && r.base == v.base && r.size == v.size
  {
    v.(marker := 0)
  }

  /** Resetting twice is resetting once, it keeps the bounds, and the first push after a reset
      gets the start of the piece again. */
  lemma RewindContract(v: PartitionView, request: nat)
    requires Bounded(v) && request > 0
    ensures RewoundView(RewoundView(v)) == RewoundView(v)
    ensures Bounded(RewoundView(v))
    ensures Fits(RewoundView(v), request) ==> PushedAddress(RewoundView(v), request) == v.base
  {
  }

  /** The hunk's piece after InitializePartition carves `initSize` bytes off its front, and the
      new partition: this happens only when `InitSize < Hunk.Size`, strictly. */
  function Carve(hunk: PartitionView, initSize: nat): (r: (PartitionView, PartitionView))
    requires initSize < hunk.size
  {
    (PartitionView(hunk.base + initSize, hunk.size - initSize, 0), PartitionView(hunk.base, initSize, 0))
  }

  /** The carved partition is the next initSize bytes of the hunk, the hunk keeps its end, and
      two partitions carved one after the other get adjacent, disjoint ranges. */
  lemma CarveAdjacent(hunk: PartitionView, first: nat, second: nat)
    requires 0 < first < hunk.size
    requires second < Carve(hunk, first).0.size
    ensures var (h1, p1) := Carve(hunk, first);
      p1.base == hunk.base && p1.size == first && p1.marker == 0 &&
      h1.base + h1.size == hunk.base + hunk.size
    ensures var (h1, p1) := Carve(hunk, first);
      var (h2, p2) := Carve(h1, second);
      p2.base == p1.base + p1.size && h2.base == p2.base + second
    ensures hunk.base > 0 ==> Bounded(Carve(hunk, first).1)
  {
  }

  // ---------------------------------------------------------------------------------------------
  // Objects: the hunk and the partitions, updated in place
  // ---------------------------------------------------------------------------------------------

  /** GameState.Hunk: a piece of the platform's memory, with that memory's bytes. */
  class Hunk {
    const piece: Piece
    const bytes: array<u8>

    constructor (base: nat, size: nat, bytes: array<u8>)
      requires 0 < base && base + size <= bytes.Length
      ensures Valid() && this.bytes == bytes
      ensures piece.base == base && piece.size == size && fresh(piece)
    {
      this.bytes := bytes;
      piece := new Piece(base, size);
    }

    /** The hunk lies in memory above the null address. */
    ghost predicate Valid()
      reads this, piece
    {
      0 < piece.base && piece.base + piece.size <= bytes.Length
    }

    function View(): PartitionView
      reads this, piece
    {
      PartitionView(piece.base, piece.size, 0)
    }
  }

  /** memory_partition as game_memory.cpp uses it. `chain` lists the partitions reachable through
      NextPiece, in order. */
  class Partition {
    var base: nat
    var size: nat
    var marker: nat
    var minBlockSize: nat
    var nextPiece: Partition?
    ghost var chain: seq<Partition>

    /** A zero-initialised partition. */
    constructor ()
      ensures View() == PartitionView(0, 0, 0) && minBlockSize == 0
      ensures nextPiece == null && chain == []
      ensures Valid()
    {
      base, size, marker, minBlockSize := 0, 0, 0, 0;
      nextPiece := null;
      chain := [];
    }

    function View(): PartitionView
      reads this
    {
      PartitionView(base, size, marker)
    }

    /** NextPiece runs through `chain`, visiting each partition once, and ends in null; this
        partition is not on it. */
    ghost predicate ChainLinked()
      reads this, chain
    {
      (nextPiece == null <==> |chain| == 0) &&
      (|chain| > 0 ==> nextPiece == chain[0] && chain[|chain| - 1].nextPiece == null) &&
      (forall i :: 0 <= i < |chain| - 1 ==> chain[i].nextPiece == chain[i + 1]) &&
      (forall i, j :: 0 <= i < j < |chain| ==> chain[i] != chain[j]) &&
      this !in chain
    }

    ghost predicate Valid()
      reads this, chain
    {
      Bounded(View()) && ChainLinked()
    }

    /** The piece lies in a memory of n bytes. */
    predicate InMemory(n: nat)
      reads this
    {
      base + size <= n
    }
  }

  /** InitializePartition(Partition, InitSize, MinBlockSize = 0). The assertions demand a non-zero
      InitSize and a partition whose Base is still null. When `InitSize < Hunk.Size` it carves
      the partition's piece off the hunk with ConsumeSize, sets Marker to 0, stores MinBlockSize,
      empties the NextPiece chain and zero-fills the piece, from its last byte down; otherwise it
      changes nothing and returns false. */
  method InitializePartition(p: Partition, hunk: Hunk, initSize: nat, minBlockSize: nat := 0)
    returns (result: bool)
    requires hunk.Valid() && p.Valid()
    requires initSize > 0 && p.base == 0
    modifies p, hunk.piece, hunk.bytes
    ensures result <==> initSize < old(hunk.piece.size)
    ensures result ==> (hunk.View(), p.View()) == Carve(old(hunk.View()), initSize)
    ensures result ==> p.minBlockSize == minBlockSize && p.nextPiece == null && p.chain == []
    ensures result ==> forall a :: p.base <= a < p.base + p.size ==> hunk.bytes[a] == 0
    ensures result ==> forall a :: 0 <= a < hunk.bytes.Length && !(p.base <= a < p.base + p.size) ==>
              hunk.bytes[a] == old(hunk.bytes[a])
    ensures !result ==> unchanged(p) && unchanged(hunk.piece) && unchanged(hunk.bytes)
    ensures hunk.Valid() && p.Valid() && p.InMemory(hunk.bytes.Length)
  {
    result := false;
    if initSize < hunk.piece.size {
      p.base := hunk.piece.ConsumeSize(initSize);
      p.size := initSize;
      p.marker := 0;
      p.minBlockSize := minBlockSize;
      p.nextPiece := null;
      p.chain := [];

      // `uptr At = Piece.Size; while (At--) Piece.Base[At] = 0;`
      var base: nat, at: nat := p.base, p.size;
      while at > 0
        modifies hunk.bytes
        invariant at <= initSize && base + initSize <= hunk.bytes.Length
        invariant forall a :: base + at <= a < base + initSize ==> hunk.bytes[a] == 0
        invariant forall a :: 0 <= a < hunk.bytes.Length && !(base + at <= a < base + initSize) ==>
                    hunk.bytes[a] == old(hunk.bytes[a])
        decreases at
      {
        at := at - 1;
        hunk.bytes[base + at] := 0;
      }
      result := true;
    }
  }

  /** PushSize(Partition, Size): the assertion demands a non-zero Size. Returns Base + Marker and
      bumps Marker when `Size < Piece.Size - Marker`, and null otherwise; only the marker changes. */
  method PushSize(p: Partition, size: nat) returns (result: nat)
    requires Bounded(p.View()) && size > 0
    modifies p`marker
    ensures result == PushedAddress(old(p.View()), size)
    ensures p.View() == PushedView(old(p.View()), size)
    ensures result != 0 <==> Fits(old(p.View()), size)
  {
    PushContract(p.View(), size);
    result := 0;
    if size < p.size - p.marker {
      result := p.base + p.marker;
      p.marker := p.marker + size;
    }
  }

  /** ResetPartition: Marker back to 0 on the partition and on every partition on its NextPiece
      chain; bases, sizes, links and the bytes are untouched. */
  method ResetPartition(p: Partition)
    requires p.ChainLinked()
    modifies p`marker, p.chain`marker
    ensures p.View() == RewoundView(old(p.View()))
    ensures forall i :: 0 <= i < |p.chain| ==> p.chain[i].View() == RewoundView(old(p.chain[i].View()))
    ensures p.ChainLinked()
  {
    p.marker := 0;
    var piece := p.nextPiece;
    ghost var i := 0;
    while piece != null
      invariant 0 <= i <= |p.chain|
      invariant piece == (if i < |p.chain| then p.chain[i] else null)
      invariant p.View() == RewoundView(old(p.View()))
      invariant forall k :: 0 <= k < i ==> p.chain[k].View() == RewoundView(old(p.chain[k].View()))
      invariant forall k :: i <= k < |p.chain| ==> p.chain[k].View() == old(p.chain[k].View())
      invariant p.ChainLinked()
      decreases |p.chain| - i
    {
      piece.marker := 0;
      piece := piece.nextPiece;
      i := i + 1;
    }
  }

  // ---------------------------------------------------------------------------------------------
  // The size macros and the header's declared layout
  // ---------------------------------------------------------------------------------------------

  /** PushType(Partition, Type) requests exactly sizeof(Type) bytes. */
  function PushTypeSize(typeSize: nat): nat {
    typeSize
  }

  /** PushTypeArray's request as the macro expands, `sizeof(Type) * Count`, for a Count argument
      written as the sum `left + right`: the multiplication binds to `left` only. ConsumeTypeArray
      (game_platform.h) expands its Count the same way. */
  function PushTypeArraySizeAsWritten(typeSize: nat, left: nat, right: nat): nat {
    typeSize * left + right
  }

  /** PushTypeArray's request with its Count parenthesised: room for exactly Count elements. */
  function PushTypeArraySize(typeSize: nat, count: nat): (r: nat)
    ensures typeSize > 0 ==> r / typeSize == count && r % typeSize == 0
  {
    if typeSize > 0 then
      MulMod(count, typeSize);
      assert typeSize * count == count * typeSize;
      typeSize * count
    else 0
  }

  /** For 4-byte elements and a count written `1 + 1`, the macro as written asks for 5 bytes,
      not the 8 that two elements need. */
  lemma PushTypeArrayCountUnparenthesised()
    ensures PushTypeArraySizeAsWritten(4, 1, 1) == 5
    ensures PushTypeArraySize(4, 1 + 1) == 8
  {
  }

  /** PushType asks for what PushTypeArray asks for one element, and a single element's request
      is exactly divisible into one Type. */
  lemma PushTypeIsOneElement(typeSize: nat)
    ensures PushTypeSize(typeSize) == PushTypeArraySize(typeSize, 1)
    ensures PushTypeSize(typeSize) == PushTypeArraySizeAsWritten(typeSize, 1, 0)
  {
  }

  /** The two agree whenever Count is a single term (right is 0). */
  lemma PushTypeArrayAgreesOnSingleTerm(typeSize: nat, count: nat)
    ensures PushTypeArraySizeAsWritten(typeSize, count, 0) == PushTypeArraySize(typeSize, count)
  {
  }

  /** memory_partition_block as game_memory.h declares it: a piece, its marker, and the block
      allocated before it. */
  datatype MemoryPartitionBlock = MemoryPartitionBlock(base: nat, size: nat, marker: nat, prevBlock: Option<MemoryPartitionBlock>)

  /** The blocks reachable from a block through PrevBlock, newest first. */
  function BlockChain(b: MemoryPartitionBlock): (r: seq<MemoryPartitionBlock>)
    ensures |r| >= 1 && r[0] == b
    ensures forall i :: 0 <= i < |r| - 1 ==> r[i].prevBlock == Some(r[i + 1])
    ensures r[|r| - 1].prevBlock.None?
  {
    match b.prevBlock
    case None => [b]
    case Some(prev) => [b] + BlockChain(prev)
  }

  /** memory_partition as game_memory.h declares it (its mutex aside): the current block and the
      minimum size of a new block. */
  datatype DeclaredPartition = DeclaredPartition(currentBlock: Option<MemoryPartitionBlock>, minBlockSize: nat)
}
