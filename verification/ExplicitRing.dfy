/**
 One explicit producer's ring of reusable blocks and its circular block index.

 The producer enqueues single elements; any number of consumers dequeue, one or
 several at a time.  Counters and their protocol are those of DequeueCounters;
 this module adds the blocks, the index and the readers.  One step is one access
 to a location that both sides use; what only the producer touches (its
 `pr_` fields, `tailBlock`, a block's `next`, an index not yet published)
 changes along with the step before it.
 */
module ExplicitRing {
  import opened Modular
  import opened Prelude
  import C = DequeueCounters

  datatype Entry = Entry(base: int, block: int)
  const BLANK := Entry(-1, -1)

  /** A published block index.  Its size is the number of entries. */
  datatype Header = Header(entries: seq<Entry>, front: int)

  /** A cell holds a constructed element, or raw memory. */
  datatype Block<T> = Block(next: nat, cells: seq<Option<T>>, empty: seq<bool>)

  /** Bookkeeping: block numbers lo .. hi are in the index, number m in slot
      (m + shift) modulo its size. */
  datatype Window = Window(lo: nat, hi: nat, shift: int)

  /** The producer inside `enqueue(v)`. */
  datatype Producing<T> =
    | PIdle
    | PScan(v: T, i: nat)      // is_empty on the block ahead: flag i
    | PReset(v: T, i: nat)     // reset_empty on the block being reused: flag i
    | PLoadHead(v: T)          // headIndex.load
    | PGrow(v: T)              // new_block_index: blockIndex.store
    | PNewBlock(v: T)          // requisition_block, and link it in
    | PWriteBase(v: T)         // entry.base
    | PWriteBlock(v: T)        // entry.block
    | PWriteFront(v: T)        // front.store
    | PConstruct(v: T)         // the element
    | PPublish(v: T)           // tailIndex.store

  /** A consumer that owns indices first .. first + count. */
  datatype Reading =
    | RIdle
    | RLoadIndex                                                        // blockIndex.load
    | RLoadFront(h: nat)                                                // front.load
    | RReadBase(h: nat, f: int)                                         // entries[front].base
    | RReadEntry(h: nat, ii: int, k: nat)                               // entries[ii].block
    | RTake(h: nat, ii: int, b: int, k: nat, i: nat, e: nat)            // move element i out
    | RFlag(h: nat, ii: int, b: int, k: nat, j: nat, e: nat)            // set the j-th flag of k .. e
    | RDone

  datatype State<T> = State(
    B: nat,                       // BLOCK_SIZE
    counters: C.State,
    blocks: seq<Block<T>>,
    headers: seq<Header>,         // every index ever published; old ones are kept
    producer: Producing<T>,
    slotsUsed: nat,               // pr_blockIndexSlotsUsed
    front: nat,                   // pr_blockIndexFront: next slot
    tailBlock: Option<nat>,
    readers: seq<Reading>,
    home: seq<nat>,               // bookkeeping: the block that served each block number
    windows: seq<Window>,         // bookkeeping: what each index covers
    enqueued: seq<T>,             // bookkeeping: values in tail order
    done: set<nat>,               // bookkeeping: indices whose empty flag has been set
    got: map<nat, T>)             // bookkeeping: what was read at each index

  datatype Call<T> = Produce(v: T) | ProducerStep(giveUp: bool) | Consumer(t: nat, c: C.Call)

  // ----------------------------------------------------------- arithmetic

  function FlagPos(B: nat, x: nat): int
    requires B > 0
  {
    B - 1 - x % B
  }

  lemma NextIndex(x: nat, B: nat)
    requires B > 0
    ensures x % B == B - 1 ==> (x + 1) / B == x / B + 1 && (x + 1) % B == 0
    ensures x % B < B - 1 ==> (x + 1) / B == x / B && (x + 1) % B == x % B + 1
  {
    var q, r := x / B, x % B;
    assert x == q * B + r;
    if r == B - 1 {
      assert x + 1 == (q + 1) * B + 0;
      DivUnique(x + 1, q + 1, 0, B);
    } else {
      DivUnique(x + 1, q, r + 1, B);
    }
  }

  lemma DivMono(x: nat, y: nat, B: nat)
    requires B > 0 && x <= y
    ensures x / B <= y / B
  {
    var a, b := x / B, y / B;
    assert x == a * B + x % B && y == b * B + y % B;
    if b < a { MulMono(b + 1, a, B); assert false; }
  }

  lemma SameIndex(x: nat, y: nat, B: nat)
    requires B > 0 && x / B == y / B && x % B == y % B
    ensures x == y
  {
    assert x == x / B * B + x % B && y == y / B * B + y % B;
  }

  /** Indices k .. e lie in k's block, and k + n does when n stays below its end. */
  lemma SameBlock(k: nat, x: nat, B: nat)
    requires B > 0 && k <= x < k - k % B + B
    ensures x / B == k / B && x % B == k % B + (x - k)
  {
    assert k == k / B * B + k % B;
    DivUnique(x, k / B, k % B + (x - k), B);
  }

  lemma NextBlock(k: nat, B: nat)
    requires B > 0
    ensures (k - k % B + B) / B == k / B + 1 && (k - k % B + B) % B == 0
    ensures k - k % B + B >= 0
  {
    assert k == k / B * B + k % B;
    assert k - k % B + B == (k / B + 1) * B + 0;
    DivUnique(k - k % B + B, k / B + 1, 0, B);
  }

  // ------------------------------------------------------------------ steps

  ghost predicate Shape<T>(s: State<T>) {
    && s.B > 0
    && C.TicketsInRange(s.counters)
    && |s.readers| == |s.counters.threads|
    && |s.windows| == |s.headers| > 0
    && (forall h :: 0 <= h < |s.headers| ==> |s.headers[h].entries| > 0)
    && (forall b :: 0 <= b < |s.blocks| ==>
          |s.blocks[b].cells| == s.B && |s.blocks[b].empty| == s.B && s.blocks[b].next < |s.blocks|)
    && (s.tailBlock.Some? ==> s.tailBlock.value < |s.blocks|)
    && (s.producer.PScan? || s.producer.PReset? ==> s.tailBlock.Some? && s.producer.i < s.B)
    && (s.producer.PWriteBase? || s.producer.PWriteBlock? || s.producer.PWriteFront? || s.producer.PConstruct? ==>
      s.tailBlock.Some?)
    && s.front < |s.headers[|s.headers| - 1].entries|
    && s.slotsUsed <= |s.headers[|s.headers| - 1].entries|
  }

  function Current<T>(s: State<T>): nat
    requires |s.headers| > 0
  {
    |s.headers| - 1
  }

  /** The newest block is in the ring but not yet exposed through the index. */
  predicate Unexposed<T>(p: Producing<T>) {
    p.PReset? || p.PWriteBase? || p.PWriteBlock? || p.PWriteFront?
  }

  /** Entries copied by new_block_index: slotsUsed of them, oldest first. */
  function Rotated(entries: seq<Entry>, from: int, n: nat): seq<Entry>
    requires |entries| > 0
  {
    seq(n, i => entries[(from + i) % |entries|])
  }

  /** Flag i of the block ahead; once all are set the block is taken over. */
  ghost function ScanFlag<T>(s: State<T>): State<T>
    requires Shape(s) && s.producer.PScan?
  {
    var ahead, i := s.blocks[s.tailBlock.value].next, s.producer.i;
    if !s.blocks[ahead].empty[i] then s.(producer := PLoadHead(s.producer.v))
    else if i + 1 < s.B then s.(producer := PScan(s.producer.v, i + 1))
    else TakeOver(s, ahead)
  }

  ghost function TakeOver<T>(s: State<T>, ahead: nat): State<T>
    requires Shape(s) && s.producer.PScan?
  {
    var w := s.windows[Current(s)];
    s.(producer := PReset(s.producer.v, 0), tailBlock := Some(ahead), home := s.home + [ahead],
       windows := s.windows[Current(s) := w.(lo := w.lo + 1)])
  }

  ghost function ClearFlag<T>(s: State<T>): State<T>
    requires Shape(s) && s.producer.PReset?
  {
    var b, i := s.tailBlock.value, s.producer.i;
    s.(blocks := s.blocks[b := s.blocks[b].(empty := s.blocks[b].empty[i := false])],
       producer := if i + 1 < s.B then PReset(s.producer.v, i + 1) else PWriteBase(s.producer.v))
  }

  /** new_block_index: twice the size, old entries first. */
  ghost function Grow<T>(s: State<T>): State<T>
    requires Shape(s) && s.producer.PGrow?
  {
    var h, w := s.headers[Current(s)], s.windows[Current(s)];
    var copied := Rotated(h.entries, s.front - s.slotsUsed, s.slotsUsed);
    s.(headers := s.headers + [Header(copied + seq(2 * |h.entries| - s.slotsUsed, _ => BLANK), s.slotsUsed - 1)],
       windows := s.windows + [w.(shift := -(w.lo as int))],
       front := s.slotsUsed,
       producer := PNewBlock(s.producer.v))
  }

  /** A block from outside the queue, linked in behind the tail block. */
  ghost function AddBlock<T>(s: State<T>): State<T>
    requires Shape(s) && s.producer.PNewBlock?
  {
    s.(blocks := WithBlock(s.B, s.blocks, s.tailBlock),
       tailBlock := Some(|s.blocks|), slotsUsed := s.slotsUsed + 1, home := s.home + [|s.blocks|],
       producer := PWriteBase(s.producer.v))
  }

  function WithBlock<T>(B: nat, blocks: seq<Block<T>>, tailBlock: Option<nat>): (r: seq<Block<T>>)
    requires tailBlock.Some? ==> tailBlock.value < |blocks|
  {
    var b := |blocks|;
    match tailBlock
    case None => blocks + [Block(b, seq(B, _ => None), seq(B, _ => false))]
    case Some(a) => blocks[a := blocks[a].(next := b)] + [Block(blocks[a].next, seq(B, _ => None), seq(B, _ => false))]
  }

  ghost function WriteEntry<T>(s: State<T>, e: Entry): State<T>
    requires Shape(s)
  {
    s.(headers := s.headers[Current(s) := SetEntry(s.headers[Current(s)], s.front, e)])
  }

  ghost function WriteFront<T>(s: State<T>): State<T>
    requires Shape(s) && s.producer.PWriteFront?
  {
    var cur := Current(s);
    s.(headers := s.headers[cur := s.headers[cur].(front := s.front)],
       front := (s.front + 1) % |s.headers[cur].entries|,
       windows := s.windows[cur := s.windows[cur].(hi := |s.home|)],
       producer := PConstruct(s.producer.v))
  }

  ghost function Construct<T>(s: State<T>): State<T>
    requires Shape(s) && s.producer.PConstruct?
  {
    s.(blocks := SetCell(s.blocks, s.tailBlock.value, s.counters.tail % s.B, Some(s.producer.v)),
      producer := PPublish(s.producer.v))
  }

  ghost function PublishTail<T>(s: State<T>): State<T>
    requires Shape(s) && s.producer.PPublish?
  {
    s.(counters := C.Publish(s.counters, 1), enqueued := s.enqueued + [s.producer.v], producer := PIdle)
  }

  /** One access by the producer.  It may give up where the code returns false:
      over its size limit, or when it may not allocate. */
  ghost function ProducerNext<T>(s: State<T>, c: Call<T>): State<T>
    requires Shape(s)
  {
    var room := s.slotsUsed < |s.headers[Current(s)].entries|;
    var giveUp := c.ProducerStep? && c.giveUp;
    match s.producer
    case PIdle =>
      if !c.Produce? then s
      else s.(producer := if s.tailBlock.None? then PLoadHead(c.v)
                          else if s.counters.tail % s.B != 0 then PConstruct(c.v) else PScan(c.v, 0))
    case PScan(_, _) => ScanFlag(s)
    case PReset(_, _) => ClearFlag(s)
    case PLoadHead(v) => s.(producer := if giveUp then PIdle else if room then PNewBlock(v) else PGrow(v))
    case PGrow(_) => Grow(s)
    case PNewBlock(_) => if giveUp || !room then s.(producer := PIdle) else AddBlock(s)
    case PWriteBase(v) => WriteEntry(s, s.headers[Current(s)].entries[s.front].(base := s.counters.tail)).(producer :=
      PWriteBlock(v))
    case PWriteBlock(v) => WriteEntry(s,
      s.headers[Current(s)].entries[s.front].(block := s.tailBlock.value)).(producer := PWriteFront(v))
    case PWriteFront(_) => WriteFront(s)
    case PConstruct(_) => Construct(s)
    case PPublish(_) => PublishTail(s)
  }

  function SetEntry(h: Header, i: nat, e: Entry): Header
    requires i < |h.entries|
  {
    h.(entries := h.entries[i := e])
  }

  function SetCell<T>(blocks: seq<Block<T>>, b: nat, o: nat, c: Option<T>): seq<Block<T>>
    requires b < |blocks| && o < |blocks[b].cells|
  {
    blocks[b := blocks[b].(cells := blocks[b].cells[o := c])]
  }

  function SetFlag<T>(blocks: seq<Block<T>>, b: nat, o: nat): seq<Block<T>>
    requires b < |blocks| && o < |blocks[b].empty|
  {
    blocks[b := blocks[b].(empty := blocks[b].empty[o := true])]
  }

  /** Where a consumer goes after moving an element out. */
  function Taken(r: Reading): Reading
    requires r.RTake?
  {
    if r.i + 1 < r.e then r.(i := r.i + 1) else RFlag(r.h, r.ii, r.b, r.k, 0, r.e)
  }

  /** Where a consumer goes after setting a flag. */
  function Flagged(r: Reading, stop: nat, size: nat): Reading
    requires r.RFlag? && size > 0
  {
    if r.j + 1 < r.e - r.k then r.(j := r.j + 1)
    else if r.e < stop then RReadEntry(r.h, (r.ii + 1) % size, r.e)
    else RDone
  }

  /** Move element i out of its cell; a raw cell cannot be read. */
  ghost function Take<T>(s: State<T>, t: nat): State<T>
    requires Shape(s) && t < |s.readers| && s.readers[t].RTake?
  {
    var RTake(h, ii, b, k, i, e) := s.readers[t];
    if 0 <= b < |s.blocks| && s.blocks[b].cells[i % s.B].Some? then
      s.(got := s.got[i := s.blocks[b].cells[i % s.B].value],
         blocks := SetCell(s.blocks, b, i % s.B, None),
         readers := s.readers[t := Taken(s.readers[t])])
    else s
  }

  /** Set flag j of the run k .. e: the code goes through the run's flags by
      rising position, which is falling index. */
  ghost function MarkEmpty<T>(s: State<T>, t: nat): State<T>
    requires Shape(s) && t < |s.readers| && s.readers[t].RFlag? && s.counters.threads[t].Got?
  {
    var RFlag(h, ii, b, k, j, e) := s.readers[t];
    var stop := s.counters.threads[t].first + s.counters.threads[t].count;
    var pos := s.B - 1 - k % s.B - (e - k) + 1 + j;
    if 0 <= b < |s.blocks| && 0 <= pos < s.B && j < e && h < |s.headers| then
      s.(blocks := SetFlag(s.blocks, b, pos),
         done := s.done + {e - 1 - j},
         readers := s.readers[t := Flagged(s.readers[t], stop, |s.headers[h].entries|)])
    else s
  }

  /** Where a consumer that only loads goes next. */
  ghost function Loaded(B: nat, headers: seq<Header>, windows: seq<Window>, r: Reading, first: nat, count: nat): Reading
    requires B > 0 && |headers| == |windows| > 0
  {
    match r
    case RLoadIndex => RLoadFront(|headers| - 1)
    case RLoadFront(h) =>
      if h < |headers| then RReadBase(h, headers[h].front) else r
    case RReadBase(h, f) =>
      if h < |headers| && 0 <= f < |headers[h].entries| then
        var offset := (first - first % B - headers[h].entries[f].base) / B;
        RReadEntry(h, (f + offset) % |headers[h].entries|, first)
      else r
    case RReadEntry(h, ii, k) =>
      if h < |headers| && 0 <= ii < |headers[h].entries| then
        RTake(h, ii, headers[h].entries[ii].block, k, k, C.Min(first + count, k - k % B + B))
      else r
    case _ => r
  }

  ghost function ReaderNext<T>(s: State<T>, t: nat): State<T>
    requires Shape(s) && t < |s.readers| && s.counters.threads[t].Got?
  {
    match s.readers[t]
    case RTake(_, _, _, _, _, _) => Take(s, t)
    case RFlag(_, _, _, _, _, _) => MarkEmpty(s, t)
    case RDone => s.(counters := C.Next(s.counters, t, C.Finish), readers := s.readers[t := RIdle])
    case r => s.(readers :=
      s.readers[t := Loaded(s.B, s.headers, s.windows, r, s.counters.threads[t].first, s.counters.threads[t].count)])
  }

  ghost function ConsumerNext<T>(s: State<T>, t: nat, c: C.Call): State<T>
    requires Shape(s) && t < |s.readers|
  {
    if s.counters.threads[t].Got? then ReaderNext(s, t)
    else
      var k := C.Next(s.counters, t, c);
      s.(counters := k,
         readers := s.readers[t := if !k.threads[t].Got? then RIdle else if k.threads[t].count > 0 then RLoadIndex
           else RDone])
  }

  ghost function Next<T>(s: State<T>, c: Call<T>): State<T>
    requires Shape(s)
  {
    match c
    case Consumer(t, k) => if t < |s.readers| then ConsumerNext(s, t, k) else s
    case _ => ProducerNext(s, c)
  }

  // -------------------------------------------------------------- invariant

  /** The ring, oldest block first: the last slotsUsed blocks of `home`. */
  ghost predicate RingOk<T>(blocks: seq<Block<T>>, home: seq<nat>, used: nat, tailBlock: Option<nat>) {
    var n := |home|;
    && used <= n
    && (n == 0 <==> used == 0)
    && tailBlock == (if n == 0 then None else Some(home[n - 1]))
    && (forall m :: n - used <= m < n ==> home[m] < |blocks|)
    && (forall m, m' :: n - used <= m < m' < n ==> home[m] != home[m'])
    && (forall m :: n - used <= m < n - 1 ==> blocks[home[m]].next == home[m + 1])
    && (n > 0 ==> blocks[home[n - 1]].next == home[n - used])
  }

  /** The slot of block number m. */
  function Slot(h: Header, w: Window, m: int): int
    requires |h.entries| > 0
  {
    (m + w.shift) % |h.entries|
  }

  /** An index maps every block number of its window, even once it is superseded. */
  ghost predicate HeaderOk(B: nat, h: Header, w: Window, home: seq<nat>)
    requires |h.entries| > 0
  {
    && w.lo <= w.hi <= |home| && w.hi - w.lo <= |h.entries|
    && (forall m {:trigger Slot(h, w, m)} :: w.lo <= m < w.hi ==> h.entries[Slot(h, w, m)] == Entry(m * B, home[m]))
    && (w.lo < w.hi ==> h.front == Slot(h, w, w.hi - 1))
  }

  ghost predicate HeadersOk(B: nat, headers: seq<Header>, windows: seq<Window>, home: seq<nat>)
    requires |headers| == |windows|
    requires forall h :: 0 <= h < |headers| ==> |headers[h].entries| > 0
  {
    forall h :: 0 <= h < |headers| ==> HeaderOk(B, headers[h], windows[h], home)
  }

  /** How the producer's own fields relate to the current index. */
  ghost predicate IndexOk<T>(s: State<T>)
    requires Shape(s)
  {
    var h, w := s.headers[Current(s)], s.windows[Current(s)];
    && s.slotsUsed <= |s.home| && w.lo == |s.home| - s.slotsUsed
    && (Unexposed(s.producer) ==> |s.home| > 0)
    && w.hi == (if Unexposed(s.producer) then |s.home| - 1 else |s.home|)
    && s.front == Slot(h, w, w.hi)
    && (s.producer.PWriteBlock? ==> h.entries[s.front].base == s.counters.tail)
    && (s.producer.PWriteFront? ==> h.entries[s.front] == Entry(s.counters.tail, s.tailBlock.value))
    && (s.producer.PGrow? ==> s.slotsUsed == |h.entries|)
    && (s.producer.PNewBlock? ==> s.slotsUsed < |h.entries|)
  }

  /** Where the tail stands relative to the blocks begun. */
  ghost predicate TailOk<T>(B: nat, tail: nat, n: nat, p: Producing<T>)
    requires B > 0
  {
    && (p.PIdle? ==> if tail % B == 0 then tail / B == n else tail / B == n - 1)
    && (p.PScan? || p.PLoadHead? || p.PGrow? || p.PNewBlock? ==> tail % B == 0 && tail / B == n)
    && (Unexposed(p) ==> tail % B == 0 && tail / B == n - 1)
    && (p.PConstruct? || p.PPublish? ==> tail / B == n - 1)
  }

  /** The producer has seen flags 0 .. i of the oldest block set, or has built its element. */
  ghost predicate ProducerOk<T>(s: State<T>)
    requires Shape(s)
  {
    && (s.producer.PScan? ==>
          (forall p :: 0 <= p < s.producer.i ==> s.blocks[s.blocks[s.tailBlock.value].next].empty[p]))
    && (s.producer.PPublish? ==>
          (s.tailBlock.Some? && s.blocks[s.tailBlock.value].cells[s.counters.tail % s.B] == Some(s.producer.v)))
    && |s.enqueued| == s.counters.tail
  }

  ghost predicate FlagsOfBlock(B: nat, empty: seq<bool>, m: nat, done: set<nat>, resetting: int)
    requires |empty| == B
  {
    forall p :: 0 <= p < B && p < resetting ==> empty[p] == ((m * B + (B - 1 - p)) in done)
  }

  /** A flag is set exactly when its index has been fully dequeued, except for
      those of the block being reset that are still to be cleared. */
  ghost predicate FlagsOk<T>(s: State<T>)
    requires Shape(s) && RingOk(s.blocks, s.home, s.slotsUsed, s.tailBlock)
  {
    forall m :: |s.home| - s.slotsUsed <= m < |s.home| ==>
      FlagsOfBlock(s.B, s.blocks[s.home[m]].empty, m, s.done, if m == |s.home| - 1 && s.producer.PReset?
        then s.producer.i else s.B)
  }

  ghost predicate DoneOk<T>(B: nat, lo: nat, head: nat, enqueued: seq<T>, done: set<nat>, got: map<nat, T>)
    requires B > 0
  {
    && (forall x: nat :: x / B < lo ==> x in done)
    && (forall x :: x in done ==> x in got)
    && (forall x :: x in got ==> x < head && x < |enqueued| && got[x] == enqueued[x])
  }

  /** Element x is constructed in its block's cell, with the value enqueued. */
  ghost predicate Avail<T>(B: nat, blocks: seq<Block<T>>, home: seq<nat>, enqueued: seq<T>, x: nat)
    requires B > 0
  {
    && x < |enqueued| && x / B < |home| && home[x / B] < |blocks|
    && x % B < |blocks[home[x / B]].cells|
    && blocks[home[x / B]].cells[x % B] == Some(enqueued[x])
  }

  ghost predicate CellsOk<T>(s: State<T>)
    requires s.B > 0
  {
    forall x: nat :: s.counters.head <= x < s.counters.tail ==> Avail(s.B, s.blocks, s.home, s.enqueued, x)
  }

  /** Index x of a consumer at r is not fully dequeued yet. */
  predicate Unfinished(r: Reading, first: nat, count: nat, x: int) {
    match r
    case RIdle => false
    case RDone => false
    case RReadEntry(_, _, k) => k <= x < first + count
    case RTake(_, _, _, k, _, _) => k <= x < first + count
    case RFlag(_, _, _, k, j, e) => k <= x < e - j || e <= x < first + count
    case _ => first <= x < first + count
  }

  /** ... nor even moved out. */
  predicate Untaken(r: Reading, first: nat, count: nat, x: int) {
    match r
    case RTake(_, _, _, _, i, _) => i <= x < first + count
    case RFlag(_, _, _, _, _, e) => e <= x < first + count
    case _ => Unfinished(r, first, count, x)
  }

  predicate Holds(r: Reading) { r.RLoadFront? || r.RReadBase? || r.RReadEntry? || r.RTake? || r.RFlag? }

  ghost predicate FrontSeen(B: nat, h: Header, w: Window, f: int, first: nat)
    requires B > 0 && |h.entries| > 0
  {
    exists m :: w.lo <= m < w.hi && first / B <= m && f == Slot(h, w, m)
  }

  /** A consumer's place in the index it holds. */
  ghost predicate IndexPlaceOk(B: nat, h: Header, w: Window, r: Reading, first: nat, count: nat)
    requires B > 0 && |h.entries| > 0
  {
    && (forall x: nat :: Unfinished(r, first, count, x) ==> w.lo <= x / B < w.hi)
    && (r.RReadBase? ==> FrontSeen(B, h, w, r.f, first))
    && (r.RReadEntry? || r.RTake? || r.RFlag? ==> r.ii == Slot(h, w, r.k / B))
  }

  /** A consumer's place in its run of indices, and the block of that run. */
  ghost predicate RunPlaceOk(B: nat, home: seq<nat>, r: Reading, first: nat, count: nat)
    requires B > 0
  {
    && (r.RReadEntry? || r.RTake? || r.RFlag? ==> first <= r.k < first + count)
    && (r.RTake? || r.RFlag? ==>
          && r.e == C.Min(first + count, r.k - r.k % B + B)
          && r.k / B < |home| && r.b == home[r.k / B])
    && (r.RTake? ==> r.k <= r.i < r.e)
    && (r.RFlag? ==> r.j < r.e - r.k)
    && (!r.RDone? ==> count > 0)
  }

  ghost predicate PlaceOk(B: nat, headers: seq<Header>, windows: seq<Window>, home: seq<nat>, r: Reading,
      first: nat, count: nat)
    requires B > 0 && |headers| == |windows|
    requires forall h :: 0 <= h < |headers| ==> |headers[h].entries| > 0
  {
    && (Holds(r) ==> r.h < |headers| && IndexPlaceOk(B, headers[r.h], windows[r.h], r, first, count))
    && RunPlaceOk(B, home, r, first, count)
  }

  ghost predicate ReaderOk<T>(s: State<T>, t: nat)
    requires Shape(s) && t < |s.readers|
  {
    var r, q := s.readers[t], s.counters.threads[t];
    && (!q.Got? <==> r.RIdle?)
    && (q.Got? ==>
          && PlaceOk(s.B, s.headers, s.windows, s.home, r, q.first, q.count)
          && (forall x: nat :: q.first <= x < q.first + q.count ==>
            (Unfinished(r, q.first, q.count, x) <==> x !in s.done))
          && (forall x: nat :: q.first <= x < q.first + q.count ==> (Untaken(r, q.first, q.count, x) <==> x !in s.got))
          && (forall x: nat :: Untaken(r, q.first, q.count, x) ==> Avail(s.B, s.blocks, s.home, s.enqueued, x)))
  }

  /** All the blocks need to know of the counters. */
  ghost predicate ClaimsOk(k: C.State) {
    && k.head <= k.tail
    && (forall t, u :: 0 <= t < u < |k.threads| ==> C.Disjoint(k.threads[t], k.threads[u]))
    && (forall t :: 0 <= t < |k.threads| && k.threads[t].Got? ==> k.threads[t].first + k.threads[t].count <= k.head)
  }

  ghost predicate Inv<T>(s: State<T>) {
    && Shape(s)
    && ClaimsOk(s.counters)
    && RingOk(s.blocks, s.home, s.slotsUsed, s.tailBlock)
    && HeadersOk(s.B, s.headers, s.windows, s.home)
    && IndexOk(s)
    && TailOk(s.B, s.counters.tail, |s.home|, s.producer)
    && ProducerOk(s)
    && FlagsOk(s)
    && DoneOk(s.B, |s.home| - s.slotsUsed, s.counters.head, s.enqueued, s.done, s.got)
    && CellsOk(s)
    && (forall t :: 0 <= t < |s.readers| ==> ReaderOk(s, t))
  }

  ghost predicate Init<T>(s: State<T>) {
    && s.B > 0 && C.Init(s.counters)
    && s.blocks == [] && s.home == [] && s.enqueued == [] && s.done == {} && s.got == map[]
    && s.producer == PIdle && s.slotsUsed == 0 && s.front == 0 && s.tailBlock == None
    && |s.headers| == 1 && |s.headers[0].entries| > 0
    && s.windows == [Window(0, 0, 0)]
    && |s.readers| == |s.counters.threads|
    && forall t :: 0 <= t < |s.readers| ==> s.readers[t] == RIdle
  }

  lemma InitInv<T>(s: State<T>)
    requires Init(s)
    ensures Inv(s) && C.Inv(s.counters)
  {
    C.InitInv(s.counters);
    DivUnique(0, 0, 0, s.B);
    DivUnique(0, 0, 0, |s.headers[0].entries|);
    assert TailOk(s.B, s.counters.tail, |s.home|, s.producer);
    assert HeaderOk(s.B, s.headers[0], s.windows[0], s.home);
  }

  // ------------------------------------------------- what a step leaves alone

  /** A wider window over the same slots serves a consumer as well. */
  lemma IndexPlaceKept(B: nat, h: Header, w: Window, h': Header, w': Window, r: Reading, first: nat, count: nat)
    requires B > 0 && |h.entries| == |h'.entries| > 0 && IndexPlaceOk(B, h, w, r, first, count) && count > 0
    requires w'.shift == w.shift && w'.hi >= w.hi
    requires forall x: nat :: Unfinished(r, first, count, x) ==> w'.lo <= x / B
    ensures IndexPlaceOk(B, h', w', r, first, count)
  {
    if r.RReadBase? {
      assert Unfinished(r, first, count, first);
      var m :| w.lo <= m < w.hi && first / B <= m && r.f == Slot(h, w, m);
      assert Slot(h', w', m) == Slot(h, w, m);
    }
  }

  lemma RunPlaceKept(B: nat, home: seq<nat>, home': seq<nat>, r: Reading, first: nat, count: nat)
    requires B > 0 && RunPlaceOk(B, home, r, first, count) && |home| <= |home'| && home'[..|home|] == home
    ensures RunPlaceOk(B, home', r, first, count)
  {
    if r.RTake? || r.RFlag? { assert home'[..|home|][r.k / B] == home'[r.k / B]; }
  }

  /** A consumer that does not move keeps what it relies on. */
  lemma ReaderKept<T>(s: State<T>, s': State<T>, u: nat)
    requires Shape(s) && Shape(s') && u < |s.readers| == |s'.readers| && ReaderOk(s, u)
    requires s'.B == s.B && s'.readers[u] == s.readers[u] && s'.counters.threads[u] == s.counters.threads[u]
    requires |s.headers| <= |s'.headers| && |s.home| <= |s'.home| && s'.home[..|s.home|] == s.home
    requires s.counters.threads[u].Got? ==>
      var r, q := s.readers[u], s.counters.threads[u];
      && (Holds(r) ==>
            && s'.windows[r.h].shift == s.windows[r.h].shift && |s'.headers[r.h].entries| == |s.headers[r.h].entries|
            && s'.windows[r.h].hi >= s.windows[r.h].hi
            && (forall x: nat :: Unfinished(r, q.first, q.count, x) ==> s'.windows[r.h].lo <= x / s.B))
      && (forall x: nat :: q.first <= x < q.first + q.count ==>
        (x in s'.done <==> x in s.done) && (x in s'.got <==> x in s.got))
      && (forall x: nat :: Untaken(r, q.first, q.count, x) ==> Avail(s.B, s'.blocks, s'.home, s'.enqueued, x))
    ensures ReaderOk(s', u)
  {
    var r, q := s.readers[u], s.counters.threads[u];
    if q.Got? {
      if Holds(r) {
        IndexPlaceKept(s.B, s.headers[r.h], s.windows[r.h], s'.headers[r.h], s'.windows[r.h], r, q.first, q.count);
      }
      RunPlaceKept(s.B, s.home, s'.home, r, q.first, q.count);
    }
  }

  /** Same consumers, same elements, indexes at least as wide. */
  ghost predicate Extends<T>(s: State<T>, s': State<T>)
    requires Shape(s) && Shape(s')
  {
    && s'.B == s.B && s'.readers == s.readers && s'.counters.threads == s.counters.threads
    && s'.done == s.done && s'.got == s.got
    && |s.headers| <= |s'.headers|
    && |s.home| <= |s'.home| && s'.home[..|s.home|] == s.home
    && |s.enqueued| <= |s'.enqueued| && s'.enqueued[..|s.enqueued|] == s.enqueued
    && |s.blocks| <= |s'.blocks|
    && (forall b :: 0 <= b < |s.blocks| ==> s'.blocks[b].cells == s.blocks[b].cells)
    && (forall h :: 0 <= h < |s.headers| ==>
          && s'.windows[h].shift == s.windows[h].shift && s'.windows[h].lo == s.windows[h].lo
          && s'.windows[h].hi >= s.windows[h].hi && |s'.headers[h].entries| == |s.headers[h].entries|)
  }

  lemma AvailExtends<T>(s: State<T>, s': State<T>, x: nat)
    requires Shape(s) && Shape(s') && Extends(s, s') && Avail(s.B, s.blocks, s.home, s.enqueued, x)
    ensures Avail(s.B, s'.blocks, s'.home, s'.enqueued, x)
  {
    assert s'.home[..|s.home|][x / s.B] == s'.home[x / s.B];
    assert s'.enqueued[..|s.enqueued|][x] == s'.enqueued[x];
  }

  lemma ReadersKept<T>(s: State<T>, s': State<T>)
    requires Shape(s) && Shape(s') && Extends(s, s')
    requires forall t :: 0 <= t < |s.readers| ==> ReaderOk(s, t)
    ensures forall t :: 0 <= t < |s'.readers| ==> ReaderOk(s', t)
  {
    forall t | 0 <= t < |s'.readers| ensures ReaderOk(s', t) {
      assert ReaderOk(s, t);
      var q := s.counters.threads[t];
      if q.Got? {
        forall x: nat | Untaken(s.readers[t], q.first, q.count, x)
          ensures Avail(s.B, s'.blocks, s'.home, s'.enqueued, x) {
          AvailExtends(s, s', x);
        }
      }
      ReaderKept(s, s', t);
    }
  }

  lemma CellsKept<T>(s: State<T>, s': State<T>)
    requires Shape(s) && Shape(s') && Extends(s, s') && CellsOk(s)
    requires s'.counters.head == s.counters.head && s'.counters.tail == s.counters.tail
    ensures CellsOk(s')
  {
    forall x: nat | s.counters.head <= x < s.counters.tail ensures Avail(s.B, s'.blocks, s'.home, s'.enqueued, x) {
      assert Avail(s.B, s.blocks, s.home, s.enqueued, x);
      AvailExtends(s, s', x);
    }
  }

  lemma HeadersKept<T>(s: State<T>, s': State<T>)
    requires Shape(s) && Shape(s') && HeadersOk(s.B, s.headers, s.windows, s.home)
    requires s'.B == s.B && s'.headers == s.headers && s'.windows == s.windows
    requires |s.home| <= |s'.home| && s'.home[..|s.home|] == s.home
    ensures HeadersOk(s'.B, s'.headers, s'.windows, s'.home)
  {
    forall h | 0 <= h < |s'.headers| ensures HeaderOk(s.B, s'.headers[h], s'.windows[h], s'.home) {
      HeaderKept(s.B, s.headers[h], s.windows[h], s.home, s'.home);
    }
  }

  lemma HeaderKept(B: nat, h: Header, w: Window, home: seq<nat>, home': seq<nat>)
    requires |h.entries| > 0 && HeaderOk(B, h, w, home)
    requires |home| <= |home'| && home'[..|home|] == home
    ensures HeaderOk(B, h, w, home')
  {
    forall m {:trigger Slot(h, w, m)} | w.lo <= m < w.hi ensures h.entries[Slot(h, w, m)] == Entry(m * B, home'[m]) {
      assert home'[..|home|][m] == home'[m];
    }
  }

  /** Unfinished indices belong to blocks still in the ring, below the tail. */
  lemma UnfinishedInRing<T>(s: State<T>, u: nat, x: nat)
    requires Inv(s) && u < |s.readers| && s.counters.threads[u].Got?
    requires Unfinished(s.readers[u], s.counters.threads[u].first, s.counters.threads[u].count, x)
    ensures x !in s.done && x < s.counters.head <= s.counters.tail
    ensures |s.home| - s.slotsUsed <= x / s.B < |s.home|
    ensures x / s.B < s.windows[Current(s)].hi
  {
    assert ReaderOk(s, u);
    var q := s.counters.threads[u];
    assert q.first <= x < q.first + q.count;
    InRing(s, x);
  }

  lemma InRing<T>(s: State<T>, x: nat)
    requires Inv(s) && x !in s.done && x < s.counters.tail
    ensures |s.home| - s.slotsUsed <= x / s.B < |s.home|
    ensures x / s.B < s.windows[Current(s)].hi
  {
    BelowTail(s.B, x, s.counters.tail, |s.home|, s.producer);
  }

  lemma BelowTail<T>(B: nat, x: nat, tail: nat, n: nat, p: Producing<T>)
    requires B > 0 && TailOk(B, tail, n, p) && x < tail
    ensures x / B < n && (Unexposed(p) ==> x / B < n - 1)
  {
    DivMono(x, tail, B);
    if tail % B == 0 { BlockStart(tail, B); BlockStart(x, B); }
  }

  /** Writing the cell of index y leaves every other live element in place. */
  lemma AvailKept<T>(s: State<T>, y: nat, c: Option<T>, x: nat)
    requires s.B > 0 && RingOk(s.blocks, s.home, s.slotsUsed, s.tailBlock)
    requires forall b :: 0 <= b < |s.blocks| ==> |s.blocks[b].cells| == s.B
    requires |s.home| - s.slotsUsed <= y / s.B < |s.home| && |s.home| - s.slotsUsed <= x / s.B
    requires Avail(s.B, s.blocks, s.home, s.enqueued, x) && x != y
    ensures Avail(s.B, SetCell(s.blocks, s.home[y / s.B], y % s.B, c), s.home, s.enqueued, x)
  {
    if x / s.B == y / s.B && x % s.B == y % s.B { SameIndex(x, y, s.B); }
  }

  // ---------------------------------------------------------- producer steps

  /** Steps that change only the producer's place in the code. */
  lemma LocalStep<T>(s: State<T>, s': State<T>)
    requires Inv(s) && s' == s.(producer := s'.producer) && Shape(s')
    requires !s.producer.PReset? && !s'.producer.PReset?
    requires IndexOk(s') && TailOk(s.B, s.counters.tail, |s.home|, s'.producer) && ProducerOk(s')
    ensures Inv(s')
  {
    ReadersKept(s, s');
    CellsKept(s, s');
  }

  lemma ScanStep<T>(s: State<T>)
    requires Inv(s) && s.producer.PScan?
    ensures Inv(ScanFlag(s))
  {
    var ahead := s.blocks[s.tailBlock.value].next;
    if s.blocks[ahead].empty[s.producer.i] && s.producer.i + 1 == s.B {
      TakeOverStep(s);
    } else {
      ScanFlagStep(s);
    }
  }

  lemma ScanFlagStep<T>(s: State<T>)
    requires Inv(s) && s.producer.PScan?
    requires !(s.blocks[s.blocks[s.tailBlock.value].next].empty[s.producer.i] && s.producer.i + 1 == s.B)
    ensures Inv(ScanFlag(s))
  {
    if !s.blocks[s.blocks[s.tailBlock.value].next].empty[s.producer.i] {
      ScanStops(s);
    } else {
      ScanGoesOn(s);
    }
  }

  lemma ScanStops<T>(s: State<T>)
    requires Inv(s) && s.producer.PScan?
    ensures Inv(s.(producer := PLoadHead(s.producer.v)))
  {
    LocalStep(s, s.(producer := PLoadHead(s.producer.v)));
  }

  lemma ScanGoesOn<T>(s: State<T>)
    requires Inv(s) && s.producer.PScan? && s.producer.i + 1 < s.B
    requires s.blocks[s.blocks[s.tailBlock.value].next].empty[s.producer.i]
    ensures Inv(s.(producer := PScan(s.producer.v, s.producer.i + 1)))
  {
    LocalStep(s, s.(producer := PScan(s.producer.v, s.producer.i + 1)));
  }

  /** The block ahead is the oldest one, and every index it held is done. */
  lemma OldestBlockDone<T>(s: State<T>)
    requires Inv(s) && s.producer.PScan? && s.producer.i + 1 == s.B
    requires s.blocks[s.blocks[s.tailBlock.value].next].empty[s.producer.i]
    ensures s.slotsUsed > 0 && s.blocks[s.tailBlock.value].next == s.home[|s.home| - s.slotsUsed]
    ensures forall x: nat :: x / s.B == |s.home| - s.slotsUsed ==> x in s.done
  {
    var lo := |s.home| - s.slotsUsed;
    assert s.blocks[s.tailBlock.value].next == s.home[lo];
    assert FlagsOfBlock(s.B, s.blocks[s.home[lo]].empty, lo, s.done, s.B);
    AllFlagsDone(s.B, s.blocks[s.home[lo]].empty, lo, s.done);
  }

  lemma AllFlagsDone(B: nat, empty: seq<bool>, m: nat, done: set<nat>)
    requires B > 0 && |empty| == B && FlagsOfBlock(B, empty, m, done, B) && forall p :: 0 <= p < B ==> empty[p]
    ensures forall x: nat :: x / B == m ==> x in done
  {
    forall x: nat | x / B == m ensures x in done {
      var p := FlagPos(B, x);
      assert x == m * B + x % B;
      assert empty[p];
    }
  }

  lemma TakeOverStep<T>(s: State<T>)
    requires Inv(s) && s.producer.PScan? && s.producer.i + 1 == s.B
    requires s.blocks[s.blocks[s.tailBlock.value].next].empty[s.producer.i]
    ensures Inv(TakeOver(s, s.blocks[s.tailBlock.value].next))
  {
    OldestBlockDone(s);
    var lo := |s.home| - s.slotsUsed;
    var s' := TakeOver(s, s.home[lo]);
    assert s'.home[..|s.home|] == s.home;
    RingReused(s, s');
    TakeOverIndex(s, s');
    TakeOverFlags(s, s');
    OneMoreBlockDone(s.B, lo, s.counters.head, s.enqueued, s.done, s.got);
    TakeOverReaders(s, s');
    TakeOverCells(s, s');
  }

  lemma TakeOverReaders<T>(s: State<T>, s': State<T>)
    requires Inv(s) && s.producer.PScan? && s.home != [] && Shape(s')
    requires s.home[|s.home| - s.slotsUsed] < |s.blocks| && s' == TakeOver(s, s.home[|s.home| - s.slotsUsed])
    requires forall x: nat :: x / s.B == |s.home| - s.slotsUsed ==> x in s.done
    ensures forall t :: 0 <= t < |s'.readers| ==> ReaderOk(s', t)
  {
    forall t | 0 <= t < |s'.readers| ensures ReaderOk(s', t) { ReaderKeptByReuse(s, s', t); }
  }

  lemma OneMoreBlockDone<T>(B: nat, lo: nat, head: nat, enqueued: seq<T>, done: set<nat>, got: map<nat, T>)
    requires B > 0 && DoneOk(B, lo, head, enqueued, done, got) && forall x: nat :: x / B == lo ==> x in done
    ensures DoneOk(B, lo + 1, head, enqueued, done, got)
  {
  }

  lemma TakeOverIndex<T>(s: State<T>, s': State<T>)
    requires Shape(s) && HeadersOk(s.B, s.headers, s.windows, s.home) && IndexOk(s) && s.producer.PScan?
      && s.slotsUsed > 0
    requires s.home[|s.home| - s.slotsUsed] < |s.blocks| && s' == TakeOver(s, s.home[|s.home| - s.slotsUsed])
    ensures Shape(s') && HeadersOk(s'.B, s'.headers, s'.windows, s'.home) && IndexOk(s')
  {
    var cur := Current(s);
    assert s'.home[..|s.home|] == s.home;
    HeadersNarrowed(s.B, s.headers, s.windows, cur, s.home, s'.home);
    assert Slot(s'.headers[cur], s'.windows[cur], s'.windows[cur].hi) ==
      Slot(s.headers[cur], s.windows[cur], s.windows[cur].hi);
  }

  lemma HeadersNarrowed(B: nat, headers: seq<Header>, windows: seq<Window>, cur: nat, home: seq<nat>, home': seq<nat>)
    requires |headers| == |windows| && cur < |headers| && forall h :: 0 <= h < |headers| ==> |headers[h].entries| > 0
    requires HeadersOk(B, headers, windows, home) && windows[cur].lo < windows[cur].hi
    requires |home| <= |home'| && home'[..|home|] == home
    ensures HeadersOk(B, headers, windows[cur := windows[cur].(lo := windows[cur].lo + 1)], home')
  {
    forall h | 0 <= h < |headers|
      ensures HeaderOk(B, headers[h], windows[cur := windows[cur].(lo := windows[cur].lo + 1)][h], home') {
      HeaderKept(B, headers[h], windows[h], home, home');
      if h == cur { WindowShrunk(B, headers[h], windows[h], home'); }
    }
  }

  lemma TakeOverFlags<T>(s: State<T>, s': State<T>)
    requires Shape(s) && RingOk(s.blocks, s.home, s.slotsUsed, s.tailBlock) && FlagsOk(s) && !s.producer.PReset?
    requires Shape(s') && RingOk(s'.blocks, s'.home, s'.slotsUsed, s'.tailBlock) && s'.producer.PReset?
      && s'.producer.i == 0
    requires s'.B == s.B && s'.done == s.done && s'.blocks == s.blocks && s'.slotsUsed == s.slotsUsed
    requires |s'.home| == |s.home| + 1 && s'.home[..|s.home|] == s.home
    ensures FlagsOk(s')
  {
    forall m | |s'.home| - s.slotsUsed <= m < |s'.home|
      ensures FlagsOfBlock(s.B, s'.blocks[s'.home[m]].empty, m, s.done, if m == |s'.home| - 1 then 0 else s.B)
    {
      if m < |s.home| {
        assert s'.home[..|s.home|][m] == s'.home[m];
        assert FlagsOfBlock(s.B, s.blocks[s.home[m]].empty, m, s.done, s.B);
      }
    }
  }

  lemma TakeOverCells<T>(s: State<T>, s': State<T>)
    requires s.B > 0 && CellsOk(s) && s'.B == s.B && s'.blocks == s.blocks && s'.enqueued == s.enqueued
      && s'.counters == s.counters
    requires |s'.home| == |s.home| + 1 && s'.home[..|s.home|] == s.home
    ensures CellsOk(s')
  {
    forall x: nat | s.counters.head <= x < s.counters.tail ensures Avail(s.B, s'.blocks, s'.home, s'.enqueued, x) {
      assert Avail(s.B, s.blocks, s.home, s.enqueued, x);
      assert s'.home[..|s.home|][x / s.B] == s'.home[x / s.B];
    }
  }

  lemma RingReused<T>(s: State<T>, s': State<T>)
    requires RingOk(s.blocks, s.home, s.slotsUsed, s.tailBlock) && s.slotsUsed > 0
    requires s'.blocks == s.blocks && s'.slotsUsed == s.slotsUsed
    requires s'.home == s.home + [s.home[|s.home| - s.slotsUsed]]
      && s'.tailBlock == Some(s.home[|s.home| - s.slotsUsed])
    ensures RingOk(s'.blocks, s'.home, s'.slotsUsed, s'.tailBlock)
  {
  }

  lemma WindowShrunk(B: nat, h: Header, w: Window, home: seq<nat>)
    requires |h.entries| > 0 && HeaderOk(B, h, w, home) && w.lo < w.hi
    ensures HeaderOk(B, h, w.(lo := w.lo + 1), home)
  {
    var w' := w.(lo := w.lo + 1);
    forall m {:trigger Slot(h, w', m)} | w'.lo <= m < w'.hi ensures h.entries[Slot(h, w', m)] == Entry(m * B, home[m]) {
      assert Slot(h, w', m) == Slot(h, w, m);
    }
    assert Slot(h, w', w.hi - 1) == Slot(h, w, w.hi - 1);
  }

  lemma ReaderKeptByReuse<T>(s: State<T>, s': State<T>, u: nat)
    requires Inv(s) && Shape(s') && u < |s.readers|
    requires var lo, cur := |s.home| - s.slotsUsed, Current(s);
      && |s.home| > 0
      && (forall x: nat :: x / s.B == lo ==> x in s.done)
      && s' == s.(producer := s'.producer, tailBlock := s'.tailBlock, home := s.home + [s.home[lo]],
                  windows := s.windows[cur := s.windows[cur].(lo := lo + 1)])
    ensures ReaderOk(s', u)
  {
    var r, q := s.readers[u], s.counters.threads[u];
    assert ReaderOk(s, u);
    assert s'.home[..|s.home|] == s.home;
    if q.Got? {
      forall x: nat | Unfinished(r, q.first, q.count, x) ensures x / s.B >= |s.home| - s.slotsUsed + 1 {
        UnfinishedInRing(s, u, x);
      }
      forall x: nat | Untaken(r, q.first, q.count, x) ensures Avail(s.B, s'.blocks, s'.home, s'.enqueued, x) {
        assert Avail(s.B, s.blocks, s.home, s.enqueued, x);
      }
    }
    ReaderKept(s, s', u);
  }

  lemma FlagCleared(B: nat, empty: seq<bool>, m: nat, done: set<nat>, i: nat)
    requires |empty| == B && i < B && FlagsOfBlock(B, empty, m, done, i)
    requires (m * B + (B - 1 - i)) !in done
    ensures FlagsOfBlock(B, empty[i := false], m, done, i + 1)
  {
  }

  lemma MulDiv(x: nat, m: nat, B: nat)
    requires B > 0 && x % B == 0 && x / B == m
    ensures x == m * B
  {
  }

  /** While a block is being prepared, the tail is its first index, and none of
      its indices is done. */
  lemma BlockAhead<T>(s: State<T>, m: nat, o: nat)
    requires s.B > 0 && s.counters.tail % s.B == 0 && s.counters.tail / s.B == m
    requires s.counters.head <= s.counters.tail && forall x :: x in s.done ==> x < s.counters.head
    ensures s.counters.tail == m * s.B && (m * s.B + o) !in s.done && forall x :: x in s.done ==> x < s.counters.tail
  {
    MulDiv(s.counters.tail, m, s.B);
  }

  lemma DoneBelowHead<T>(s: State<T>)
    requires Inv(s)
    ensures forall x :: x in s.done ==> x < s.counters.head
  {
  }

  lemma ResetStep<T>(s: State<T>)
    requires Inv(s) && s.producer.PReset?
    ensures Inv(ClearFlag(s))
  {
    var s' := ClearFlag(s);
    DoneBelowHead(s);
    BlockAhead(s, |s.home| - 1, s.B - 1 - s.producer.i);
    ResetShape(s, s');
    ResetFlags(s, s');
    ResetReaders(s, s');
  }

  lemma ResetShape<T>(s: State<T>, s': State<T>)
    requires Shape(s) && RingOk(s.blocks, s.home, s.slotsUsed, s.tailBlock) && s.producer.PReset? && s' == ClearFlag(s)
    ensures Shape(s') && RingOk(s'.blocks, s'.home, s'.slotsUsed, s'.tailBlock)
  {
    SameRing(s.blocks, s'.blocks, s.home, s.slotsUsed, s.tailBlock);
  }

  lemma ResetReaders<T>(s: State<T>, s': State<T>)
    requires Shape(s) && s.producer.PReset? && s' == ClearFlag(s) && Shape(s') && CellsOk(s)
    requires forall t :: 0 <= t < |s.readers| ==> ReaderOk(s, t)
    ensures CellsOk(s') && forall t :: 0 <= t < |s'.readers| ==> ReaderOk(s', t)
  {
    CellsKept(s, s');
    ReadersKept(s, s');
  }

  lemma ResetFlags<T>(s: State<T>, s': State<T>)
    requires Shape(s) && RingOk(s.blocks, s.home, s.slotsUsed, s.tailBlock) && FlagsOk(s) && |s.home| > 0
    requires s.producer.PReset? && ((|s.home| - 1) * s.B + (s.B - 1 - s.producer.i)) !in s.done
    requires var b := s.tailBlock.value;
      && s' == s.(producer := s'.producer,
        blocks := s.blocks[b := s.blocks[b].(empty := s.blocks[b].empty[s.producer.i := false])])
    requires (s'.producer.PReset? && s'.producer.i == s.producer.i + 1)
      || (!s'.producer.PReset? && s.producer.i + 1 == s.B)
    requires Shape(s') && RingOk(s'.blocks, s'.home, s'.slotsUsed, s'.tailBlock)
    ensures FlagsOk(s')
  {
    var n, i := |s.home|, s.producer.i;
    forall m | n - s.slotsUsed <= m < n
      ensures FlagsOfBlock(s.B, s'.blocks[s'.home[m]].empty, m, s.done, if m == n - 1 then i + 1 else s.B)
    {
      assert FlagsOfBlock(s.B, s.blocks[s.home[m]].empty, m, s.done, if m == n - 1 then i else s.B);
      if m == n - 1 {
        FlagCleared(s.B, s.blocks[s.home[m]].empty, m, s.done, i);
      }
    }
  }

  /** new_block_index: the copy maps the same block numbers, in slots 0, 1, ... */
  lemma GrownHeaderOk(B: nat, h: Header, w: Window, home: seq<nat>, front: nat, used: nat, h': Header)
    requires |h.entries| > 0 && HeaderOk(B, h, w, home)
    requires used == w.hi - w.lo == |h.entries| && front == Slot(h, w, w.hi)
    requires |h'.entries| == 2 * used && h'.entries[..used] == Rotated(h.entries, front - used, used)
      && h'.front == used - 1
    ensures HeaderOk(B, h', w.(shift := -(w.lo as int)), home)
    ensures used == Slot(h', w.(shift := -(w.lo as int)), w.hi)
  {
    var w' := w.(shift := -(w.lo as int));
    forall m {:trigger Slot(h', w', m)} | w.lo <= m < w.hi
      ensures h'.entries[Slot(h', w', m)] == Entry(m * B, home[m]) {
      var i := m - w.lo;
      DivUnique(i, 0, i, 2 * used);
      assert h'.entries[i] == h'.entries[..used][i] == h.entries[(front - used + i) % used];
      ModShift(w.hi + w.shift, i - used, used);
      assert Slot(h, w, m) == (w.hi + w.shift + (i - used)) % used;
    }
    DivUnique(used - 1, 0, used - 1, 2 * used);
    DivUnique(used, 0, used, 2 * used);
  }

  lemma GrowStep<T>(s: State<T>)
    requires Inv(s) && s.producer.PGrow?
    ensures Inv(Grow(s))
  {
    var s' := Grow(s);
    GrowHeaders(s, s');
    assert s'.home[..|s.home|] == s.home;
    ReadersKept(s, s');
  }

  lemma GrowHeaders<T>(s: State<T>, s': State<T>)
    requires Shape(s) && HeadersOk(s.B, s.headers, s.windows, s.home) && IndexOk(s) && s.producer.PGrow?
      && s' == Grow(s)
    ensures Shape(s') && HeadersOk(s'.B, s'.headers, s'.windows, s'.home) && IndexOk(s')
  {
    var cur := Current(s);
    assert HeaderOk(s.B, s.headers[cur], s.windows[cur], s.home);
    var h' := s'.headers[cur + 1];
    assert h'.entries[..s.slotsUsed] == Rotated(s.headers[cur].entries, s.front - s.slotsUsed, s.slotsUsed);
    GrownHeaderOk(s.B, s.headers[cur], s.windows[cur], s.home, s.front, s.slotsUsed, h');
    forall h | 0 <= h < |s'.headers| ensures HeaderOk(s.B, s'.headers[h], s'.windows[h], s'.home) {
      if h <= cur { assert HeaderOk(s.B, s.headers[h], s.windows[h], s.home); }
    }
  }

  lemma AddBlockShape<T>(s: State<T>)
    requires Shape(s) && s.producer.PNewBlock? && s.slotsUsed < |s.headers[Current(s)].entries|
    ensures Shape(AddBlock(s))
    ensures var bs := AddBlock(s).blocks;
      && (forall b :: 0 <= b < |s.blocks| ==> bs[b].cells == s.blocks[b].cells && bs[b].empty == s.blocks[b].empty)
      && (forall b :: 0 <= b < |s.blocks| && s.tailBlock != Some(b) ==> bs[b].next == s.blocks[b].next)
  {
  }

  lemma AddBlockStep<T>(s: State<T>)
    requires Inv(s) && s.producer.PNewBlock?
    ensures Inv(AddBlock(s))
  {
    var s' := AddBlock(s);
    AddBlockRing(s, s');
    AddBlockFlags(s);
    AddBlockReaders(s, s');
  }

  lemma AddBlockRing<T>(s: State<T>, s': State<T>)
    requires Inv(s) && s.producer.PNewBlock? && s.slotsUsed < |s.headers[Current(s)].entries| && s' == AddBlock(s)
    ensures Shape(s') && RingOk(s'.blocks, s'.home, s'.slotsUsed, s'.tailBlock)
    ensures HeadersOk(s'.B, s'.headers, s'.windows, s'.home)
  {
    AddBlockShape(s);
    assert s'.home[..|s.home|] == s.home;
    RingExtended(s, s', |s.blocks|);
    HeadersKept(s, s');
  }

  lemma AddBlockReaders<T>(s: State<T>, s': State<T>)
    requires Shape(s) && s.producer.PNewBlock? && s.slotsUsed < |s.headers[Current(s)].entries|
      && s' == AddBlock(s) && Shape(s')
    requires CellsOk(s) && forall t :: 0 <= t < |s.readers| ==> ReaderOk(s, t)
    ensures CellsOk(s') && forall t :: 0 <= t < |s'.readers| ==> ReaderOk(s', t)
  {
    AddBlockShape(s);
    assert s'.home[..|s.home|] == s.home;
    CellsKept(s, s');
    ReadersKept(s, s');
  }

  lemma AddBlockFlags<T>(s: State<T>)
    requires Inv(s) && s.producer.PNewBlock?
    requires Shape(AddBlock(s))
      && RingOk(AddBlock(s).blocks, AddBlock(s).home, AddBlock(s).slotsUsed, AddBlock(s).tailBlock)
    ensures FlagsOk(AddBlock(s))
  {
    DoneBelowHead(s);
    BlockAhead(s, |s.home|, 0);
    FreshFlags(s.B, |s.home|, s.done, s.counters.tail);
    AddBlockShape(s);
    NewBlockFlags(s, AddBlock(s));
  }

  lemma FreshFlags(B: nat, m: nat, done: set<nat>, tail: nat)
    requires tail == m * B && forall x :: x in done ==> x < tail
    ensures FlagsOfBlock(B, seq(B, _ => false), m, done, B)
  {
  }

  lemma NewBlockFlags<T>(s: State<T>, s': State<T>)
    requires Shape(s) && RingOk(s.blocks, s.home, s.slotsUsed, s.tailBlock) && FlagsOk(s)
    requires !s.producer.PReset? && !s'.producer.PReset? && s'.B == s.B && s'.done == s.done
    requires Shape(s') && RingOk(s'.blocks, s'.home, s'.slotsUsed, s'.tailBlock)
    requires s'.home == s.home + [|s.blocks|] && s'.slotsUsed == s.slotsUsed + 1 && |s'.blocks| == |s.blocks| + 1
    requires forall b :: 0 <= b < |s.blocks| ==> s'.blocks[b].empty == s.blocks[b].empty
    requires FlagsOfBlock(s.B, s'.blocks[|s.blocks|].empty, |s.home|, s.done, s.B)
    ensures FlagsOk(s')
  {
    var n := |s.home|;
    forall m | n - s.slotsUsed <= m < n + 1 ensures FlagsOfBlock(s.B, s'.blocks[s'.home[m]].empty, m, s.done, s.B) {
      if m < n { assert FlagsOfBlock(s.B, s.blocks[s.home[m]].empty, m, s.done, s.B); }
    }
  }

  lemma RingExtended<T>(s: State<T>, s': State<T>, b: nat)
    requires RingOk(s.blocks, s.home, s.slotsUsed, s.tailBlock) && b == |s.blocks|
    requires s'.home == s.home + [b] && s'.slotsUsed == s.slotsUsed + 1 && s'.tailBlock == Some(b)
      && |s'.blocks| == b + 1
    requires s.tailBlock.Some? ==>
      && s'.blocks[b].next == s.blocks[s.tailBlock.value].next && s'.blocks[s.tailBlock.value].next == b
    requires s.tailBlock.None? ==> s'.blocks[b].next == b
    requires forall a :: 0 <= a < b && s.tailBlock != Some(a) ==> s'.blocks[a].next == s.blocks[a].next
    ensures RingOk(s'.blocks, s'.home, s'.slotsUsed, s'.tailBlock)
  {
    var n, lo := |s.home|, |s.home| - s.slotsUsed;
    assert forall m :: lo <= m < n ==> s'.home[m] == s.home[m] < b;
    forall m | lo <= m < n ensures s'.blocks[s'.home[m]].next == s'.home[m + 1] {
      if m < n - 1 { assert s.home[m] != s.home[n - 1]; }
    }
  }

  lemma SlotsDiffer(h: Header, w: Window, m: int, n: int)
    requires |h.entries| > 0 && m < n < m + |h.entries|
    ensures Slot(h, w, m) != Slot(h, w, n)
  {
    DistinctSlots(m + w.shift, n + w.shift, |h.entries|);
  }

  /** Overwriting the producer's slot leaves the window alone: it lies outside. */
  lemma EntryWritten(B: nat, h: Header, w: Window, home: seq<nat>, front: nat, e: Entry)
    requires |h.entries| > 0 && HeaderOk(B, h, w, home) && w.hi - w.lo < |h.entries|
    requires front == Slot(h, w, w.hi)
    ensures HeaderOk(B, SetEntry(h, front, e), w, home)
    ensures front == Slot(SetEntry(h, front, e), w, w.hi)
  {
    var h' := SetEntry(h, front, e);
    forall m {:trigger Slot(h', w, m)} | w.lo <= m < w.hi ensures h'.entries[Slot(h', w, m)] == Entry(m * B, home[m]) {
      SlotsDiffer(h, w, m, w.hi);
      assert Slot(h', w, m) == Slot(h, w, m);
    }
    assert Slot(h', w, w.hi - 1) == Slot(h, w, w.hi - 1);
  }

  lemma WriteEntryStep<T>(s: State<T>, e: Entry, p: Producing<T>)
    requires Inv(s)
    requires (s.producer.PWriteBase? && e.base == s.counters.tail && p.PWriteBlock?)
          || (s.producer.PWriteBlock? && e == s.headers[Current(s)].entries[s.front].(block := s.tailBlock.value)
            && p.PWriteFront?)
    ensures Inv(WriteEntry(s, e).(producer := p))
  {
    var s' := WriteEntry(s, e).(producer := p);
    EntryHeaders(s, s', e);
    EntryReaders(s, s', e);
  }

  lemma EntryHeaders<T>(s: State<T>, s': State<T>, e: Entry)
    requires Shape(s) && HeadersOk(s.B, s.headers, s.windows, s.home) && IndexOk(s) && Unexposed(s.producer)
    requires !s'.producer.PScan? && !s'.producer.PReset?
    requires s' == WriteEntry(s, e).(producer := s'.producer) && s.tailBlock.Some?
    ensures Shape(s') && HeadersOk(s'.B, s'.headers, s'.windows, s'.home)
    ensures s'.front == Slot(s'.headers[Current(s')], s'.windows[Current(s')], s'.windows[Current(s')].hi)
  {
    var cur := Current(s);
    assert HeaderOk(s.B, s.headers[cur], s.windows[cur], s.home);
    EntryWritten(s.B, s.headers[cur], s.windows[cur], s.home, s.front, e);
    forall h | 0 <= h < |s'.headers| ensures HeaderOk(s.B, s'.headers[h], s'.windows[h], s'.home) {
      if h != cur { assert HeaderOk(s.B, s.headers[h], s.windows[h], s.home); }
    }
  }

  lemma EntryReaders<T>(s: State<T>, s': State<T>, e: Entry)
    requires Shape(s) && CellsOk(s) && (forall t :: 0 <= t < |s.readers| ==> ReaderOk(s, t)) && Shape(s')
    requires s' == WriteEntry(s, e).(producer := s'.producer)
    ensures CellsOk(s') && forall t :: 0 <= t < |s'.readers| ==> ReaderOk(s', t)
  {
    ReadersKept(s, s');
    CellsKept(s, s');
  }

  /** Publishing the slot extends the window by the newest block. */
  lemma FrontExposed(B: nat, h: Header, w: Window, home: seq<nat>, front: nat)
    requires |h.entries| > 0 && HeaderOk(B, h, w, home) && w.hi - w.lo < |h.entries|
    requires front == Slot(h, w, w.hi) && w.hi < |home| && h.entries[front] == Entry(w.hi * B, home[w.hi])
    ensures HeaderOk(B, h.(front := front), w.(hi := w.hi + 1), home)
    ensures (front + 1) % |h.entries| == Slot(h.(front := front), w.(hi := w.hi + 1), w.hi + 1)
  {
    var h', w' := h.(front := front), w.(hi := w.hi + 1);
    forall m {:trigger Slot(h', w', m)} | w'.lo <= m < w'.hi
      ensures h'.entries[Slot(h', w', m)] == Entry(m * B, home[m]) {
      assert Slot(h', w', m) == Slot(h, w, m);
    }
    ModShift(w.hi + w.shift, 1, |h.entries|);
  }

  lemma WriteFrontStep<T>(s: State<T>)
    requires Inv(s) && s.producer.PWriteFront?
    ensures Inv(WriteFront(s))
  {
    var s' := WriteFront(s);
    MulDiv(s.counters.tail, |s.home| - 1, s.B);
    FrontHeaders(s, s');
    assert s'.home[..|s.home|] == s.home;
    ReadersKept(s, s');
  }

  lemma FrontHeaders<T>(s: State<T>, s': State<T>)
    requires Shape(s) && HeadersOk(s.B, s.headers, s.windows, s.home) && IndexOk(s) && s.producer.PWriteFront?
      && s' == WriteFront(s)
    requires |s.home| > 0 && s.counters.tail == (|s.home| - 1) * s.B && s.tailBlock == Some(s.home[|s.home| - 1])
    requires s.slotsUsed > 0
    ensures Shape(s') && HeadersOk(s'.B, s'.headers, s'.windows, s'.home) && IndexOk(s')
  {
    var cur := Current(s);
    assert HeaderOk(s.B, s.headers[cur], s.windows[cur], s.home);
    FrontExposed(s.B, s.headers[cur], s.windows[cur], s.home, s.front);
    forall h | 0 <= h < |s'.headers| ensures HeaderOk(s.B, s'.headers[h], s'.windows[h], s'.home) {
      if h != cur { assert HeaderOk(s.B, s.headers[h], s.windows[h], s.home); }
    }
  }

  lemma SameFlags<T>(s: State<T>, s': State<T>)
    requires Shape(s) && RingOk(s.blocks, s.home, s.slotsUsed, s.tailBlock) && FlagsOk(s)
    requires Shape(s') && RingOk(s'.blocks, s'.home, s'.slotsUsed, s'.tailBlock)
    requires s'.B == s.B && s'.done == s.done && s'.home == s.home && s'.slotsUsed == s.slotsUsed
    requires s'.producer == s.producer || (!s'.producer.PReset? && !s.producer.PReset?)
    requires |s'.blocks| == |s.blocks| && forall b :: 0 <= b < |s.blocks| ==> s'.blocks[b].empty == s.blocks[b].empty
    ensures FlagsOk(s')
  {
    forall m | |s.home| - s.slotsUsed <= m < |s.home|
      ensures FlagsOfBlock(s.B, s'.blocks[s'.home[m]].empty, m, s.done, if m == |s.home| - 1 && s.producer.PReset?
        then s.producer.i else s.B)
    {
      assert FlagsOfBlock(s.B, s.blocks[s.home[m]].empty, m, s.done, if m == |s.home| - 1 && s.producer.PReset?
        then s.producer.i else s.B);
    }
  }

  lemma SameRing<T>(blocks: seq<Block<T>>, blocks': seq<Block<T>>, home: seq<nat>, used: nat, tailBlock: Option<nat>)
    requires RingOk(blocks, home, used, tailBlock)
    requires |blocks'| == |blocks| && forall b :: 0 <= b < |blocks| ==> blocks'[b].next == blocks[b].next
    ensures RingOk(blocks', home, used, tailBlock)
  {
  }

  lemma ConstructStep<T>(s: State<T>)
    requires Inv(s) && s.producer.PConstruct?
    ensures Inv(Construct(s))
  {
    ConstructRing(s);
    ConstructReaders(s);
    ConstructCells(s);
  }

  lemma ConstructRing<T>(s: State<T>)
    requires Shape(s) && s.producer.PConstruct? && RingOk(s.blocks, s.home, s.slotsUsed, s.tailBlock) && FlagsOk(s)
    requires IndexOk(s) && ProducerOk(s) && TailOk(s.B, s.counters.tail, |s.home|, s.producer)
    ensures var s' := Construct(s);
      && Shape(s') && RingOk(s'.blocks, s'.home, s'.slotsUsed, s'.tailBlock) && FlagsOk(s')
      && IndexOk(s') && ProducerOk(s') && TailOk(s'.B, s'.counters.tail, |s'.home|, s'.producer)
  {
    SameRing(s.blocks, Construct(s).blocks, s.home, s.slotsUsed, s.tailBlock);
    SameFlags(s, Construct(s));
  }

  lemma ConstructKeeps<T>(s: State<T>, x: nat)
    requires Inv(s) && s.producer.PConstruct?
    requires x < s.counters.tail && x !in s.done && Avail(s.B, s.blocks, s.home, s.enqueued, x)
    ensures Avail(s.B, Construct(s).blocks, s.home, s.enqueued, x)
  {
    InRing(s, x);
    assert s.tailBlock == Some(s.home[s.counters.tail / s.B]);
    AvailKept(s, s.counters.tail, Some(s.producer.v), x);
  }

  lemma ConstructReaders<T>(s: State<T>)
    requires Inv(s) && s.producer.PConstruct? && Shape(Construct(s))
    ensures forall t :: 0 <= t < |s.readers| ==> ReaderOk(Construct(s), t)
  {
    forall t | 0 <= t < |s.readers| ensures ReaderOk(Construct(s), t) {
      var q := s.counters.threads[t];
      UntakenIsUnfinished(s, t);
      if q.Got? {
        forall x: nat | Untaken(s.readers[t], q.first, q.count, x)
          ensures Avail(s.B, Construct(s).blocks, s.home, s.enqueued, x)
        {
          assert ReaderOk(s, t);
          ConstructKeeps(s, x);
        }
      }
      ReaderKept(s, Construct(s), t);
    }
  }

  lemma ConstructCells<T>(s: State<T>)
    requires Inv(s) && s.producer.PConstruct?
    ensures CellsOk(Construct(s))
  {
    forall x: nat | s.counters.head <= x < s.counters.tail
      ensures Avail(s.B, Construct(s).blocks, s.home, s.enqueued, x) {
      assert x !in s.done;
      ConstructKeeps(s, x);
    }
  }

  lemma UntakenIsUnfinished<T>(s: State<T>, u: nat)
    requires Inv(s) && u < |s.readers|
    ensures s.counters.threads[u].Got? ==> forall x: nat ::
      Untaken(s.readers[u], s.counters.threads[u].first, s.counters.threads[u].count, x) ==>
        x !in s.done && x < s.counters.head <= s.counters.tail
  {
    var q := s.counters.threads[u];
    assert ReaderOk(s, u);
    if q.Got? {
      forall x: nat | Untaken(s.readers[u], q.first, q.count, x)
        ensures x !in s.done && x < s.counters.head <= s.counters.tail {
        assert Unfinished(s.readers[u], q.first, q.count, x);
        UnfinishedInRing(s, u, x);
      }
    }
  }

  lemma PublishStep<T>(s: State<T>)
    requires Inv(s) && s.producer.PPublish?
    ensures Inv(PublishTail(s))
  {
    PublishTailOk(s);
    PublishReaders(s);
    PublishCells(s);
  }

  lemma PublishTailOk<T>(s: State<T>)
    requires Shape(s) && TailOk(s.B, s.counters.tail, |s.home|, s.producer) && ProducerOk(s) && s.producer.PPublish?
    requires RingOk(s.blocks, s.home, s.slotsUsed, s.tailBlock) && FlagsOk(s)
    ensures var s' := PublishTail(s);
      Shape(s') && ProducerOk(s') && TailOk(s'.B, s'.counters.tail, |s'.home|, s'.producer) && FlagsOk(s')
  {
    NextIndex(s.counters.tail, s.B);
    SameFlags(s, PublishTail(s));
  }

  lemma PublishReaders<T>(s: State<T>)
    requires Shape(s) && s.producer.PPublish? && (forall t :: 0 <= t < |s.readers| ==> ReaderOk(s, t))
      && Shape(PublishTail(s))
    ensures forall t :: 0 <= t < |s.readers| ==> ReaderOk(PublishTail(s), t)
  {
    ReadersKept(s, PublishTail(s));
  }

  lemma PublishCells<T>(s: State<T>)
    requires Inv(s) && s.producer.PPublish? && Shape(PublishTail(s))
    ensures CellsOk(PublishTail(s))
  {
    var s' := PublishTail(s);
    var tail := s.counters.tail;
    assert s.tailBlock == Some(s.home[tail / s.B]);
    forall x: nat | s'.counters.head <= x < s'.counters.tail ensures Avail(s.B, s'.blocks, s'.home, s'.enqueued, x) {
      if x < tail {
        assert Avail(s.B, s.blocks, s.home, s.enqueued, x);
        AvailExtends(s, s', x);
      }
    }
  }

  // ---------------------------------------------------------- consumer steps

  /** A consumer's move that changes nothing shared. */
  lemma OwnMove<T>(s: State<T>, s': State<T>, t: nat)
    requires Inv(s) && t < |s.readers| == |s'.readers| && s' == s.(readers := s.readers[t := s'.readers[t]])
    requires ReaderOk(s', t)
    ensures Inv(s')
  {
    SameFlags(s, s');
    CellsUnchanged(s, s');
    forall u | 0 <= u < |s'.readers| ensures ReaderOk(s', u) {
      if u != t {
        assert ReaderOk(s, u);
        assert s'.home[..|s.home|] == s.home;
        ReaderKept(s, s', u);
      }
    }
  }

  lemma CellsUnchanged<T>(s: State<T>, s': State<T>)
    requires s.B > 0 && CellsOk(s) && s'.B == s.B && s'.blocks == s.blocks && s'.home == s.home
      && s'.enqueued == s.enqueued
    requires s'.counters.head >= s.counters.head && s'.counters.tail == s.counters.tail
    ensures CellsOk(s')
  {
    forall x: nat | s'.counters.head <= x < s'.counters.tail ensures Avail(s.B, s'.blocks, s'.home, s'.enqueued, x) {
      assert Avail(s.B, s.blocks, s.home, s.enqueued, x);
    }
  }

  lemma LoadIndexStep<T>(s: State<T>, t: nat)
    requires Inv(s) && t < |s.readers| && s.readers[t].RLoadIndex?
    ensures s.counters.threads[t].Got? && Inv(ReaderNext(s, t))
  {
    assert ReaderOk(s, t);
    IndexLoaded(s, t);
    OwnMove(s, ReaderNext(s, t), t);
  }

  /** All of a consumer's indices are in the window of the index it has just loaded. */
  lemma IndexLoaded<T>(s: State<T>, t: nat)
    requires Inv(s) && t < |s.readers| && s.readers[t].RLoadIndex? && s.counters.threads[t].Got?
    ensures Shape(ReaderNext(s, t)) && ReaderOk(ReaderNext(s, t), t)
  {
    assert ReaderOk(s, t);
    var q := s.counters.threads[t];
    var s' := ReaderNext(s, t);
    var cur := Current(s);
    forall x: nat | Unfinished(s'.readers[t], q.first, q.count, x)
      ensures s.windows[cur].lo <= x / s.B < s.windows[cur].hi
    {
      UnfinishedInRing(s, t, x);
    }
  }

  /** The signed block distance from the front leads to the slot of `first`. */
  lemma OffsetLeadsHome(B: nat, h: Header, w: Window, home: seq<nat>, f: int, m: nat, first: nat)
    requires B > 0 && |h.entries| > 0 && HeaderOk(B, h, w, home)
    requires w.lo <= m < w.hi && f == Slot(h, w, m)
    ensures h.entries[f].base == m * B
    ensures (f + (first - first % B - h.entries[f].base) / B) % |h.entries| == Slot(h, w, first / B)
  {
    var d := first / B - m;
    assert first - first % B - m * B == d * B + 0 by { assert first == first / B * B + first % B; }
    DivUnique(first - first % B - m * B, d, 0, B);
    ModShift(m + w.shift, d, |h.entries|);
  }

  predicate IsLoad(r: Reading) { r.RLoadFront? || r.RReadBase? || r.RReadEntry? }

  /** Each load from the index leads on to the right place in it. */
  lemma LoadedPlaceOk(B: nat, headers: seq<Header>, windows: seq<Window>, home: seq<nat>, r: Reading,
      first: nat, count: nat)
    requires B > 0 && |headers| == |windows| > 0 && forall h :: 0 <= h < |headers| ==> |headers[h].entries| > 0
    requires HeadersOk(B, headers, windows, home)
    requires IsLoad(r) && PlaceOk(B, headers, windows, home, r, first, count)
    ensures PlaceOk(B, headers, windows, home, Loaded(B, headers, windows, r, first, count), first, count)
  {
    assert HeaderOk(B, headers[r.h], windows[r.h], home);
    if r.RLoadFront? {
      assert Unfinished(r, first, count, first);
      assert headers[r.h].front == Slot(headers[r.h], windows[r.h], windows[r.h].hi - 1);
      assert FrontSeen(B, headers[r.h], windows[r.h], headers[r.h].front, first);
      SameUnfinished(B, headers, windows, r, first, count);
    } else if r.RReadBase? {
      var m :| windows[r.h].lo <= m < windows[r.h].hi && first / B <= m && r.f == Slot(headers[r.h], windows[r.h], m);
      OffsetLeadsHome(B, headers[r.h], windows[r.h], home, r.f, m, first);
      SameUnfinished(B, headers, windows, r, first, count);
    } else {
      assert Unfinished(r, first, count, r.k);
      EntryLoaded(B, headers[r.h], windows[r.h], home, r.k);
      SameUnfinished(B, headers, windows, r, first, count);
    }
  }

  lemma EntryLoaded(B: nat, h: Header, w: Window, home: seq<nat>, k: nat)
    requires B > 0 && |h.entries| > 0 && HeaderOk(B, h, w, home) && w.lo <= k / B < w.hi
    ensures h.entries[Slot(h, w, k / B)].block == home[k / B] && k < k - k % B + B
  {
  }

  lemma SameUnfinished(B: nat, headers: seq<Header>, windows: seq<Window>, r: Reading, first: nat, count: nat)
    requires B > 0 && |headers| == |windows| > 0 && IsLoad(r)
    ensures var r' := Loaded(B, headers, windows, r, first, count);
      forall x :: (Unfinished(r', first, count, x) <==> Unfinished(r, first, count, x))
               && (Untaken(r', first, count, x) <==> Untaken(r, first, count, x))
  {
  }

  lemma LoadStep<T>(s: State<T>, t: nat)
    requires Inv(s) && t < |s.readers| && IsLoad(s.readers[t])
    ensures s.counters.threads[t].Got? && Inv(ReaderNext(s, t))
  {
    LoadedReaderOk(s, t);
    OwnMove(s, ReaderNext(s, t), t);
  }

  lemma LoadMoves<T>(s: State<T>, t: nat)
    requires Shape(s) && t < |s.readers| && IsLoad(s.readers[t]) && s.counters.threads[t].Got?
    ensures Shape(ReaderNext(s, t)) && ReaderNext(s, t) == s.(readers := s.readers[t :=
      Loaded(s.B, s.headers, s.windows, s.readers[t], s.counters.threads[t].first, s.counters.threads[t].count)])
  {
  }

  lemma LoadedReaderOk<T>(s: State<T>, t: nat)
    requires Inv(s) && t < |s.readers| && IsLoad(s.readers[t])
    ensures s.counters.threads[t].Got? && Shape(ReaderNext(s, t)) && ReaderOk(ReaderNext(s, t), t)
    ensures ReaderNext(s, t) == s.(readers := s.readers[t := ReaderNext(s, t).readers[t]])
  {
    assert ReaderOk(s, t);
    var r, q := s.readers[t], s.counters.threads[t];
    LoadMoves(s, t);
    LoadedPlaceOk(s.B, s.headers, s.windows, s.home, r, q.first, q.count);
    SameUnfinished(s.B, s.headers, s.windows, r, q.first, q.count);
    ReaderMoved(s, ReaderNext(s, t), t);
  }

  lemma ReaderMoved<T>(s: State<T>, s': State<T>, t: nat)
    requires Shape(s) && Shape(s') && t < |s.readers| == |s'.readers| && ReaderOk(s, t) && s.counters.threads[t].Got?
    requires s' == s.(readers := s.readers[t := s'.readers[t]]) && !s'.readers[t].RIdle?
    requires var q := s.counters.threads[t];
      && PlaceOk(s.B, s.headers, s.windows, s.home, s'.readers[t], q.first, q.count)
      && (forall x :: (Unfinished(s'.readers[t], q.first, q.count, x) <==>
        Unfinished(s.readers[t], q.first, q.count, x))
                   && (Untaken(s'.readers[t], q.first, q.count, x) <==> Untaken(s.readers[t], q.first, q.count, x)))
    ensures ReaderOk(s', t)
  {
  }

  /** A consumer's next element is there, in the block its index entry names. */
  lemma TakeFindsElement<T>(s: State<T>, t: nat)
    requires Inv(s) && t < |s.readers| && s.readers[t].RTake?
    ensures s.counters.threads[t].Got?
    ensures var r := s.readers[t];
      && r.i < |s.enqueued| && r.i !in s.got && r.i !in s.done && r.i < s.counters.head
      && |s.home| - s.slotsUsed <= r.i / s.B < |s.home| && r.b == s.home[r.i / s.B] < |s.blocks|
      && s.blocks[r.b].cells[r.i % s.B] == Some(s.enqueued[r.i])
  {
    assert ReaderOk(s, t);
    var r, q := s.readers[t], s.counters.threads[t];
    SameBlock(r.k, r.i, s.B);
    assert Untaken(r, q.first, q.count, r.i);
    assert Unfinished(r, q.first, q.count, r.i);
    UnfinishedInRing(s, t, r.i);
    assert Avail(s.B, s.blocks, s.home, s.enqueued, r.i);
  }

  lemma TakeShape<T>(s: State<T>, t: nat)
    requires Shape(s) && t < |s.readers| && s.readers[t].RTake?
    ensures var s' := Take(s, t);
      && Shape(s') && |s'.blocks| == |s.blocks|
      && s' == s.(got := s'.got, blocks := s'.blocks, readers := s'.readers)
      && (forall b :: 0 <= b < |s.blocks| ==>
        s'.blocks[b].next == s.blocks[b].next && s'.blocks[b].empty == s.blocks[b].empty)
  {
  }

  lemma TakeStep<T>(s: State<T>, t: nat)
    requires Inv(s) && t < |s.readers| && s.readers[t].RTake?
    ensures Inv(Take(s, t))
  {
    TakeShape(s, t);
    TakeRecord(s, t);
    TakeCells(s, t);
    forall u | 0 <= u < |s.readers| ensures ReaderOk(Take(s, t), u) {
      if u == t { TakeOwnReader(s, t); } else { TakeOtherReader(s, t, u); }
    }
    TakeAssembled(s, Take(s, t));
  }

  lemma TakeAssembled<T>(s: State<T>, s': State<T>)
    requires Inv(s) && Shape(s')
    requires s' == s.(got := s'.got, blocks := s'.blocks, readers := s'.readers) && |s'.blocks| == |s.blocks|
    requires forall b :: 0 <= b < |s.blocks| ==>
      s'.blocks[b].next == s.blocks[b].next && s'.blocks[b].empty == s.blocks[b].empty
    requires DoneOk(s.B, |s.home| - s.slotsUsed, s.counters.head, s.enqueued, s.done, s'.got) && ProducerOk(s')
      && CellsOk(s')
    requires forall u :: 0 <= u < |s.readers| ==> ReaderOk(s', u)
    ensures Inv(s')
  {
    SameRing(s.blocks, s'.blocks, s.home, s.slotsUsed, s.tailBlock);
    SameFlags(s, s');
  }

  /** What is read is recorded as enqueued, and the element the producer is
      about to publish is another one. */
  lemma TakeRecord<T>(s: State<T>, t: nat)
    requires Inv(s) && t < |s.readers| && s.readers[t].RTake? && Shape(Take(s, t))
    ensures var s' := Take(s, t);
      && DoneOk(s.B, |s.home| - s.slotsUsed, s.counters.head, s.enqueued, s.done, s'.got)
      && ProducerOk(s')
  {
    TakeFindsElement(s, t);
    TakeShape(s, t);
    if s.producer.PPublish? {
      var i, tail := s.readers[t].i, s.counters.tail;
      assert s.tailBlock == Some(s.home[tail / s.B]);
      if i / s.B == tail / s.B && i % s.B == tail % s.B { SameIndex(i, tail, s.B); }
    }
  }

  lemma TakeKeeps<T>(s: State<T>, t: nat, x: nat)
    requires Inv(s) && t < |s.readers| && s.readers[t].RTake?
    requires x != s.readers[t].i && x !in s.done && x < s.counters.tail && Avail(s.B, s.blocks, s.home, s.enqueued, x)
    ensures Avail(s.B, Take(s, t).blocks, s.home, s.enqueued, x)
  {
    TakeFindsElement(s, t);
    InRing(s, x);
    AvailKept(s, s.readers[t].i, None, x);
  }

  lemma TakeCells<T>(s: State<T>, t: nat)
    requires Inv(s) && t < |s.readers| && s.readers[t].RTake?
    ensures CellsOk(Take(s, t))
  {
    TakeFindsElement(s, t);
    DoneBelowHead(s);
    forall x: nat | s.counters.head <= x < s.counters.tail
      ensures Avail(s.B, Take(s, t).blocks, s.home, s.enqueued, x) {
      TakeKeeps(s, t, x);
    }
  }

  lemma TakenSets(r: Reading, first: nat, count: nat)
    requires r.RTake? && first <= r.k <= r.i < r.e <= first + count
    ensures forall x :: Unfinished(Taken(r), first, count, x) <==> Unfinished(r, first, count, x)
    ensures forall x :: Untaken(Taken(r), first, count, x) <==> Untaken(r, first, count, x) && x != r.i
  {
  }

  lemma TakenPlaceOk(B: nat, headers: seq<Header>, windows: seq<Window>, home: seq<nat>, r: Reading,
      first: nat, count: nat)
    requires B > 0 && |headers| == |windows| && forall h :: 0 <= h < |headers| ==> |headers[h].entries| > 0
    requires r.RTake? && PlaceOk(B, headers, windows, home, r, first, count)
    requires forall x :: Unfinished(Taken(r), first, count, x) <==> Unfinished(r, first, count, x)
    ensures PlaceOk(B, headers, windows, home, Taken(r), first, count)
  {
    var r' := Taken(r);
    assert Holds(r') && r'.h == r.h && r'.k == r.k && r'.ii == r.ii && r'.b == r.b && r'.e == r.e;
  }

  lemma TakeOwnReader<T>(s: State<T>, t: nat)
    requires Inv(s) && t < |s.readers| && s.readers[t].RTake? && Shape(Take(s, t))
    ensures ReaderOk(Take(s, t), t)
  {
    TakeFindsElement(s, t);
    UntakenIsUnfinished(s, t);
    assert ReaderOk(s, t);
    var r, q := s.readers[t], s.counters.threads[t];
    TakenSets(r, q.first, q.count);
    TakenPlaceOk(s.B, s.headers, s.windows, s.home, r, q.first, q.count);
    forall x: nat | Untaken(r, q.first, q.count, x) && x != r.i
      ensures Avail(s.B, Take(s, t).blocks, s.home, s.enqueued, x)
    {
      TakeKeeps(s, t, x);
    }
    TakeOwnSets(s, t);
  }

  lemma TakeOwnSets<T>(s: State<T>, t: nat)
    requires Shape(s) && t < |s.readers| && ReaderOk(s, t) && s.readers[t].RTake? && s.counters.threads[t].Got?
      && Shape(Take(s, t))
    requires var r, q, s' := s.readers[t], s.counters.threads[t], Take(s, t);
      && 0 <= r.b < |s.blocks| && s.blocks[r.b].cells[r.i % s.B].Some?
      && PlaceOk(s.B, s.headers, s.windows, s.home, s'.readers[t], q.first, q.count)
      && (forall x :: Unfinished(s'.readers[t], q.first, q.count, x) <==> Unfinished(r, q.first, q.count, x))
      && (forall x :: Untaken(s'.readers[t], q.first, q.count, x) <==> Untaken(r, q.first, q.count, x) && x != r.i)
      && (forall x: nat :: Untaken(r, q.first, q.count, x) && x != r.i ==> Avail(s.B, s'.blocks, s.home, s.enqueued, x))
    ensures ReaderOk(Take(s, t), t)
  {
    var r, q, s' := s.readers[t], s.counters.threads[t], Take(s, t);
    forall x: nat | q.first <= x < q.first + q.count ensures Untaken(s'.readers[t], q.first, q.count, x) <==>
      x !in s'.got {
      assert Untaken(r, q.first, q.count, x) <==> x !in s.got;
    }
    forall x: nat | q.first <= x < q.first + q.count ensures Unfinished(s'.readers[t], q.first, q.count, x) <==>
      x !in s'.done {
      assert Unfinished(r, q.first, q.count, x) <==> x !in s.done;
    }
  }

  /** No two consumers hold the same index. */
  lemma Apart(k: C.State, t: nat, u: nat, x: nat)
    requires ClaimsOk(k) && t < |k.threads| && u < |k.threads| && t != u
    requires C.Owns(k.threads[t], x)
    ensures !C.Owns(k.threads[u], x)
  {
    if t < u { assert C.Disjoint(k.threads[t], k.threads[u]); } else { assert C.Disjoint(k.threads[u], k.threads[t]); }
  }

  /** What another consumer has still to take is still there. */
  lemma TakeKeepsOthers<T>(s: State<T>, t: nat, u: nat)
    requires Inv(s) && t < |s.readers| && s.readers[t].RTake? && Shape(Take(s, t))
    requires u < |s.readers| && u != t && s.counters.threads[u].Got?
    ensures var q := s.counters.threads[u];
      forall x: nat :: Untaken(s.readers[u], q.first, q.count, x) ==>
        Avail(s.B, Take(s, t).blocks, s.home, s.enqueued, x)
  {
    TakeFindsElement(s, t);
    assert ReaderOk(s, t) && ReaderOk(s, u);
    Apart(s.counters, t, u, s.readers[t].i);
    UntakenIsUnfinished(s, u);
    var q := s.counters.threads[u];
    forall x: nat | Untaken(s.readers[u], q.first, q.count, x)
      ensures Avail(s.B, Take(s, t).blocks, s.home, s.enqueued, x)
    {
      TakeKeeps(s, t, x);
    }
  }

  lemma TakeOtherReader<T>(s: State<T>, t: nat, u: nat)
    requires Inv(s) && t < |s.readers| && s.readers[t].RTake? && Shape(Take(s, t))
    requires u < |s.readers| && u != t
    ensures ReaderOk(Take(s, t), u)
  {
    TakeFindsElement(s, t);
    assert ReaderOk(s, u);
    if s.counters.threads[u].Got? { TakeKeepsOthers(s, t, u); }
    assert s.home[..|s.home|] == s.home;
    ReaderKept(s, Take(s, t), u);
  }

  /** The flag a consumer sets next belongs to index e - 1 - j, still unfinished. */
  lemma FlagOfIndex<T>(s: State<T>, t: nat)
    requires Inv(s) && t < |s.readers| && s.readers[t].RFlag?
    ensures s.counters.threads[t].Got?
    ensures var r := s.readers[t]; var x := r.e - 1 - r.j;
      && r.k <= x && s.B - 1 - r.k % s.B - (r.e - r.k) + 1 + r.j == FlagPos(s.B, x)
      && x !in s.done && x in s.got && x < s.counters.head
      && |s.home| - s.slotsUsed <= x / s.B < |s.home| && x / s.B < s.windows[Current(s)].hi
      && r.b == s.home[x / s.B] < |s.blocks|
      && C.Owns(s.counters.threads[t], x) && r.h < |s.headers|
  {
    assert ReaderOk(s, t);
    var r, q := s.readers[t], s.counters.threads[t];
    var x := r.e - 1 - r.j;
    SameBlock(r.k, x, s.B);
    assert Unfinished(r, q.first, q.count, x);
    UnfinishedInRing(s, t, x);
  }

  /** The flag that consumer state r sets next is there, and clear. */
  ghost predicate NextFlagClear<T>(B: nat, blocks: seq<Block<T>>, r: Reading)
    requires B > 0 && r.RFlag?
  {
    var pos := B - 1 - r.k % B - (r.e - r.k) + 1 + r.j;
    0 <= r.b < |blocks| && 0 <= pos < |blocks[r.b].empty| && !blocks[r.b].empty[pos]
  }

  /** The code's assertion before it sets a flag: nobody has set it yet. */
  lemma FlagWasClear<T>(s: State<T>, t: nat)
    requires Inv(s) && t < |s.readers| && s.readers[t].RFlag?
    ensures NextFlagClear(s.B, s.blocks, s.readers[t])
  {
    FlagOfIndex(s, t);
    var r := s.readers[t];
    var x: nat := r.e - 1 - r.j;
    var m := x / s.B;
    assert FlagsOfBlock(s.B, s.blocks[s.home[m]].empty, m, s.done, s.B);
    FlagOfUndone(s.B, s.blocks[s.home[m]].empty, s.done, x);
  }

  lemma FlagOfUndone(B: nat, empty: seq<bool>, done: set<nat>, x: nat)
    requires B > 0 && |empty| == B && FlagsOfBlock(B, empty, x / B, done, B) && x !in done
    ensures 0 <= FlagPos(B, x) < B && !empty[FlagPos(B, x)]
  {
    assert x == x / B * B + x % B;
  }

  lemma FlagShape<T>(s: State<T>, t: nat)
    requires Shape(s) && t < |s.readers| && s.readers[t].RFlag? && s.counters.threads[t].Got?
    ensures var s' := MarkEmpty(s, t);
      && Shape(s') && |s'.blocks| == |s.blocks|
      && s' == s.(done := s'.done, blocks := s'.blocks, readers := s'.readers)
      && (forall b :: 0 <= b < |s.blocks| ==>
        s'.blocks[b].next == s.blocks[b].next && s'.blocks[b].cells == s.blocks[b].cells)
  {
  }

  lemma FlagStep<T>(s: State<T>, t: nat)
    requires Inv(s) && t < |s.readers| && s.readers[t].RFlag?
    ensures s.counters.threads[t].Got? && Inv(MarkEmpty(s, t))
  {
    FlagOfIndex(s, t);
    FlagShape(s, t);
    SameRing(s.blocks, MarkEmpty(s, t).blocks, s.home, s.slotsUsed, s.tailBlock);
    FlagMarked(s, t);
    FlagProducer(s, t);
    FlagReaders(s, t);
    FlagAssembled(s, MarkEmpty(s, t), s.readers[t].e - 1 - s.readers[t].j);
  }

  lemma FlagReaders<T>(s: State<T>, t: nat)
    requires Inv(s) && t < |s.readers| && s.readers[t].RFlag? && s.counters.threads[t].Got? && Shape(MarkEmpty(s, t))
    ensures |MarkEmpty(s, t).readers| == |s.readers|
    ensures forall u :: 0 <= u < |s.readers| ==> ReaderOk(MarkEmpty(s, t), u)
  {
    FlagShape(s, t);
    forall u | 0 <= u < |s.readers| ensures ReaderOk(MarkEmpty(s, t), u) {
      if u == t { FlagOwnReader(s, t); } else { FlagOtherReader(s, t, u); }
    }
  }

  lemma FlagAssembled<T>(s: State<T>, s': State<T>, x: nat)
    requires Inv(s) && Shape(s')
    requires s' == s.(done := s'.done, blocks := s'.blocks, readers := s'.readers) && |s'.blocks| == |s.blocks|
    requires forall b :: 0 <= b < |s.blocks| ==>
      s'.blocks[b].next == s.blocks[b].next && s'.blocks[b].cells == s.blocks[b].cells
    requires s'.done == s.done + {x} && x in s.got
    requires RingOk(s'.blocks, s.home, s.slotsUsed, s.tailBlock) && FlagsOk(s') && ProducerOk(s')
    requires forall u :: 0 <= u < |s.readers| ==> ReaderOk(s', u)
    ensures Inv(s')
  {
    SameCells(s, s');
  }

  lemma FlagProducer<T>(s: State<T>, t: nat)
    requires Inv(s) && t < |s.readers| && s.readers[t].RFlag? && s.counters.threads[t].Got? && Shape(MarkEmpty(s, t))
    ensures ProducerOk(MarkEmpty(s, t))
  {
    FlagOfIndex(s, t);
    FlagShape(s, t);
  }

  lemma SameCells<T>(s: State<T>, s': State<T>)
    requires s.B > 0 && CellsOk(s) && s'.B == s.B && s'.home == s.home && s'.enqueued == s.enqueued
      && s'.counters == s.counters
    requires |s'.blocks| == |s.blocks| && forall b :: 0 <= b < |s.blocks| ==> s'.blocks[b].cells == s.blocks[b].cells
    ensures CellsOk(s')
  {
    forall x: nat | s.counters.head <= x < s.counters.tail ensures Avail(s.B, s'.blocks, s'.home, s'.enqueued, x) {
      assert Avail(s.B, s.blocks, s.home, s.enqueued, x);
    }
  }

  lemma FlagSet(B: nat, empty: seq<bool>, m: nat, done: set<nat>, resetting: int, x: nat)
    requires B > 0 && |empty| == B && FlagsOfBlock(B, empty, m, done, resetting)
    requires x / B == m
    ensures FlagsOfBlock(B, empty[FlagPos(B, x) := true], m, done + {x}, resetting)
  {
    var empty' := empty[FlagPos(B, x) := true];
    forall p | 0 <= p < B && p < resetting ensures empty'[p] == ((m * B + (B - 1 - p)) in done + {x}) {
      assert x == m * B + x % B;
    }
  }

  lemma FlagElsewhere(B: nat, empty: seq<bool>, m: nat, done: set<nat>, resetting: int, x: nat)
    requires B > 0 && |empty| == B && FlagsOfBlock(B, empty, m, done, resetting)
    requires x / B != m
    ensures FlagsOfBlock(B, empty, m, done + {x}, resetting)
  {
    forall p | 0 <= p < B && p < resetting ensures empty[p] == ((m * B + (B - 1 - p)) in done + {x}) {
      DivUnique(m * B + (B - 1 - p), m, B - 1 - p, B);
    }
  }

  lemma FlagMarked<T>(s: State<T>, t: nat)
    requires Inv(s) && t < |s.readers| && s.readers[t].RFlag? && s.counters.threads[t].Got?
    requires Shape(MarkEmpty(s, t)) && RingOk(MarkEmpty(s, t).blocks, s.home, s.slotsUsed, s.tailBlock)
    ensures FlagsOk(MarkEmpty(s, t))
  {
    FlagOfIndex(s, t);
    FlagShape(s, t);
    FlagsMarked(s, MarkEmpty(s, t), s.readers[t].e - 1 - s.readers[t].j);
  }

  lemma FlagsMarked<T>(s: State<T>, s': State<T>, x: nat)
    requires Shape(s) && RingOk(s.blocks, s.home, s.slotsUsed, s.tailBlock) && FlagsOk(s)
    requires Shape(s') && RingOk(s'.blocks, s'.home, s'.slotsUsed, s'.tailBlock)
    requires |s.home| - s.slotsUsed <= x / s.B < |s.home|
    requires s' == s.(done := s.done + {x}, blocks := SetFlag(s.blocks, s.home[x / s.B], FlagPos(s.B, x)),
      readers := s'.readers)
    ensures FlagsOk(s')
  {
    forall m | |s.home| - s.slotsUsed <= m < |s.home|
      ensures FlagsOfBlock(s.B, s'.blocks[s'.home[m]].empty, m, s'.done, if m == |s.home| - 1 && s.producer.PReset?
        then s.producer.i else s.B)
    {
      var resetting := if m == |s.home| - 1 && s.producer.PReset? then s.producer.i else s.B;
      assert FlagsOfBlock(s.B, s.blocks[s.home[m]].empty, m, s.done, resetting);
      if m == x / s.B {
        FlagSet(s.B, s.blocks[s.home[m]].empty, m, s.done, resetting, x);
      } else {
        FlagElsewhere(s.B, s.blocks[s.home[m]].empty, m, s.done, resetting, x);
        assert s.home[m] != s.home[x / s.B];
      }
    }
  }

  lemma FlaggedSets(r: Reading, first: nat, count: nat, size: nat)
    requires r.RFlag? && size > 0 && first <= r.k < r.e <= first + count && r.j < r.e - r.k
    ensures var r' := Flagged(r, first + count, size);
      forall x :: (Unfinished(r', first, count, x) <==> Unfinished(r, first, count, x) && x != r.e - 1 - r.j)
               && (Untaken(r', first, count, x) <==> Untaken(r, first, count, x))
  {
  }

  lemma NextSlot(B: nat, h: Header, w: Window, k: nat)
    requires B > 0 && |h.entries| > 0
    ensures k - k % B + B >= 0 && (Slot(h, w, k / B) + 1) % |h.entries| == Slot(h, w, (k - k % B + B) / B)
    ensures k < k - k % B + B
  {
    NextBlock(k, B);
    ModShift(k / B + w.shift, 1, |h.entries|);
  }

  lemma FlaggedPlaceOk(B: nat, headers: seq<Header>, windows: seq<Window>, home: seq<nat>, r: Reading,
      first: nat, count: nat)
    requires B > 0 && |headers| == |windows| && forall h :: 0 <= h < |headers| ==> |headers[h].entries| > 0
    requires r.RFlag? && PlaceOk(B, headers, windows, home, r, first, count)
    requires forall x :: Unfinished(Flagged(r, first + count, |headers[r.h].entries|), first, count, x) ==>
      Unfinished(r, first, count, x)
    ensures PlaceOk(B, headers, windows, home, Flagged(r, first + count, |headers[r.h].entries|), first, count)
  {
    var r' := Flagged(r, first + count, |headers[r.h].entries|);
    NextSlot(B, headers[r.h], windows[r.h], r.k);
    if r'.RReadEntry? {
      assert r'.k == r.k - r.k % B + B;
      forall x: nat | Unfinished(r', first, count, x) ensures windows[r'.h].lo <= x / B < windows[r'.h].hi {
        assert Unfinished(r, first, count, x);
      }
      NextEntryOk(B, headers, windows, home, r', first, count);
    } else if r'.RFlag? {
      SameRunOk(B, headers, windows, home, r, r', first, count);
    }
  }

  lemma NextEntryOk(B: nat, headers: seq<Header>, windows: seq<Window>, home: seq<nat>, r': Reading,
      first: nat, count: nat)
    requires B > 0 && |headers| == |windows| && forall h :: 0 <= h < |headers| ==> |headers[h].entries| > 0
    requires r'.RReadEntry? && r'.h < |headers| && first <= r'.k < first + count
    requires r'.ii == Slot(headers[r'.h], windows[r'.h], r'.k / B)
    requires forall x: nat :: Unfinished(r', first, count, x) ==> windows[r'.h].lo <= x / B < windows[r'.h].hi
    ensures PlaceOk(B, headers, windows, home, r', first, count)
  {
  }

  lemma SameRunOk(B: nat, headers: seq<Header>, windows: seq<Window>, home: seq<nat>, r: Reading, r': Reading,
      first: nat, count: nat)
    requires B > 0 && |headers| == |windows| && forall h :: 0 <= h < |headers| ==> |headers[h].entries| > 0
    requires r.RFlag? && PlaceOk(B, headers, windows, home, r, first, count)
    requires r' == r.(j := r.j + 1) && r'.j < r.e - r.k
    requires forall x :: Unfinished(r', first, count, x) ==> Unfinished(r, first, count, x)
    ensures PlaceOk(B, headers, windows, home, r', first, count)
  {
  }

  lemma FlagOwnReader<T>(s: State<T>, t: nat)
    requires Inv(s) && t < |s.readers| && s.readers[t].RFlag? && s.counters.threads[t].Got? && Shape(MarkEmpty(s, t))
    ensures ReaderOk(MarkEmpty(s, t), t)
  {
    FlagOfIndex(s, t);
    assert ReaderOk(s, t);
    var r, q := s.readers[t], s.counters.threads[t];
    FlaggedSets(r, q.first, q.count, |s.headers[r.h].entries|);
    FlaggedPlaceOk(s.B, s.headers, s.windows, s.home, r, q.first, q.count);
    FlagOwnSets(s, t);
  }

  lemma FlagOwnSets<T>(s: State<T>, t: nat)
    requires Shape(s) && t < |s.readers| && ReaderOk(s, t) && s.readers[t].RFlag? && s.counters.threads[t].Got?
      && Shape(MarkEmpty(s, t))
    requires var r, q := s.readers[t], s.counters.threads[t];
      var r' := Flagged(r, q.first + q.count, |s.headers[r.h].entries|);
      && 0 <= r.b < |s.blocks| && 0 <= s.B - 1 - r.k % s.B - (r.e - r.k) + 1 + r.j < s.B && r.j < r.e
      && PlaceOk(s.B, s.headers, s.windows, s.home, r', q.first, q.count)
      && (forall x :: (Unfinished(r', q.first, q.count, x) <==>
        Unfinished(r, q.first, q.count, x) && x != r.e - 1 - r.j)
                   && (Untaken(r', q.first, q.count, x) <==> Untaken(r, q.first, q.count, x)))
    ensures ReaderOk(MarkEmpty(s, t), t)
  {
    var r, q, s' := s.readers[t], s.counters.threads[t], MarkEmpty(s, t);
    assert s'.readers[t] == Flagged(r, q.first + q.count, |s.headers[r.h].entries|);
    forall x: nat | Untaken(s'.readers[t], q.first, q.count, x) ensures Avail(s.B, s'.blocks, s.home, s.enqueued, x) {
      assert Avail(s.B, s.blocks, s.home, s.enqueued, x);
    }
  }

  lemma FlagOtherReader<T>(s: State<T>, t: nat, u: nat)
    requires Inv(s) && t < |s.readers| && s.readers[t].RFlag? && s.counters.threads[t].Got? && Shape(MarkEmpty(s, t))
    requires u < |s.readers| && u != t
    ensures ReaderOk(MarkEmpty(s, t), u)
  {
    FlagOfIndex(s, t);
    assert ReaderOk(s, u);
    Apart(s.counters, t, u, s.readers[t].e - 1 - s.readers[t].j);
    var q := s.counters.threads[u];
    if q.Got? {
      forall x: nat | Untaken(s.readers[u], q.first, q.count, x)
        ensures Avail(s.B, MarkEmpty(s, t).blocks, s.home, s.enqueued, x)
      {
        assert Avail(s.B, s.blocks, s.home, s.enqueued, x);
      }
    }
    assert s.home[..|s.home|] == s.home;
    ReaderKept(s, MarkEmpty(s, t), u);
  }

  lemma ClaimsStep(k: C.State, t: nat, c: C.Call)
    requires C.Inv(k) && t < |k.threads|
    ensures C.Inv(C.Next(k, t, c)) && ClaimsOk(C.Next(k, t, c))
  {
    var k' := C.Next(k, t, c);
    C.StepKeepsInv(k, t, c);
    C.HeadBehindTail(k');
    forall u | 0 <= u < |k'.threads| && k'.threads[u].Got?
      ensures k'.threads[u].first + k'.threads[u].count <= k'.head {
      assert C.ThreadOk(k', u);
    }
  }

  /** A consumer's access to the counters: all but the claim itself leave the
      blocks alone, and a claim takes indices whose elements are in place. */
  lemma CounterStep<T>(s: State<T>, t: nat, c: C.Call)
    requires Inv(s) && t < |s.readers| && !s.counters.threads[t].Got?
    requires C.TicketsInRange(C.Next(s.counters, t, c)) && ClaimsOk(C.Next(s.counters, t, c))
    ensures Inv(ConsumerNext(s, t, c))
  {
    var s' := ConsumerNext(s, t, c);
    CounterShape(s.counters, t, c);
    CounterReaders(s, t, c);
    ClaimsAssembled(s, s');
  }

  lemma CounterReaders<T>(s: State<T>, t: nat, c: C.Call)
    requires Inv(s) && t < |s.readers| && !s.counters.threads[t].Got?
    requires Shape(ConsumerNext(s, t, c)) && ClaimsOk(ConsumerNext(s, t, c).counters)
    ensures forall u :: 0 <= u < |s.readers| ==> ReaderOk(ConsumerNext(s, t, c), u)
  {
    var s' := ConsumerNext(s, t, c);
    CounterShape(s.counters, t, c);
    DoneBelowHead(s);
    assert s'.home[..|s.home|] == s.home;
    forall u | 0 <= u < |s'.readers| ensures ReaderOk(s', u) {
      assert ReaderOk(s, u);
      if u != t { OtherReaderSame(s, s', u); } else { ClaimedReader(s, s', t); }
    }
  }

  lemma OtherReaderSame<T>(s: State<T>, s': State<T>, u: nat)
    requires Shape(s) && Shape(s') && u < |s.readers| == |s'.readers| && ReaderOk(s, u)
    requires s' == s.(counters := s'.counters, readers := s'.readers)
    requires s'.readers[u] == s.readers[u] && s'.counters.threads[u] == s.counters.threads[u]
    ensures ReaderOk(s', u)
  {
  }

  lemma CounterShape(k: C.State, t: nat, c: C.Call)
    requires C.TicketsInRange(k) && t < |k.threads| && !k.threads[t].Got?
    ensures var k' := C.Next(k, t, c);
      && |k'.threads| == |k.threads| && k'.threads == k.threads[t := k'.threads[t]]
      && k'.tail == k.tail && k'.head >= k.head
      && (k'.threads[t].Got? ==> k'.threads[t].first == k.head && k'.head == k.head + k'.threads[t].count)
  {
  }

  lemma ClaimedReader<T>(s: State<T>, s': State<T>, t: nat)
    requires Shape(s) && Shape(s') && t < |s.readers| == |s'.readers| && CellsOk(s)
    requires s' == s.(counters := s'.counters, readers := s'.readers)
    requires forall x :: x in s.done ==> x < s.counters.head
    requires forall x :: x in s.got ==> x < s.counters.head
    requires var q := s'.counters.threads[t];
      && s'.readers[t] == (if !q.Got? then RIdle else if q.count > 0 then RLoadIndex else RDone)
      && (q.Got? ==> q.first == s.counters.head && q.first + q.count <= s.counters.tail)
    ensures ReaderOk(s', t)
  {
    var q := s'.counters.threads[t];
    if q.Got? {
      forall x: nat | q.first <= x < q.first + q.count ensures Avail(s.B, s'.blocks, s'.home, s'.enqueued, x) {
        assert Avail(s.B, s.blocks, s.home, s.enqueued, x);
      }
    }
  }

  lemma FinishStep<T>(s: State<T>, t: nat)
    requires Inv(s) && t < |s.readers| && s.readers[t].RDone?
    requires C.TicketsInRange(C.Next(s.counters, t, C.Finish)) && ClaimsOk(C.Next(s.counters, t, C.Finish))
    ensures s.counters.threads[t].Got? && Inv(ReaderNext(s, t))
  {
    assert ReaderOk(s, t);
    FinishReaders(s, t);
    var s' := ReaderNext(s, t);
    assert s'.counters == s.counters.(threads := s.counters.threads[t := C.Idle]);
    ClaimsAssembled(s, s');
  }

  /** Only the claims and the readers have changed. */
  lemma ClaimsAssembled<T>(s: State<T>, s': State<T>)
    requires Inv(s) && Shape(s') && s' == s.(counters := s'.counters, readers := s'.readers)
    requires ClaimsOk(s'.counters) && s'.counters.tail == s.counters.tail && s'.counters.head >= s.counters.head
    requires forall u :: 0 <= u < |s'.readers| ==> ReaderOk(s', u)
    ensures Inv(s')
  {
    SameFlags(s, s');
    CellsUnchanged(s, s');
  }

  lemma FinishReaders<T>(s: State<T>, t: nat)
    requires Shape(s) && (forall u :: 0 <= u < |s.readers| ==> ReaderOk(s, u))
    requires t < |s.readers| && s.readers[t].RDone? && s.counters.threads[t].Got?
    requires C.TicketsInRange(C.Next(s.counters, t, C.Finish))
    ensures Shape(ReaderNext(s, t)) && forall u :: 0 <= u < |s.readers| ==> ReaderOk(ReaderNext(s, t), u)
  {
    var s' := ReaderNext(s, t);
    forall u | 0 <= u < |s'.readers| ensures ReaderOk(s', u) {
      assert ReaderOk(s, u);
      if u != t { OtherReaderSame(s, s', u); }
    }
  }

  lemma ProducerKeepsInv<T>(s: State<T>, c: Call<T>)
    requires Inv(s)
    ensures Inv(ProducerNext(s, c))
  {
    var s' := ProducerNext(s, c);
    match s.producer {
      case PScan(_, _) => assert s' == ScanFlag(s); ScanStep(s);
      case PReset(_, _) => assert s' == ClearFlag(s); ResetStep(s);
      case PGrow(_) => assert s' == Grow(s); GrowStep(s);
      case PNewBlock(_) => NewBlockStep(s, c);
      case PWriteBase(v) =>
        var e := s.headers[Current(s)].entries[s.front].(base := s.counters.tail);
        assert s' == WriteEntry(s, e).(producer := PWriteBlock(v));
        WriteEntryStep(s, e, PWriteBlock(v));
      case PWriteBlock(v) =>
        var e := s.headers[Current(s)].entries[s.front].(block := s.tailBlock.value);
        assert s' == WriteEntry(s, e).(producer := PWriteFront(v));
        WriteEntryStep(s, e, PWriteFront(v));
      case PWriteFront(_) => assert s' == WriteFront(s); WriteFrontStep(s);
      case PConstruct(_) => assert s' == Construct(s); ConstructStep(s);
      case PPublish(_) => assert s' == PublishTail(s); PublishStep(s);
      case PLoadHead(_) => LoadHeadStep(s, c);
      case PIdle => BeginStep(s, c);
    }
  }

  lemma BeginStep<T>(s: State<T>, c: Call<T>)
    requires Inv(s) && s.producer.PIdle?
    ensures Inv(ProducerNext(s, c))
  {
    LocalStep(s, ProducerNext(s, c));
  }

  lemma LoadHeadStep<T>(s: State<T>, c: Call<T>)
    requires Inv(s) && s.producer.PLoadHead?
    ensures Inv(ProducerNext(s, c))
  {
    LocalStep(s, ProducerNext(s, c));
  }

  lemma NewBlockStep<T>(s: State<T>, c: Call<T>)
    requires Inv(s) && s.producer.PNewBlock?
    ensures Inv(ProducerNext(s, c))
  {
    if (c.ProducerStep? && c.giveUp) || s.slotsUsed == |s.headers[Current(s)].entries| {
      LocalStep(s, s.(producer := PIdle));
    } else {
      assert ProducerNext(s, c) == AddBlock(s);
      AddBlockStep(s);
    }
  }

  lemma ReaderStep<T>(s: State<T>, t: nat)
    requires Inv(s) && C.Inv(s.counters) && t < |s.readers| && s.counters.threads[t].Got?
    ensures Inv(ReaderNext(s, t))
  {
    assert ReaderOk(s, t);
    match s.readers[t] {
      case RLoadIndex => LoadIndexStep(s, t);
      case RTake(_, _, _, _, _, _) => TakeStep(s, t);
      case RFlag(_, _, _, _, _, _) => FlagStep(s, t);
      case RDone => ClaimsStep(s.counters, t, C.Finish); FinishStep(s, t);
      case _ => LoadStep(s, t);
    }
  }

  lemma ConsumerStep<T>(s: State<T>, t: nat, k: C.Call)
    requires Inv(s) && C.Inv(s.counters) && t < |s.readers|
    ensures Inv(ConsumerNext(s, t, k)) && C.Inv(ConsumerNext(s, t, k).counters)
  {
    if s.counters.threads[t].Got? {
      assert ConsumerNext(s, t, k) == ReaderNext(s, t);
      ReaderStep(s, t);
      ReaderCounters(s, t);
    } else {
      ClaimsStep(s.counters, t, k);
      CounterStep(s, t, k);
    }
  }

  lemma ReaderCounters<T>(s: State<T>, t: nat)
    requires Shape(s) && C.Inv(s.counters) && t < |s.readers| && s.counters.threads[t].Got?
    ensures C.Inv(ReaderNext(s, t).counters)
  {
    if s.readers[t].RDone? { ClaimsStep(s.counters, t, C.Finish); }
  }

  lemma ProducerCounters<T>(s: State<T>, c: Call<T>)
    requires Shape(s) && C.Inv(s.counters)
    ensures C.Inv(ProducerNext(s, c).counters)
  {
    if s.producer.PPublish? { C.PublishKeepsInv(s.counters, 1); }
  }

  lemma StepKeepsInv<T>(s: State<T>, c: Call<T>)
    requires Inv(s) && C.Inv(s.counters)
    ensures Inv(Next(s, c)) && C.Inv(Next(s, c).counters)
  {
    var s' := Next(s, c);
    match c {
      case Consumer(t, k) =>
        if t < |s.readers| {
          assert s' == ConsumerNext(s, t, k);
          ConsumerStep(s, t, k);
        } else {
          assert s' == s;
        }
      case _ =>
        assert s' == ProducerNext(s, c);
        ProducerKeepsInv(s, c);
        ProducerCounters(s, c);
    }
  }

  // ------------------------------------------------------------ whole runs

  ghost function Run<T>(s: State<T>, cs: seq<Call<T>>): (r: State<T>)
    requires Inv(s) && C.Inv(s.counters)
    ensures Inv(r) && C.Inv(r.counters)
    decreases |cs|
  {
    if cs == [] then s else StepKeepsInv(s, cs[0]); Run(Next(s, cs[0]), cs[1..])
  }

  /** The consumer that drew index i reads the i-th value enqueued: for every
      index read, in any run, and for every index of a consumer about to return. */
  lemma EveryReadIsTheEnqueuedValue<T>(s0: State<T>, cs: seq<Call<T>>)
    requires Init(s0)
    ensures Inv(s0) && C.Inv(s0.counters)
    ensures var s := Run(s0, cs);
      && (forall i :: i in s.got ==> i < |s.enqueued| && s.got[i] == s.enqueued[i])
      && (forall t, i: nat :: 0 <= t < |s.readers| && s.readers[t].RDone? && C.Owns(s.counters.threads[t], i) ==>
        i in s.got)
  {
    InitInv(s0);
    var s := Run(s0, cs);
    forall t, i: nat | 0 <= t < |s.readers| && s.readers[t].RDone? && C.Owns(s.counters.threads[t], i)
      ensures i in s.got {
      assert ReaderOk(s, t);
    }
  }

  /** A block is reset only once every index it held is fully dequeued: no
      consumer is still reading it or setting its flags. */
  lemma ResetTouchesNoReader<T>(s: State<T>, t: nat)
    requires Inv(s) && s.producer.PReset? && t < |s.readers| && (s.readers[t].RTake? || s.readers[t].RFlag?)
    ensures s.readers[t].b != s.tailBlock.value
    ensures forall x: nat :: x / s.B < |s.home| - s.slotsUsed ==> x in s.done && x in s.got
  {
    assert ReaderOk(s, t);
    var r, q := s.readers[t], s.counters.threads[t];
    if r.RTake? {
      assert Unfinished(r, q.first, q.count, r.k);
      UnfinishedInRing(s, t, r.k);
    } else {
      FlagOfIndex(s, t);
      SameBlock(r.k, r.e - 1 - r.j, s.B);
    }
  }

  /** The slot consumer state r has computed names its element's base and block. */
  ghost predicate MapsElement(B: nat, headers: seq<Header>, home: seq<nat>, r: Reading)
    requires B > 0 && r.RReadEntry?
  {
    && r.h < |headers| && 0 <= r.ii < |headers[r.h].entries| && r.k / B < |home|
    && headers[r.h].entries[r.ii] == Entry(r.k - r.k % B, home[r.k / B])
  }

  /** Whatever index a consumer holds, current or superseded by doubling, it
      still maps the consumer's indices. */
  lemma HeldIndexMapsElement<T>(s: State<T>, t: nat)
    requires Inv(s) && t < |s.readers| && s.readers[t].RReadEntry?
    ensures MapsElement(s.B, s.headers, s.home, s.readers[t])
  {
    assert ReaderOk(s, t);
    HeldSlotMaps(s.B, s.headers, s.windows, s.home, s.readers[t], s.counters.threads[t].first,
      s.counters.threads[t].count);
  }

  lemma HeldSlotMaps(B: nat, headers: seq<Header>, windows: seq<Window>, home: seq<nat>, r: Reading,
      first: nat, count: nat)
    requires B > 0 && |headers| == |windows| && forall h :: 0 <= h < |headers| ==> |headers[h].entries| > 0
    requires HeadersOk(B, headers, windows, home) && r.RReadEntry?
      && PlaceOk(B, headers, windows, home, r, first, count)
    ensures MapsElement(B, headers, home, r)
  {
    assert Unfinished(r, first, count, r.k);
    assert HeaderOk(B, headers[r.h], windows[r.h], home);
    BlockStart(r.k, B);
  }

  lemma BlockStart(k: nat, B: nat)
    requires B > 0
    ensures k - k % B == k / B * B
  {
    assert k == k / B * B + k % B;
  }

  /** The code divides the block distance as an unsigned number.  Where the word
      size W is a multiple of index size times block size, as for powers of two,
      that leads to the same slot as the signed distance d. */
  lemma UnsignedOffsetAgrees(f: int, d: int, B: nat, size: nat, n: nat)
    requires B > 0 && size > 0 && n > 0 && -(n * size) < d <= 0
    ensures (n * size) * B > 0 && (f + (d * B % ((n * size) * B)) / B) % size == (f + d) % size
  {
    MulMono(1, n, size);
    UnsignedQuotient(d, B, n * size);
    if d < 0 { WholeTurns(f + d, n, size); }
  }

  lemma UnsignedQuotient(d: int, B: nat, N: nat)
    requires B > 0 && d <= 0 < N + d
    ensures N * B > 0 && (d * B % (N * B)) / B == if d == 0 then 0 else N + d
  {
    MulMono(1, N, B);
    var q := if d == 0 then 0 else N + d;
    assert q * B <= (N - 1) * B by { MulMono(q, N - 1, B); }
    assert (N - 1) * B == N * B - B;
    if d != 0 { assert d * B == (N + d) * B - N * B; }
    MulMono(0, q, B);
    DivUnique(d * B, if d == 0 then 0 else -1, q * B, N * B);
    DivUnique(q * B, q, 0, B);
  }

  lemma WholeTurns(x: int, n: nat, size: nat)
    requires size > 0
    ensures (n * size + x) % size == x % size
  {
    MulMono(0, n, size);
    DivUnique(n * size, n, 0, size);
    ModShift(n * size, x, size);
  }

  /** Every index below the head is done, or held by a consumer. */
  ghost predicate HandedOut<T>(s: State<T>) {
    forall x: nat :: x < s.counters.head && x !in s.done ==> HeldBy(s.counters.threads, x)
  }

  ghost predicate HeldBy(threads: seq<C.Pc>, x: nat) {
    exists t :: 0 <= t < |threads| && C.Owns(threads[t], x)
  }

  lemma StepKeepsHandedOut<T>(s: State<T>, c: Call<T>)
    requires Inv(s) && C.Inv(s.counters) && HandedOut(s)
    ensures HandedOut(Next(s, c))
  {
    var s' := Next(s, c);
    if c.Consumer? && c.t < |s.readers| {
      CounterMoves(s, c);
      assert ReaderOk(s, c.t);
      forall x: nat | x < s'.counters.head && x !in s'.done ensures HeldBy(s'.counters.threads, x) {
        if x < s.counters.head {
          var t :| 0 <= t < |s.counters.threads| && C.Owns(s.counters.threads[t], x);
          assert C.Owns(s'.counters.threads[t], x);
        } else {
          assert C.Owns(s'.counters.threads[c.t], x);
        }
      }
    } else {
      ProducerLeavesClaims(s, c);
    }
  }

  lemma ProducerLeavesClaims<T>(s: State<T>, c: Call<T>)
    requires Shape(s) && !(c.Consumer? && c.t < |s.readers|)
    ensures Next(s, c).counters.threads == s.counters.threads && Next(s, c).counters.head == s.counters.head
      && Next(s, c).done == s.done
  {
  }

  lemma CounterMoves<T>(s: State<T>, c: Call<T>)
    requires Shape(s) && c.Consumer? && c.t < |s.readers|
    ensures var k, k' := s.counters, Next(s, c).counters;
      |k'.threads| == |k.threads| && forall u :: 0 <= u < |k.threads| && u != c.t ==> k'.threads[u] == k.threads[u]
    ensures var k, k' := s.counters, Next(s, c).counters;
      k.threads[c.t].Got? ==> k'.head == k.head && (!s.readers[c.t].RDone? ==> k' == k) && forall x :: x in s.done ==>
        x in Next(s, c).done
    ensures var k, k' := s.counters, Next(s, c).counters;
      !k.threads[c.t].Got? ==> Next(s, c).done == s.done && forall x :: k.head <= x < k'.head ==>
        C.Owns(k'.threads[c.t], x)
  {
  }

  lemma {:induction false} RunKeepsHandedOut<T>(s: State<T>, cs: seq<Call<T>>)
    requires Inv(s) && C.Inv(s.counters) && HandedOut(s)
    ensures HandedOut(Run(s, cs))
    decreases |cs|
  {
    if cs != [] {
      StepKeepsInv(s, cs[0]);
      StepKeepsHandedOut(s, cs[0]);
      RunKeepsHandedOut(Next(s, cs[0]), cs[1..]);
    }
  }

  /** Once every consumer has returned, what was read is exactly the first
      `head` values enqueued, each at its own index. */
  lemma ReturnedMeansDelivered<T>(s0: State<T>, cs: seq<Call<T>>)
    requires Init(s0) && Inv(s0) && C.Inv(s0.counters)
    requires forall t :: 0 <= t < |Run(s0, cs).readers| ==> !Run(s0, cs).counters.threads[t].Got?
    ensures var s := Run(s0, cs);
      forall x: nat :: x in s.got <==> x < s.counters.head
    ensures var s := Run(s0, cs);
      forall x: nat :: x < s.counters.head ==> x < |s.enqueued| && x in s.got && s.got[x] == s.enqueued[x]
  {
    RunKeepsHandedOut(s0, cs);
    var s := Run(s0, cs);
    forall x: nat | x < s.counters.head ensures x in s.got {
      assert x in s.done || HeldBy(s.counters.threads, x);
    }
  }

  // ------------------------------------------------------ the code, in place

  /** ExplicitProducer's fields, changed in place; the counters are an object of
      their own.  Each method is one step of Next, which keeps Inv. */
  class ExplicitProducer<T> {
    const B: nat
    const counters: C.Counters
    var blocks: seq<Block<T>>
    var headers: seq<Header>
    var producer: Producing<T>
    var slotsUsed: nat
    var front: nat
    var tailBlock: Option<nat>
    var readers: seq<Reading>
    ghost var home: seq<nat>
    ghost var windows: seq<Window>
    ghost var enqueued: seq<T>
    ghost var done: set<nat>
    ghost var got: map<nat, T>

    /** new_block_index(0) in the constructor leaves an empty index. */
    constructor (blockSize: nat, indexSize: nat, consumers: nat)
      requires blockSize > 0 && indexSize > 0
      ensures Init(View()) && B == blockSize && |readers| == consumers && fresh(counters)
    {
      B := blockSize;
      counters := new C.Counters(consumers);
      blocks, home, enqueued, done, got := [], [], [], {}, map[];
      headers := [Header(seq(indexSize, _ => BLANK), -1)];
      windows := [Window(0, 0, 0)];
      producer, slotsUsed, front, tailBlock := PIdle, 0, 0, None;
      readers := seq(consumers, _ => RIdle);
    }

    ghost function View(): State<T>
      reads this, counters
    {
      State(B, counters.View(), blocks, headers, producer, slotsUsed, front, tailBlock, readers, home,
        windows, enqueued, done, got)
    }

    /** `enqueue` looking at the block ahead. */
    method ScanAhead()
      requires Shape(View()) && producer.PScan?
      modifies this
      ensures View() == ProducerNext(old(View()), ProducerStep(false))
    {
      var v, i := producer.v, producer.i;
      var ahead := blocks[tailBlock.value].next;
      if !blocks[ahead].empty[i] {
        producer := PLoadHead(v);
      } else if i + 1 < B {
        producer := PScan(v, i + 1);
      } else {
        tailBlock := Some(ahead);
        home := home + [ahead];
        windows := windows[|headers| - 1 := windows[|headers| - 1].(lo := windows[|headers| - 1].lo + 1)];
        producer := PReset(v, 0);
      }
    }

    /** ... or getting a new one, with a larger index if this one is full. */
    method NewBlock(giveUp: bool)
      requires Shape(View()) && (producer.PLoadHead? || producer.PNewBlock?)
      modifies this
      ensures View() == ProducerNext(old(View()), ProducerStep(giveUp))
    {
      var size := |headers[|headers| - 1].entries|;
      match producer {
        case PLoadHead(v) =>
          producer := if giveUp then PIdle else if slotsUsed < size then PNewBlock(v) else PGrow(v);
        case PNewBlock(v) =>
          if giveUp || slotsUsed == size {
            producer := PIdle;
          } else {
            home := home + [|blocks|];
            blocks, tailBlock := WithBlock(B, blocks, tailBlock), Some(|blocks|);
            slotsUsed := slotsUsed + 1;
            producer := PWriteBase(v);
          }
      }
    }

    /** new_block_index: a block index twice the size. */
    method NewBlockIndex()
      requires Shape(View()) && producer.PGrow?
      modifies this
      ensures View() == ProducerNext(old(View()), ProducerStep(false))
    {
      var cur := |headers| - 1;
      var size := |headers[cur].entries|;
      var copied := Rotated(headers[cur].entries, front - slotsUsed, slotsUsed);
      headers := headers + [Header(copied + seq(2 * size - slotsUsed, _ => BLANK), slotsUsed - 1)];
      windows := windows + [windows[cur].(shift := -(windows[cur].lo as int))];
      front := slotsUsed;
      producer := PNewBlock(producer.v);
    }

    /** ... then clearing the reused block's flags and exposing the block in the index. */
    method ExposeBlock()
      requires Shape(View()) && Unexposed(producer)
      modifies this
      ensures View() == ProducerNext(old(View()), ProducerStep(false))
    {
      var cur := |headers| - 1;
      match producer {
        case PReset(v, i) =>
          var b := tailBlock.value;
          blocks := blocks[b := blocks[b].(empty := blocks[b].empty[i := false])];
          producer := if i + 1 < B then PReset(v, i + 1) else PWriteBase(v);
        case PWriteBase(v) =>
          headers := headers[cur :=
            SetEntry(headers[cur], front, headers[cur].entries[front].(base := counters.tailIndex))];
          producer := PWriteBlock(v);
        case PWriteBlock(v) =>
          headers := headers[cur :=
            SetEntry(headers[cur], front, headers[cur].entries[front].(block := tailBlock.value))];
          producer := PWriteFront(v);
        case PWriteFront(v) =>
          headers := headers[cur := headers[cur].(front := front)];
          front := (front + 1) % |headers[cur].entries|;
          windows := windows[cur := windows[cur].(hi := |home|)];
          producer := PConstruct(v);
      }
    }

    /** ... then constructing the element and publishing the new tail. */
    method PutElement()
      requires Shape(View()) && (producer.PConstruct? || producer.PPublish?)
      modifies this, counters
      ensures View() == ProducerNext(old(View()), ProducerStep(false))
    {
      match producer {
        case PConstruct(v) =>
          blocks := SetCell(blocks, tailBlock.value, counters.tailIndex % B, Some(v));
          producer := PPublish(v);
        case PPublish(v) =>
          counters.tailIndex := counters.tailIndex + 1;
          enqueued := enqueued + [v];
          producer := PIdle;
      }
    }

    /** Consumer t loads the current index, and then its front. */
    method LoadIndex(t: nat)
      requires Inv(View()) && t < |readers| && (readers[t].RLoadIndex? || readers[t].RLoadFront?)
        && counters.threads[t].Got?
      modifies this
      ensures View() == ReaderNext(old(View()), t)
    {
      ghost var s := View();
      assert ReaderOk(s, t);
      if readers[t].RLoadIndex? {
        readers := readers[t := RLoadFront(|headers| - 1)];
      } else {
        var h := readers[t].h;
        readers := readers[t := RReadBase(h, headers[h].front)];
      }
    }

    /** Consumer t finds its slot from the base at the front. */
    method FindSlot(t: nat)
      requires Inv(View()) && t < |readers| && readers[t].RReadBase? && counters.threads[t].Got?
      modifies this
      ensures View() == ReaderNext(old(View()), t)
    {
      ghost var s := View();
      assert ReaderOk(s, t);
      var h, f := readers[t].h, readers[t].f;
      var first := counters.threads[t].first;
      var offset := (first - first % B - headers[h].entries[f].base) / B;
      readers := readers[t := RReadEntry(h, (f + offset) % |headers[h].entries|, first)];
    }

    /** Consumer t reads the block in its slot, and where its run there ends. */
    method ReadSlot(t: nat)
      requires Inv(View()) && t < |readers| && readers[t].RReadEntry? && counters.threads[t].Got?
      modifies this
      ensures View() == ReaderNext(old(View()), t)
    {
      ghost var s := View();
      assert ReaderOk(s, t);
      var h, ii, k := readers[t].h, readers[t].ii, readers[t].k;
      var stop := counters.threads[t].first + counters.threads[t].count;
      var e := k - k % B + B;
      if stop < e { e := stop; }
      readers := readers[t := RTake(h, ii, headers[h].entries[ii].block, k, k, e)];
    }

    /** Consumer t moves its next element out. */
    method MoveOut(t: nat) returns (element: T)
      requires Inv(View()) && t < |readers| && readers[t].RTake?
      modifies this
      ensures View() == Take(old(View()), t)
      ensures old(readers[t].i) < |enqueued| && element == enqueued[old(readers[t].i)]
    {
      ghost var s := View();
      TakeFindsElement(s, t);
      var r := readers[t];
      element := blocks[r.b].cells[r.i % B].value;
      got := got[r.i := element];
      blocks := SetCell(blocks, r.b, r.i % B, None);
      readers := readers[t := Taken(r)];
    }

    /** Consumer t sets its next empty flag, which is clear. */
    method SetEmpty(t: nat)
      requires Inv(View()) && t < |readers| && readers[t].RFlag? && counters.threads[t].Got?
      modifies this
      ensures View() == MarkEmpty(old(View()), t)
      ensures NextFlagClear(B, old(blocks), old(readers[t]))
    {
      FlagOfIndex(View(), t);
      FlagWasClear(View(), t);
      StoreFlag(t);
    }

    method StoreFlag(t: nat)
      requires Shape(View()) && t < |readers| && readers[t].RFlag? && counters.threads[t].Got?
      requires NextFlagClear(B, blocks, readers[t]) && readers[t].j < readers[t].e && readers[t].h < |headers|
      modifies this
      ensures View() == MarkEmpty(old(View()), t)
    {
      var r := readers[t];
      var first, count := counters.threads[t].first, counters.threads[t].count;
      done := done + {r.e - 1 - r.j};
      blocks := SetFlag(blocks, r.b, B - 1 - r.k % B - (r.e - r.k) + 1 + r.j);
      readers := readers[t := Flagged(r, first + count, |headers[r.h].entries|)];
    }
  }
}
