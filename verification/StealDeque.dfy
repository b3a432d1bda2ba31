/**
 The work-stealing deque: one owner pushes and pops at the bottom, any number of
 thieves steal from the top, the buffer grows and shrinks, and buffers that were
 replaced are freed once no thief can still be using them.

 A step is one access to a variable that another thread writes or reads: `top`,
 `bottom`, `buffer`, a cell, the list of thief records, or a field of a record.
 */
module StealDeque {
  import opened Prelude
  import opened Modular

  // ---------------------------------------------------------------- buffers

  /** Buffers live in a heap and are named by their place in it. */
  datatype Buffer<T> = Buffer(
    id: nat,
    log_size: nat,
    segment: seq<Option<T>>,     // None: never written
    next: Option<nat>,
    freed: bool)

  const LOG_INITIAL_SIZE: nat := 4

  function Blank<T>(log_size: nat): (r: seq<Option<T>>)
    ensures |r| == Pow2(log_size)
  {
    seq(Pow2(log_size), _ => None)
  }

  function Get<T>(a: Buffer<T>, i: nat): Option<T>
    requires a.segment != []
  {
    a.segment[i % |a.segment|]
  }

  function Put<T>(a: Buffer<T>, i: nat, x: T): Buffer<T>
    requires a.segment != []
  {
    a.(segment := a.segment[i % |a.segment| := Some(x)])
  }

  /** Cells t, ..., b - 1 of `from` written one after the other into `to`. */
  function Copy<T>(from: seq<Option<T>>, to: seq<Option<T>>, t: nat, b: nat): (r: seq<Option<T>>)
    requires from != [] && to != []
    ensures |r| == |to|
    decreases b
  {
    if b <= t then to
    else Copy(from, to, t, b - 1)[(b - 1) % |to| := from[(b - 1) % |from|]]
  }

  lemma {:induction false} CopyAt<T>(from: seq<Option<T>>, to: seq<Option<T>>, t: nat, b: nat, i: nat)
    requires from != [] && to != [] && t <= i < b <= t + |to|
    ensures Copy(from, to, t, b)[i % |to|] == from[i % |from|]
    decreases b
  {
    if i < b - 1 {
      CopyAt(from, to, t, b - 1, i);
      DistinctSlots(i, b - 1, |to|);
    }
  }

  /** Buffer::resize: what the new buffer is. */
  function Resized<T>(a: Buffer<T>, log_size: nat, b: nat, t: nat): Buffer<T>
    requires a.segment != []
  {
    Buffer(a.id + 1, log_size, Copy(a.segment, Blank(log_size), t, b), None, false)
  }

  /** A resized buffer with room for them still holds elements t, ..., b - 1. */
  lemma ResizedKeeps<T>(a: Buffer<T>, log_size: nat, b: nat, t: nat, i: nat)
    requires a.segment != [] && t <= i < b <= t + Pow2(log_size)
    ensures Resized(a, log_size, b, t).segment != []
    ensures Get(Resized(a, log_size, b, t), i) == Get(a, i)
  {
    CopyAt(a.segment, Blank(log_size), t, b, i);
  }

  /** A write does not disturb elements less than a buffer length away. */
  lemma PutKeeps<T>(a: Buffer<T>, b: nat, x: T, i: nat)
    requires a.segment != [] && b - |a.segment| < i < b
    ensures Get(Put(a, b, x), i) == Get(a, i)
  {
    DistinctSlots(i, b, |a.segment|);
  }

  // ------------------------------------------------------------------ state

  /** Where reclaim_buffers is.  `pos` is bookkeeping: the records not yet
      scanned are the first pos registered ones. */
  datatype Scan =
    | GetList                                // id_list.load
    | WasIdle(u: nat, pos: int, min: nat)    // was_idle.load
    | LastUsed(u: nat, pos: int, min: nat)   // id_last_used.load
    | Free(min: nat)                         // while (unlinked->id() < min_id)

  datatype OwnerPc<T> =
    | Ready                                  // between calls
    | PushInstall(x: T, t: nat)              // grow, then buffer.store
    | Reclaim(k: Option<T>, scan: Scan)      // k: the push to go on with, if any
    | PushPut(x: T)                          // write the cell
    | PushStore(x: T)                        // bottom.store(b + 1)
    | PopTop(b: nat)                         // top.load
    | PopCas(b: nat, t: nat)                 // compare and swap top
    | PopRestore(b: nat)                     // bottom.store(b)
    | PopShrink(b: nat, t: nat)              // shrink, then buffer.store

  datatype ThiefPc =
    | Unregistered                           // next = id_list
    | RegisterCas(seen: Option<nat>)         // compare and swap id_list
    | Rest                                   // between calls: was_idle.store(false)
    | LoadTop
    | LoadBottom(t: nat)
    | LoadBuffer(t: nat)
    | TopCas(t: nat, a: nat)                 // compare and swap top
    | ReadItem(t: nat, a: nat)               // read the cell
    | SetIdle                                // was_idle.store(true)
    | LoadLast                               // buffer.load
    | StoreLast(id: nat)                     // id_last_used.store

  /** Bookkeeping.  Every push gets a serial number when it becomes visible.
      A claim is a successful pop or a winning steal CAS; it records the value
      that the claimer's buffer holds at that instant. */
  datatype Claim<T> = Claim(serial: nat, value: Option<T>)
  datatype Place = Live(i: nat) | Taken(k: nat)

  datatype State<T> = State(
    top: nat, bottom: int, buffer: nat, unlinked: Option<nat>, heap: seq<Buffer<T>>,
    id_list: Option<nat>,
    next: seq<Option<nat>>, last_used: seq<nat>, idle: seq<bool>,   // the thieves' records
    owner: OwnerPc<T>, thieves: seq<ThiefPc>,
    // bookkeeping
    pushed: seq<T>,             // by serial number
    content: seq<nat>,          // serial number at each index; the deque is content[top..]
    place: seq<Place>,          // of each serial number
    claims: seq<Claim<T>>,
    registered: seq<nat>,       // thieves, oldest record first
    rank: seq<nat>)             // position in registered

  predicate Registered(p: ThiefPc) { !p.Unregistered? && !p.RegisterCas? }

  predicate Holds(p: ThiefPc) { p.TopCas? || p.ReadItem? }

  function Cur<T>(s: State<T>): Buffer<T>
    requires s.buffer < |s.heap|
  {
    s.heap[s.buffer]
  }

  // ------------------------------------------------------------------ steps

  /** What the steps index into is there. */
  ghost predicate Shape<T>(s: State<T>) {
    && s.buffer < |s.heap| && (forall i :: 0 <= i < |s.heap| ==> s.heap[i].segment != [])
    && (s.unlinked.Some? ==> s.unlinked.value < |s.heap|)
    && |s.next| == |s.last_used| == |s.idle| == |s.rank| == |s.thieves|
    && |s.place| == |s.pushed| && s.top <= |s.content|
    && (forall i :: s.top <= i < |s.content| ==> s.content[i] < |s.pushed|)
    && (s.owner.PopTop? ==> s.owner.b == |s.content|)
    && (s.owner.PopCas? && s.top == s.owner.t ==> s.top < |s.content|)
    && (s.owner.Ready? || s.owner.PushInstall? || s.owner.PushPut? ==> s.bottom >= 0)
    && (s.owner.Reclaim? && (s.owner.scan.WasIdle? || s.owner.scan.LastUsed?) ==> s.owner.scan.u < |s.thieves|)
    && (s.owner.Reclaim? ==> s.unlinked.Some?)
    && (forall u :: 0 <= u < |s.thieves| && Holds(s.thieves[u]) ==> s.thieves[u].a < |s.heap|)
    && (forall u :: 0 <= u < |s.thieves| && s.thieves[u].TopCas? && s.thieves[u].t == s.top ==> s.top < |s.content|)
  }

  /** Replace the current buffer, remembering the first one not yet freed. */
  function Install<T>(s: State<T>, log_size: nat, b: nat, t: nat): State<T>
    requires s.buffer < |s.heap| && Cur(s).segment != []
  {
    s.(unlinked := if s.unlinked.Some? then s.unlinked else Some(s.buffer),
       heap := s.heap[s.buffer := Cur(s).(next := Some(|s.heap|))] + [Resized(Cur(s), log_size, b, t)],
       buffer := |s.heap|)
  }

  function Take<T>(s: State<T>, i: nat, value: Option<T>): State<T>
    requires i < |s.content| && s.content[i] < |s.place|
  {
    s.(place := s.place[s.content[i] := Taken(|s.claims|)],
       claims := s.claims + [Claim(s.content[i], value)])
  }

  /** `if (unlinked) reclaim_buffers(a)`, then the rest of the call. */
  function MaybeReclaim<T>(s: State<T>, k: Option<T>): OwnerPc<T> {
    if s.unlinked.Some? then Reclaim(k, GetList) else AfterReclaim(k)
  }

  function AfterReclaim<T>(k: Option<T>): OwnerPc<T> {
    if k.Some? then PushPut(k.value) else Ready
  }

  datatype Call<T> = Push(x: T) | Pop

  /** The owner, between calls. */
  ghost function Start<T>(s: State<T>, c: Call<T>): State<T>
    requires Shape(s) && s.owner.Ready?
  {
    match c
    case Push(x) =>
      if s.bottom - s.top >= |Cur(s).segment| - 1 then s.(owner := PushInstall(x, s.top))
      else s.(owner := MaybeReclaim(s, Some(x)))
    case Pop =>
      s.(bottom := s.bottom - 1, owner := PopTop(s.bottom))
  }

  ghost function PushNext<T>(s: State<T>): State<T>
    requires Shape(s)
  {
    match s.owner
    case PushInstall(x, t) =>
      var s' := Install(s, Cur(s).log_size + 1, s.bottom, t);
      s'.(owner := MaybeReclaim(s', Some(x)))
    case PushPut(x) =>
      s.(heap := s.heap[s.buffer := Put(Cur(s), s.bottom, x)], owner := PushStore(x))
    case PushStore(x) =>
      s.(bottom := s.bottom + 1, owner := Ready,
         pushed := s.pushed + [x], content := s.content + [|s.pushed|], place := s.place + [Live(|s.content|)])
    case _ => s
  }

  ghost function PopNext<T>(s: State<T>): State<T>
    requires Shape(s)
  {
    match s.owner
    case PopTop(b) =>
      var size := b - s.top;
      if size <= 0 then s.(owner := PopRestore(b))
      else if size == 1 then s.(owner := PopCas(b, s.top))
      else
        var s' := Take(s, b - 1, Get(Cur(s), b - 1)).(content := s.content[..b - 1]);
        if size <= |Cur(s).segment| / 3 && size > Pow2(LOG_INITIAL_SIZE)
        then s'.(owner := PopShrink(b, s.top))
        else s'.(owner := MaybeReclaim(s, None))
    case PopCas(b, t) =>
      if s.top == t then Take(s, t, Get(Cur(s), t)).(top := t + 1, owner := PopRestore(b))
      else s.(owner := PopRestore(b))
    case PopRestore(b) => s.(bottom := b, owner := Ready)
    case PopShrink(b, t) =>
      var s' := Install(s, Halved(Cur(s).log_size), b, t);
      s'.(owner := MaybeReclaim(s', None))
    case _ => s
  }

  /** log_size - 1; PopShrink is never reached with log_size 0 (ShrinkRoom). */
  function Halved(log_size: nat): nat {
    if log_size == 0 then 0 else log_size - 1
  }

  /** reclaim_buffers. */
  ghost function ReclaimNext<T>(s: State<T>): State<T>
    requires Shape(s) && s.owner.Reclaim?
  {
    var k := s.owner.k;
    match s.owner.scan
    case GetList => s.(owner := Reclaim(k, Visit(s.id_list, |s.registered|, Cur(s).id)))
    case WasIdle(u, pos, min) =>
      s.(owner := Reclaim(k, if s.idle[u] then Visit(s.next[u], pos - 1, min) else LastUsed(u, pos, min)))
    case LastUsed(u, pos, min) =>
      s.(owner := Reclaim(k, Visit(s.next[u], pos - 1, if s.last_used[u] < min then s.last_used[u] else min)))
    case Free(min) =>
      var u := s.unlinked.value;
      if s.heap[u].id < min then
        s.(heap := s.heap[u := s.heap[u].(freed := true)], unlinked := s.heap[u].next)
      else s.(owner := AfterReclaim(k))
  }

  /** The list walk's loop test. */
  function Visit(head: Option<nat>, pos: int, min: nat): Scan {
    if head.Some? then WasIdle(head.value, pos, min) else Free(min)
  }

  ghost function OwnerNext<T>(s: State<T>, c: Call<T>): State<T>
    requires Shape(s)
  {
    match s.owner
    case Ready => Start(s, c)
    case Reclaim(_, _) => ReclaimNext(s)
    case PushInstall(_, _) => PushNext(s)
    case PushPut(_) => PushNext(s)
    case PushStore(_) => PushNext(s)
    case PopTop(_) => PopNext(s)
    case PopCas(_, _) => PopNext(s)
    case PopRestore(_) => PopNext(s)
    case PopShrink(_, _) => PopNext(s)
  }

  function Go<T>(s: State<T>, u: nat, p: ThiefPc): State<T>
    requires u < |s.thieves|
  {
    s.(thieves := s.thieves[u := p])
  }

  /** One access by thief u; a weak compare and swap may fail for no reason. */
  ghost function ThiefNext<T>(s: State<T>, u: nat, spurious: bool): State<T>
    requires Shape(s) && u < |s.thieves|
  {
    match s.thieves[u]
    case Unregistered => Go(s, u, RegisterCas(s.id_list)).(next := s.next[u := s.id_list])
    case RegisterCas(seen) =>
      if s.id_list == seen && !spurious then
        Go(s, u, Rest).(id_list := Some(u), registered := s.registered + [u], rank := s.rank[u := |s.registered|])
      else Go(s, u, Unregistered)
    case Rest => Go(s, u, LoadTop).(idle := s.idle[u := false])
    case LoadTop => Go(s, u, LoadBottom(s.top))
    case LoadBottom(t) => Go(s, u, if s.bottom - t > 0 then LoadBuffer(t) else SetIdle)
    case LoadBuffer(t) => Go(s, u, TopCas(t, s.buffer))
    case TopCas(t, a) =>
      if s.top == t then Go(Take(s, t, Get(s.heap[a], t)).(top := t + 1), u, ReadItem(t, a))
      else Go(s, u, SetIdle)
    case ReadItem(t, a) => Go(s, u, SetIdle)
    case SetIdle => Go(s, u, LoadLast).(idle := s.idle[u := true])
    case LoadLast => Go(s, u, StoreLast(Cur(s).id))
    case StoreLast(id) => Go(s, u, Rest).(last_used := s.last_used[u := id])
  }

  datatype Event<T> = Owner(c: Call<T>) | Thief(u: nat, spurious: bool)

  ghost function Next<T>(s: State<T>, e: Event<T>): State<T>
    requires Shape(s) && (e.Thief? ==> e.u < |s.thieves|)
  {
    match e
    case Owner(c) => OwnerNext(s, c)
    case Thief(u, spurious) => ThiefNext(s, u, spurious)
  }

  // -------------------------------------------------------------- invariant

  /** The chain of buffers: ids run without a gap up to the current buffer, and
      exactly those before `unlinked` have been freed. */
  ghost predicate HeapOk<T>(s: State<T>) {
    && s.buffer == |s.heap| - 1
    && (s.unlinked.Some? ==> s.unlinked.value <= s.buffer)
    && (s.unlinked.None? ==> s.buffer == 0)
    && forall i :: 0 <= i < |s.heap| ==> BufferOk(s, i)
  }

  ghost predicate BufferOk<T>(s: State<T>, i: nat)
    requires i < |s.heap|
  {
    && s.heap[i].id == i
    && |s.heap[i].segment| == Pow2(s.heap[i].log_size)
    && s.heap[i].next == (if i + 1 < |s.heap| then Some(i + 1) else None)
    && (s.heap[i].freed <==> s.unlinked.Some? && i < s.unlinked.value)
  }

  /** Every live element is in the current buffer, with a cell to spare. */
  ghost predicate LiveOk<T>(s: State<T>)
    requires Shape(s)
  {
    && |s.content| - s.top <= |Cur(s).segment| - 1
    && forall i :: s.top <= i < |s.content| ==> Get(Cur(s), i) == Some(s.pushed[s.content[i]])
  }

  /** Each push is either live at one index or claimed once, with its value. */
  ghost predicate SerialsOk<T>(s: State<T>)
    requires |s.place| == |s.pushed|
  {
    && (forall i :: s.top <= i < |s.content| ==> s.content[i] < |s.pushed| && s.place[s.content[i]] == Live(i))
    && (forall n :: 0 <= n < |s.pushed| ==>
         match s.place[n]
         case Live(i) => s.top <= i < |s.content| && s.content[i] == n
         case Taken(k) => k < |s.claims| && s.claims[k].serial == n)
    && (forall k :: 0 <= k < |s.claims| ==>
         && s.claims[k].serial < |s.pushed| && s.place[s.claims[k].serial] == Taken(k)
         && s.claims[k].value == Some(s.pushed[s.claims[k].serial]))
  }

  ghost predicate OwnerOk<T>(s: State<T>)
    requires Shape(s)
  {
    var live, size := |s.content| - s.top, |Cur(s).segment|;
    && s.bottom == (if s.owner.PopTop? || s.owner.PopCas? || s.owner.PopRestore? then |s.content| - 1 else |s.content|)
    && (match s.owner
        case Ready => true
        case PushInstall(_, t) => t <= s.top && s.bottom - t <= size - 1
        case Reclaim(k, _) => k.Some? ==> live < size - 1
        case PushPut(_) => live < size - 1
        case PushStore(x) => live < size - 1 && Get(Cur(s), s.bottom) == Some(x)
        case PopTop(b) => b == |s.content|
        case PopCas(b, t) => b == |s.content| && t == b - 1
        case PopRestore(b) => b == |s.content|
        case PopShrink(b, t) => b == |s.content| + 1 && t <= s.top && b - t <= size / 3 && b - t > 16)
  }

  /** The list of records, from id_list, is `registered` backwards. */
  ghost predicate ListOk<T>(s: State<T>)
    requires Shape(s)
  {
    && s.id_list == At(s.registered, |s.registered|)
    && (forall k :: 0 <= k < |s.registered| ==> RecordOk(s, k))
    && (forall u :: 0 <= u < |s.thieves| && Registered(s.thieves[u]) ==>
         s.rank[u] < |s.registered| && s.registered[s.rank[u]] == u)
    && (forall u :: 0 <= u < |s.thieves| && s.thieves[u].RegisterCas? ==> s.next[u] == s.thieves[u].seen)
  }

  ghost predicate RecordOk<T>(s: State<T>, k: nat)
    requires Shape(s) && k < |s.registered|
  {
    var u := s.registered[k];
    u < |s.thieves| && s.rank[u] == k && s.next[u] == At(s.registered, k) && Registered(s.thieves[u])
  }

  function At(registered: seq<nat>, pos: nat): Option<nat>
    requires pos <= |registered|
  {
    if pos == 0 then None else Some(registered[pos - 1])
  }

  /** What thief u may rely on.  A thief past its bottom check whose `top` is
      still current has a live element at that index, and the buffer it loaded
      still holds the element's value. */
  ghost predicate ThiefOk<T>(s: State<T>, u: nat)
    requires Shape(s) && u < |s.thieves|
  {
    var p := s.thieves[u];
    && (p.LoadBottom? || p.LoadBuffer? || p.TopCas? ==> p.t <= s.top)
    && (p.LoadBuffer? && p.t == s.top ==> s.top < |s.content|)
    && (p.TopCas? && p.t == s.top ==> Get(s.heap[p.a], s.top) == Some(s.pushed[s.content[s.top]]))
    && (Holds(p) ==> s.last_used[u] <= p.a && (s.unlinked.Some? ==> s.unlinked.value <= p.a))
    && (Holds(p) ==> !s.idle[u])
    && (p.LoadTop? || p.LoadBottom? || p.LoadBuffer? ==> !s.idle[u])
    && s.last_used[u] <= s.buffer
    && (p.StoreLast? ==> s.last_used[u] <= p.id <= s.buffer)
  }

  /** While the owner scans: any buffer in a thief's hands is either that of a
      thief not scanned yet, or not older than the minimum found so far. */
  ghost predicate ScanOk<T>(s: State<T>)
    requires Shape(s)
  {
    s.owner.Reclaim? ==>
      match s.owner.scan
      case GetList => true
      case WasIdle(u, pos, min) => min <= s.buffer && 0 < pos <= |s.registered| && s.registered[pos - 1] == u
        && Guarded(s, pos, min)
      case LastUsed(u, pos, min) => min <= s.buffer && 0 < pos <= |s.registered| && s.registered[pos - 1] == u
        && Guarded(s, pos, min)
      case Free(min) => min <= s.buffer && Guarded(s, 0, min)
  }

  ghost predicate Guarded<T>(s: State<T>, pos: int, min: nat)
    requires Shape(s)
  {
    forall u :: 0 <= u < |s.thieves| && Holds(s.thieves[u]) ==> s.rank[u] < pos || min <= s.thieves[u].a
  }

  ghost predicate Inv<T>(s: State<T>) {
    && Shape(s) && HeapOk(s) && LiveOk(s) && SerialsOk(s) && OwnerOk(s) && ListOk(s) && ScanOk(s)
    && (forall u :: 0 <= u < |s.thieves| ==> ThiefOk(s, u))
  }

  ghost predicate Init<T>(s: State<T>) {
    && s.top == 0 && s.bottom == 0 && s.buffer == 0 && s.unlinked == None
    && s.heap == [Buffer(0, LOG_INITIAL_SIZE, Blank(LOG_INITIAL_SIZE), None, false)]
    && s.id_list == None && s.owner == Ready
    && |s.next| == |s.last_used| == |s.idle| == |s.rank| == |s.thieves|
    && (forall u :: 0 <= u < |s.thieves| ==> s.thieves[u] == Unregistered && s.last_used[u] == 0 && s.idle[u])
    && s.pushed == [] && s.content == [] && s.place == [] && s.claims == [] && s.registered == []
  }

  lemma InitInv<T>(s: State<T>)
    requires Init(s)
    ensures Inv(s)
  {
    assert BufferOk(s, 0);
  }

  // ---------------------------------------------- preservation: the thieves

  /** A step by thief u that changes only its own place and record. */
  ghost predicate OnlyThief<T>(s: State<T>, s': State<T>, u: nat)
    requires Shape(s) && u < |s.thieves|
  {
    && |s'.thieves| == |s'.next| == |s'.idle| == |s'.last_used| == |s.thieves|
    && s' == s.(thieves := s.thieves[u := s'.thieves[u]], next := s.next[u := s'.next[u]],
                idle := s.idle[u := s'.idle[u]], last_used := s.last_used[u := s'.last_used[u]])
  }

  lemma ThiefFrame<T>(s: State<T>, s': State<T>, u: nat)
    requires Inv(s) && u < |s.thieves| && OnlyThief(s, s', u)
    requires Registered(s.thieves[u]) == Registered(s'.thieves[u])
    requires Registered(s.thieves[u]) ==> s'.next[u] == s.next[u]
    requires s'.thieves[u].RegisterCas? ==> s'.next[u] == s'.thieves[u].seen
    requires Holds(s'.thieves[u]) ==> s'.thieves[u].a == s.buffer || SameHold(s.thieves[u], s'.thieves[u])
    requires s'.thieves[u].TopCas? && s'.thieves[u].t == s.top ==> s.top < |s.content|
    requires Shape(s') ==> ThiefOk(s', u)
    ensures Inv(s')
  {
    assert Shape(s');
    forall v | 0 <= v < |s'.thieves| ensures ThiefOk(s', v) { assert ThiefOk(s, v); }
    HeapSame(s, s');
    ThiefList(s, s', u);
    ThiefScan(s, s', u);
  }

  predicate SameHold(p: ThiefPc, p': ThiefPc) { Holds(p) && Holds(p') && p.a == p'.a }

  lemma HeapSame<T>(s: State<T>, s': State<T>)
    requires HeapOk(s) && s'.heap == s.heap && s'.buffer == s.buffer && s'.unlinked == s.unlinked
    ensures HeapOk(s')
  {
    forall i | 0 <= i < |s'.heap| ensures BufferOk(s', i) { assert BufferOk(s, i); }
  }

  lemma ThiefList<T>(s: State<T>, s': State<T>, u: nat)
    requires Shape(s) && Shape(s') && ListOk(s) && u < |s.thieves| == |s'.thieves|
    requires s'.id_list == s.id_list && s'.registered == s.registered && s'.rank == s.rank
    requires s'.thieves == s.thieves[u := s'.thieves[u]] && s'.next == s.next[u := s'.next[u]]
    requires Registered(s.thieves[u]) == Registered(s'.thieves[u])
    requires Registered(s.thieves[u]) ==> s'.next[u] == s.next[u]
    requires s'.thieves[u].RegisterCas? ==> s'.next[u] == s'.thieves[u].seen
    ensures ListOk(s')
  {
    forall k | 0 <= k < |s'.registered| ensures RecordOk(s', k) { assert RecordOk(s, k); }
  }

  lemma ThiefScan<T>(s: State<T>, s': State<T>, u: nat)
    requires Shape(s) && Shape(s') && ScanOk(s) && u < |s.thieves| == |s'.thieves|
    requires s'.owner == s.owner && s'.registered == s.registered && s'.rank == s.rank && s'.buffer == s.buffer
    requires s'.thieves == s.thieves[u := s'.thieves[u]]
    requires Holds(s'.thieves[u]) ==> s'.thieves[u].a == s.buffer || SameHold(s.thieves[u], s'.thieves[u])
    ensures ScanOk(s')
  {
  }

  /** Thief u is neither winning `top` nor getting on the list. */
  ghost predicate Quiet<T>(s: State<T>, u: nat, spurious: bool)
    requires u < |s.thieves|
  {
    var p := s.thieves[u];
    !(p.RegisterCas? && s.id_list == p.seen && !spurious) && !(p.TopCas? && p.t == s.top)
  }

  lemma LinkRecord<T>(s: State<T>, u: nat, spurious: bool)
    requires Inv(s) && u < |s.thieves| && s.thieves[u].Unregistered?
    ensures Inv(ThiefNext(s, u, spurious))
  {
    assert ThiefOk(s, u);
    ThiefFrame(s, Go(s, u, RegisterCas(s.id_list)).(next := s.next[u := s.id_list]), u);
  }

  lemma RegisterFails<T>(s: State<T>, u: nat, spurious: bool)
    requires Inv(s) && u < |s.thieves| && Quiet(s, u, spurious) && s.thieves[u].RegisterCas?
    ensures Inv(ThiefNext(s, u, spurious))
  {
    assert ThiefOk(s, u);
    ThiefFrame(s, Go(s, u, Unregistered), u);
  }

  lemma LeaveRest<T>(s: State<T>, u: nat, spurious: bool)
    requires Inv(s) && u < |s.thieves| && s.thieves[u].Rest?
    ensures Inv(ThiefNext(s, u, spurious))
  {
    assert ThiefOk(s, u);
    ThiefFrame(s, Go(s, u, LoadTop).(idle := s.idle[u := false]), u);
  }

  lemma LookAtTop<T>(s: State<T>, u: nat, spurious: bool)
    requires Inv(s) && u < |s.thieves| && s.thieves[u].LoadTop?
    ensures Inv(ThiefNext(s, u, spurious))
  {
    assert ThiefOk(s, u);
    ThiefFrame(s, Go(s, u, LoadBottom(s.top)), u);
  }

  lemma LookAtBottom<T>(s: State<T>, u: nat, spurious: bool)
    requires Inv(s) && u < |s.thieves| && s.thieves[u].LoadBottom?
    ensures Inv(ThiefNext(s, u, spurious))
  {
    assert ThiefOk(s, u);
    var t := s.thieves[u].t;
    ThiefFrame(s, Go(s, u, if s.bottom - t > 0 then LoadBuffer(t) else SetIdle), u);
  }

  lemma QuietAfter<T>(s: State<T>, u: nat, spurious: bool)
    requires Inv(s) && u < |s.thieves| && Quiet(s, u, spurious)
    requires s.thieves[u].TopCas? || s.thieves[u].ReadItem?
    ensures Inv(ThiefNext(s, u, spurious))
  {
    assert ThiefOk(s, u);
    ThiefFrame(s, Go(s, u, SetIdle), u);
  }

  lemma SetIdleStep<T>(s: State<T>, u: nat, spurious: bool)
    requires Inv(s) && u < |s.thieves| && s.thieves[u].SetIdle?
    ensures Inv(ThiefNext(s, u, spurious))
  {
    assert ThiefOk(s, u);
    ThiefFrame(s, ThiefNext(s, u, spurious), u);
  }

  lemma NoteBuffer<T>(s: State<T>, u: nat, spurious: bool)
    requires Inv(s) && u < |s.thieves| && s.thieves[u].LoadLast?
    ensures Inv(ThiefNext(s, u, spurious))
  {
    assert ThiefOk(s, u);
    assert BufferOk(s, s.buffer);
    ThiefFrame(s, Go(s, u, StoreLast(s.buffer)), u);
  }

  lemma RecordBuffer<T>(s: State<T>, u: nat, spurious: bool)
    requires Inv(s) && u < |s.thieves| && s.thieves[u].StoreLast?
    ensures Inv(ThiefNext(s, u, spurious))
  {
    assert ThiefOk(s, u);
    ThiefFrame(s, Go(s, u, Rest).(last_used := s.last_used[u := s.thieves[u].id]), u);
  }

  lemma LoadBufferStep<T>(s: State<T>, s': State<T>, u: nat)
    requires Inv(s) && u < |s.thieves| && s.thieves[u].LoadBuffer? && s' == Go(s, u, TopCas(s.thieves[u].t, s.buffer))
    ensures Inv(s')
  {
    assert ThiefOk(s, u);
    ThiefFrame(s, s', u);
  }

  lemma RegisterList<T>(s: State<T>, s': State<T>, u: nat)
    requires Shape(s) && Shape(s') && ListOk(s) && u < |s.thieves|
    requires s.thieves[u].RegisterCas? && s.id_list == s.thieves[u].seen
    requires s' == Go(s, u, Rest).(id_list := Some(u), registered := s.registered + [u],
      rank := s.rank[u := |s.registered|])
    ensures ListOk(s')
  {
    var n := |s.registered|;
    assert s.next[u] == At(s.registered, n) == At(s'.registered, n);
    forall k | 0 <= k <= n ensures RecordOk(s', k) {
      if k < n {
        assert RecordOk(s, k) && s'.registered[k] == s.registered[k] != u
          && At(s'.registered, k) == At(s.registered, k);
      }
    }
    RegisterRank(s, s', u);
  }

  lemma RegisterRank<T>(s: State<T>, s': State<T>, u: nat)
    requires Shape(s) && ListOk(s) && u < |s.thieves|
    requires s'.thieves == s.thieves[u := Rest] && s'.rank == s.rank[u := |s.registered|]
      && s'.registered == s.registered + [u]
    ensures forall v :: 0 <= v < |s.thieves| && Registered(s'.thieves[v]) ==>
      s'.rank[v] < |s'.registered| && s'.registered[s'.rank[v]] == v
  {
    forall v | 0 <= v < |s.thieves| && Registered(s'.thieves[v])
      ensures s'.rank[v] < |s'.registered| && s'.registered[s'.rank[v]] == v {
      if v != u { assert s'.rank[v] == s.rank[v]; }
    }
  }

  lemma RegisterScan<T>(s: State<T>, s': State<T>, u: nat)
    requires Shape(s) && Shape(s') && ScanOk(s) && u < |s.thieves|
    requires s.thieves[u].RegisterCas? && s.id_list == s.thieves[u].seen && s' == ThiefNext(s, u, false)
    ensures ScanOk(s')
  {
    assert forall v :: 0 <= v < |s.thieves| && Holds(s'.thieves[v]) ==> v != u && s'.rank[v] == s.rank[v];
  }

  lemma RegisterStep<T>(s: State<T>, u: nat)
    requires Inv(s) && u < |s.thieves| && s.thieves[u].RegisterCas? && s.id_list == s.thieves[u].seen
    ensures Inv(ThiefNext(s, u, false))
  {
    var s' := ThiefNext(s, u, false);
    assert Shape(s');
    forall v | 0 <= v < |s'.thieves| ensures ThiefOk(s', v) { assert ThiefOk(s, v); }
    HeapSame(s, s');
    RegisterList(s, s', u);
    RegisterScan(s, s', u);
  }

  /** `top` moves over a live element, by a thief's or the owner's winning CAS:
      the element is claimed, and nobody else is relying on the old `top`. */
  ghost predicate TopTaken<T>(s: State<T>, s': State<T>)
    requires Shape(s)
  {
    && s.top < |s.content|
    && s' == Take(s, s.top, Some(s.pushed[s.content[s.top]])).(top := s.top + 1, owner := s'.owner,
      thieves := s'.thieves)
  }

  lemma TopTakenKeeps<T>(s: State<T>, s': State<T>)
    requires Shape(s) && HeapOk(s) && LiveOk(s) && SerialsOk(s) && TopTaken(s, s') && Shape(s')
    ensures HeapOk(s') && LiveOk(s') && SerialsOk(s')
  {
    HeapSame(s, s');
    TakeSerials(s, s', s.top);
  }

  lemma TopTakenThief<T>(s: State<T>, s': State<T>, v: nat)
    requires Shape(s) && TopTaken(s, s') && Shape(s') && v < |s.thieves| == |s'.thieves| && ThiefOk(s, v)
    requires s'.thieves[v] == s.thieves[v]
      || (s.thieves[v].TopCas? && s'.thieves[v] == ReadItem(s.thieves[v].t, s.thieves[v].a))
    ensures ThiefOk(s', v)
  {
  }

  lemma StealFacts<T>(s: State<T>, u: nat, spurious: bool)
    requires Inv(s) && u < |s.thieves| && s.thieves[u].TopCas? && s.thieves[u].t == s.top
    ensures TopTaken(s, ThiefNext(s, u, spurious))
    ensures ThiefNext(s, u, spurious).thieves == s.thieves[u := ReadItem(s.thieves[u].t, s.thieves[u].a)]
    ensures ThiefNext(s, u, spurious).owner == s.owner
  {
    assert ThiefOk(s, u);
  }

  lemma StealShape<T>(s: State<T>, s': State<T>, u: nat)
    requires Shape(s) && OwnerOk(s) && u < |s.thieves| && s.thieves[u].TopCas? && TopTaken(s, s')
    requires s'.thieves == s.thieves[u := ReadItem(s.thieves[u].t, s.thieves[u].a)] && s'.owner == s.owner
    requires forall v :: 0 <= v < |s.thieves| ==> ThiefOk(s, v)
    ensures Shape(s') && OwnerOk(s')
  {
    forall v | 0 <= v < |s'.thieves| && s'.thieves[v].TopCas? ensures s'.thieves[v].t < s'.top { assert ThiefOk(s, v); }
  }

  lemma StealStep<T>(s: State<T>, u: nat, spurious: bool)
    requires Inv(s) && u < |s.thieves| && s.thieves[u].TopCas? && s.thieves[u].t == s.top
    ensures Inv(ThiefNext(s, u, spurious))
  {
    var s' := ThiefNext(s, u, spurious);
    StealFacts(s, u, spurious);
    StealShape(s, s', u);
    TopTakenKeeps(s, s');
    forall v | 0 <= v < |s'.thieves| ensures ThiefOk(s', v) { TopTakenThief(s, s', v); }
    ThiefList(s, s', u);
    ThiefScan(s, s', u);
  }

  /** Claiming the first or last live element. */
  lemma TakeSerials<T>(s: State<T>, s': State<T>, i: nat)
    requires |s.place| == |s.pushed| && SerialsOk(s) && s.top <= i < |s.content| && s'.top <= |s'.content|
    requires s'.pushed == s.pushed && s'.place == s.place[s.content[i] := Taken(|s.claims|)]
    requires s'.claims == s.claims + [Claim(s.content[i], Some(s.pushed[s.content[i]]))]
    requires || (i == s.top && s'.top == i + 1 && s'.content == s.content)
             || (i == |s.content| - 1 && s'.top == s.top && s'.content == s.content[..i])
    ensures SerialsOk(s')
  {
    var n := s.content[i];
    assert s.place[n] == Live(i);
    TakeLeaves(s, s', i);
    assert forall k :: 0 <= k < |s.claims| ==> s.claims[k].serial != n && s'.claims[k] == s.claims[k];
  }

  lemma TakeLeaves<T>(s: State<T>, s': State<T>, i: nat)
    requires |s.place| == |s.pushed| && SerialsOk(s) && s.top <= i < |s.content| && s'.top <= |s'.content|
    requires || (i == s.top && s'.top == i + 1 && s'.content == s.content)
             || (i == |s.content| - 1 && s'.top == s.top && s'.content == s.content[..i])
    ensures forall j :: s'.top <= j < |s'.content| ==>
      s'.content[j] == s.content[j] < |s.place| && s.place[s'.content[j]] == Live(j) && s'.content[j] != s.content[i]
  {
  }

  lemma ThiefStep<T>(s: State<T>, u: nat, spurious: bool)
    requires Inv(s) && u < |s.thieves|
    ensures Inv(ThiefNext(s, u, spurious))
  {
    if s.thieves[u].RegisterCas? && s.id_list == s.thieves[u].seen && !spurious { RegisterStep(s, u); }
    else if s.thieves[u].TopCas? && s.thieves[u].t == s.top { StealStep(s, u, spurious); }
    else if s.thieves[u].LoadBuffer? { LoadBufferStep(s, ThiefNext(s, u, spurious), u); }
    else if s.thieves[u].TopCas? || s.thieves[u].ReadItem? { QuietAfter(s, u, spurious); }
    else if s.thieves[u].SetIdle? { SetIdleStep(s, u, spurious); }
    else if s.thieves[u].LoadLast? { NoteBuffer(s, u, spurious); }
    else if s.thieves[u].StoreLast? { RecordBuffer(s, u, spurious); }
    else if s.thieves[u].Rest? { LeaveRest(s, u, spurious); }
    else if s.thieves[u].LoadTop? { LookAtTop(s, u, spurious); }
    else if s.thieves[u].LoadBottom? { LookAtBottom(s, u, spurious); }
    else if s.thieves[u].RegisterCas? { RegisterFails(s, u, spurious); }
    else { LinkRecord(s, u, spurious); }
  }

  // ------------------------------------------------ preservation: the owner

  /** An owner step that touches none of the thieves' records. */
  ghost predicate OnlyOwner<T>(s: State<T>, s': State<T>) {
    && s'.thieves == s.thieves && s'.next == s.next && s'.idle == s.idle && s'.last_used == s.last_used
    && s'.id_list == s.id_list && s'.registered == s.registered && s'.rank == s.rank
  }

  lemma OwnerList<T>(s: State<T>, s': State<T>)
    requires Shape(s) && Shape(s') && ListOk(s) && OnlyOwner(s, s')
    ensures ListOk(s')
  {
    forall k | 0 <= k < |s'.registered| ensures RecordOk(s', k) { assert RecordOk(s, k); }
  }

  /** Only the owner's place, and perhaps `bottom`, changes. */
  lemma OwnerFrame<T>(s: State<T>, s': State<T>)
    requires Inv(s) && s' == s.(owner := s'.owner, bottom := s'.bottom)
    requires Shape(s') && OwnerOk(s') && ScanOk(s')
    ensures Inv(s')
  {
    forall v | 0 <= v < |s'.thieves| ensures ThiefOk(s', v) { assert ThiefOk(s, v); }
    assert HeapOk(s') by { forall i | 0 <= i < |s'.heap| ensures BufferOk(s', i) { assert BufferOk(s, i); } }
    OwnerList(s, s');
  }

  lemma StartStep<T>(s: State<T>, c: Call<T>)
    requires Inv(s) && s.owner.Ready?
    ensures Inv(Start(s, c))
  {
    OwnerFrame(s, Start(s, c));
  }

  /** A new current buffer: the old one keeps its cells, the new one holds the
      live elements. */
  lemma InstallKeeps<T>(s: State<T>, s': State<T>, log_size: nat, b: nat, t: nat)
    requires Inv(s) && !s.owner.Reclaim? && t <= s.top && |s.content| <= b <= t + Pow2(log_size)
    requires |s.content| - s.top <= Pow2(log_size) - 1
    requires s' == Install(s, log_size, b, t).(owner := s'.owner)
    requires s'.owner.Reclaim? && s'.owner.scan == GetList
    requires s.bottom == |s.content| && (s'.owner.k.Some? ==> |s.content| - s.top < Pow2(log_size) - 1)
    ensures Inv(s')
  {
    InstallHeap(s, s', log_size, b, t);
    assert Shape(s');
    assert LiveOk(s') by {
      forall i | s.top <= i < |s.content| ensures Get(Cur(s'), i) == Get(Cur(s), i) {
        ResizedKeeps(Cur(s), log_size, b, t, i);
      }
    }
    forall v | 0 <= v < |s'.thieves| ensures ThiefOk(s', v) { assert ThiefOk(s, v); }
    OwnerList(s, s');
  }

  lemma InstallHeap<T>(s: State<T>, s': State<T>, log_size: nat, b: nat, t: nat)
    requires Shape(s) && HeapOk(s) && s' == Install(s, log_size, b, t).(owner := s'.owner)
    ensures HeapOk(s') && |s'.heap| == |s.heap| + 1
    ensures forall i :: 0 <= i < |s.heap| ==> s'.heap[i].segment == s.heap[i].segment
    ensures Cur(s') == Resized(Cur(s), log_size, b, t)
  {
    assert BufferOk(s, s.buffer);
    forall i | 0 <= i < |s'.heap| ensures BufferOk(s', i) {
      if i < |s.heap| { assert BufferOk(s, i); }
    }
  }

  lemma GrowStep<T>(s: State<T>)
    requires Inv(s) && s.owner.PushInstall?
    ensures Inv(PushNext(s))
  {
    var log_size := Cur(s).log_size + 1;
    assert BufferOk(s, s.buffer);
    assert Pow2(log_size) == 2 * |Cur(s).segment|;
    InstallKeeps(s, PushNext(s), log_size, s.bottom, s.owner.t);
  }

  /** A buffer that may shrink has room for its elements in half its size. */
  lemma ShrinkRoom<T>(s: State<T>)
    requires Inv(s) && s.owner.PopShrink?
    ensures Cur(s).log_size >= 1 && 2 * Pow2(Cur(s).log_size - 1) == |Cur(s).segment|
    ensures s.owner.b - s.owner.t < Pow2(Cur(s).log_size - 1)
  {
    assert BufferOk(s, s.buffer);
  }

  lemma ShrinkStep<T>(s: State<T>)
    requires Inv(s) && s.owner.PopShrink?
    ensures Inv(PopNext(s))
  {
    ShrinkRoom(s);
    InstallKeeps(s, PopNext(s), Cur(s).log_size - 1, s.owner.b, s.owner.t);
  }

  lemma PutHeap<T>(s: State<T>, s': State<T>)
    requires Inv(s) && s.owner.PushPut? && s' == PushNext(s)
    ensures Shape(s') && HeapOk(s')
  {
    assert BufferOk(s, s.buffer);
    forall i | 0 <= i < |s'.heap| ensures BufferOk(s', i) { assert BufferOk(s, i); }
  }

  lemma PutStep<T>(s: State<T>)
    requires Inv(s) && s.owner.PushPut?
    ensures Inv(PushNext(s))
  {
    var s' := PushNext(s);
    assert BufferOk(s, s.buffer);
    forall i: nat | s.top <= i < |s.content| ensures Get(Cur(s'), i) == Get(Cur(s), i) {
      PutKeeps(Cur(s), s.bottom, s.owner.x, i);
    }
    PutHeap(s, s');
    forall v | 0 <= v < |s'.thieves| ensures ThiefOk(s', v) { assert ThiefOk(s, v); }
    OwnerList(s, s');
  }

  lemma PublishStep<T>(s: State<T>)
    requires Inv(s) && s.owner.PushStore?
    ensures Inv(PushNext(s))
  {
    var s' := PushNext(s);
    PublishSerials(s);
    forall v | 0 <= v < |s'.thieves| ensures ThiefOk(s', v) { assert ThiefOk(s, v); }
    HeapSame(s, s');
    OwnerList(s, s');
  }

  lemma PublishSerials<T>(s: State<T>)
    requires Shape(s) && SerialsOk(s) && LiveOk(s) && OwnerOk(s) && s.owner.PushStore?
    ensures var s' := PushNext(s); Shape(s') && SerialsOk(s') && LiveOk(s')
  {
    assert Shape(PushNext(s));
  }

  lemma PopTopStep<T>(s: State<T>)
    requires Inv(s) && s.owner.PopTop?
    ensures Inv(PopNext(s))
  {
    if s.owner.b - s.top <= 1 {
      OwnerFrame(s, PopNext(s));
    } else {
      PopLastStep(s, PopNext(s));
    }
  }

  /** The plain pop: at least two elements, the newest is claimed without a CAS. */
  ghost predicate LastTaken<T>(s: State<T>, s': State<T>)
    requires Shape(s)
  {
    && s.top < |s.content|
    && s' == Take(s, |s.content| - 1, Some(s.pushed[s.content[|s.content| - 1]])).(content :=
      s.content[..|s.content| - 1], owner := s'.owner)
  }

  /** Where the plain pop goes on: it shrinks the buffer, or not. */
  ghost predicate AfterPop<T>(s: State<T>, owner: OwnerPc<T>)
    requires Shape(s)
  {
    var size := |s.content| - s.top;
    || owner == MaybeReclaim(s, None)
    || (owner == PopShrink(|s.content|, s.top) && 16 < size <= |Cur(s).segment| / 3)
  }

  lemma PopLastTaken<T>(s: State<T>, s': State<T>)
    requires Shape(s) && LiveOk(s) && s.owner.PopTop? && s.owner.b - s.top > 1 && s' == PopNext(s)
    ensures LastTaken(s, s') && AfterPop(s, s'.owner)
  {
    assert Pow2(LOG_INITIAL_SIZE) == 16;
  }

  lemma PopLastShape<T>(s: State<T>, s': State<T>)
    requires Shape(s) && OwnerOk(s) && s.owner.PopTop? && |s.content| - s.top > 1
    requires LastTaken(s, s') && AfterPop(s, s'.owner)
    ensures Shape(s')
  {
    var n := |s.content| - 1;
    assert |s'.content| == n && forall i :: 0 <= i < n ==> s'.content[i] == s.content[i];
  }

  lemma PopLastOwner<T>(s: State<T>, s': State<T>)
    requires Shape(s) && OwnerOk(s) && s.owner.PopTop? && |s.content| - s.top > 1
    requires LastTaken(s, s') && AfterPop(s, s'.owner) && Shape(s')
    ensures OwnerOk(s') && ScanOk(s')
  {
    assert |s'.content| == |s.content| - 1;
  }

  lemma PopLastFacts<T>(s: State<T>, s': State<T>)
    requires Inv(s) && s.owner.PopTop? && s.owner.b - s.top > 1 && s' == PopNext(s)
    ensures LastTaken(s, s') && Shape(s') && OwnerOk(s') && ScanOk(s')
  {
    PopLastTaken(s, s');
    PopLastShape(s, s');
    PopLastOwner(s, s');
  }

  lemma PopLastStep<T>(s: State<T>, s': State<T>)
    requires Inv(s) && s.owner.PopTop? && s.owner.b - s.top > 1 && s' == PopNext(s)
    ensures Inv(s')
  {
    PopLastFacts(s, s');
    TakeSerials(s, s', |s.content| - 1);
    forall v | 0 <= v < |s'.thieves| ensures ThiefOk(s', v) { assert ThiefOk(s, v); }
    HeapSame(s, s');
    OwnerList(s, s');
  }

  lemma PopCasShape<T>(s: State<T>, s': State<T>)
    requires Shape(s) && OwnerOk(s) && TopTaken(s, s') && s.owner.PopCas? && s'.owner == PopRestore(s.owner.b)
      && s'.thieves == s.thieves
    requires forall v :: 0 <= v < |s.thieves| ==> ThiefOk(s, v)
    ensures Shape(s') && OwnerOk(s')
  {
    forall v | 0 <= v < |s'.thieves| && s'.thieves[v].TopCas? ensures s'.thieves[v].t < s'.top { assert ThiefOk(s, v); }
  }

  lemma PopCasWins<T>(s: State<T>, s': State<T>)
    requires Inv(s) && s.owner.PopCas? && TopTaken(s, s') && s'.owner == PopRestore(s.owner.b)
      && s'.thieves == s.thieves
    ensures Inv(s')
  {
    PopCasShape(s, s');
    TopTakenKeeps(s, s');
    forall v | 0 <= v < |s'.thieves| ensures ThiefOk(s', v) { TopTakenThief(s, s', v); }
    OwnerList(s, s');
  }

  lemma PopCasStep<T>(s: State<T>)
    requires Inv(s) && s.owner.PopCas?
    ensures Inv(PopNext(s))
  {
    if s.top != s.owner.t {
      OwnerFrame(s, PopNext(s));
    } else {
      PopCasWins(s, PopNext(s));
    }
  }

  lemma FreeStep<T>(s: State<T>)
    requires Inv(s) && s.owner.Reclaim? && s.owner.scan.Free?
    ensures Inv(ReclaimNext(s))
  {
    var s' := ReclaimNext(s);
    var u := s.unlinked.value;
    assert BufferOk(s, u);
    if s.heap[u].id < s.owner.scan.min {
      assert Shape(s');
      assert HeapOk(s') by { forall i | 0 <= i < |s'.heap| ensures BufferOk(s', i) { assert BufferOk(s, i); } }
      forall v | 0 <= v < |s'.thieves| ensures ThiefOk(s', v) { assert ThiefOk(s, v); }
      OwnerList(s, s');
    } else {
      OwnerFrame(s, s');
    }
  }

  lemma GetListStep<T>(s: State<T>)
    requires Inv(s) && s.owner.Reclaim? && s.owner.scan.GetList?
    ensures Inv(ReclaimNext(s))
  {
    assert BufferOk(s, s.buffer);
    VisitOk(s, |s.registered|, s.buffer);
    ScanGoesOn(s, Visit(s.id_list, |s.registered|, s.buffer));
  }

  lemma IdleStep<T>(s: State<T>, u: nat, pos: int, min: nat)
    requires Inv(s) && s.owner.Reclaim? && s.owner.scan == WasIdle(u, pos, min) && s.idle[u]
    ensures Inv(s.(owner := Reclaim(s.owner.k, Visit(s.next[u], pos - 1, min))))
  {
    assert ThiefOk(s, u);
    ScanThief(s, u, pos, min, min);
    ScanGoesOn(s, Visit(s.next[u], pos - 1, min));
  }

  lemma BusyStep<T>(s: State<T>, u: nat, pos: int, min: nat)
    requires Inv(s) && s.owner.Reclaim? && s.owner.scan == WasIdle(u, pos, min)
    ensures Inv(s.(owner := Reclaim(s.owner.k, LastUsed(u, pos, min))))
  {
    BusySeen(s, u, pos, min);
    ScanGoesOn(s, LastUsed(u, pos, min));
  }

  lemma WasIdleStep<T>(s: State<T>)
    requires Inv(s) && s.owner.Reclaim? && s.owner.scan.WasIdle?
    ensures Inv(ReclaimNext(s))
  {
    var WasIdle(u, pos, min) := s.owner.scan;
    if s.idle[u] {
      IdleStep(s, u, pos, min);
    } else {
      BusyStep(s, u, pos, min);
    }
  }

  lemma BusySeen<T>(s: State<T>, u: nat, pos: int, min: nat)
    requires Shape(s) && ScanOk(s) && s.owner.Reclaim? && s.owner.scan == WasIdle(u, pos, min)
    ensures var s' := s.(owner := Reclaim(s.owner.k, LastUsed(u, pos, min))); Shape(s') && ScanOk(s')
  {
    var s' := s.(owner := Reclaim(s.owner.k, LastUsed(u, pos, min)));
    assert Shape(s');
    assert Guarded(s', pos, min);
  }

  lemma LastUsedStep<T>(s: State<T>)
    requires Inv(s) && s.owner.Reclaim? && s.owner.scan.LastUsed?
    ensures Inv(ReclaimNext(s))
  {
    var LastUsed(u, pos, min) := s.owner.scan;
    var min' := if s.last_used[u] < min then s.last_used[u] else min;
    assert ThiefOk(s, u);
    ScanThief(s, u, pos, min, min');
    ScanGoesOn(s, Visit(s.next[u], pos - 1, min'));
  }

  lemma ScanGoesOn<T>(s: State<T>, scan: Scan)
    requires Inv(s) && s.owner.Reclaim?
    requires var s' := s.(owner := Reclaim(s.owner.k, scan)); Shape(s') && ScanOk(s')
    ensures Inv(s.(owner := Reclaim(s.owner.k, scan)))
  {
    OwnerFrame(s, s.(owner := Reclaim(s.owner.k, scan)));
  }

  /** The scan goes on with the first pos records still to be visited. */
  lemma VisitOk<T>(s: State<T>, pos: nat, min: nat)
    requires Shape(s) && ListOk(s) && pos <= |s.registered| && min <= s.buffer && Guarded(s, pos, min)
      && s.owner.Reclaim?
    ensures var scan := Visit(At(s.registered, pos), pos, min);
      var s' := s.(owner := Reclaim(s.owner.k, scan)); Shape(s') && ScanOk(s')
  {
    if pos > 0 { assert RecordOk(s, pos - 1); }
    var s' := s.(owner := Reclaim(s.owner.k, Visit(At(s.registered, pos), pos, min)));
    assert Shape(s');
    assert Guarded(s', pos, min);
  }

  lemma StillGuarded<T>(s: State<T>, u: nat, pos: int, min: nat, min': nat)
    requires Shape(s) && ListOk(s) && u < |s.thieves| && 0 < pos <= |s.registered| && s.registered[pos - 1] == u
    requires Guarded(s, pos, min) && min' <= min
    requires Holds(s.thieves[u]) ==> min' <= s.thieves[u].a
    ensures Guarded(s, pos - 1, min')
  {
    forall v | 0 <= v < |s.thieves| && Holds(s.thieves[v]) ensures s.rank[v] < pos - 1 || min' <= s.thieves[v].a {
      if s.rank[v] == pos - 1 { assert v == u; }
    }
  }

  /** Record u accounted for: its thief holds nothing, or nothing older than min'. */
  lemma ScanThief<T>(s: State<T>, u: nat, pos: int, min: nat, min': nat)
    requires Shape(s) && ListOk(s) && s.owner.Reclaim? && u < |s.thieves| && 0 < pos <= |s.registered|
      && s.registered[pos - 1] == u
    requires ThiefOk(s, u)
    requires Guarded(s, pos, min) && min' <= min <= s.buffer && (s.idle[u] || min' <= s.last_used[u])
    ensures s.next[u] == At(s.registered, pos - 1)
    ensures var scan := Visit(s.next[u], pos - 1, min');
      var s' := s.(owner := Reclaim(s.owner.k, scan)); Shape(s') && ScanOk(s')
  {
    assert RecordOk(s, pos - 1);
    StillGuarded(s, u, pos, min, min');
    VisitOk(s, pos - 1, min');
  }

  lemma ReclaimStep<T>(s: State<T>)
    requires Inv(s) && s.owner.Reclaim?
    ensures Inv(ReclaimNext(s))
  {
    match s.owner.scan
    case GetList => GetListStep(s);
    case WasIdle(_, _, _) => WasIdleStep(s);
    case LastUsed(_, _, _) => LastUsedStep(s);
    case Free(_) => FreeStep(s);
  }

  lemma PopStep<T>(s: State<T>)
    requires Inv(s) && (s.owner.PopTop? || s.owner.PopCas? || s.owner.PopRestore? || s.owner.PopShrink?)
    ensures Inv(PopNext(s))
  {
    match s.owner
    case PopTop(_) => PopTopStep(s);
    case PopCas(_, _) => PopCasStep(s);
    case PopRestore(_) => OwnerFrame(s, PopNext(s));
    case PopShrink(_, _) => ShrinkStep(s);
  }

  lemma PushStep<T>(s: State<T>)
    requires Inv(s) && (s.owner.PushInstall? || s.owner.PushPut? || s.owner.PushStore?)
    ensures Inv(PushNext(s))
  {
    match s.owner
    case PushInstall(_, _) => GrowStep(s);
    case PushPut(_) => PutStep(s);
    case PushStore(_) => PublishStep(s);
  }

  lemma OwnerStep<T>(s: State<T>, c: Call<T>)
    requires Inv(s)
    ensures Inv(OwnerNext(s, c))
  {
    if s.owner.Ready? { StartStep(s, c); }
    else if s.owner.Reclaim? { ReclaimStep(s); }
    else if s.owner.PushInstall? || s.owner.PushPut? || s.owner.PushStore? { PushStep(s); }
    else { PopStep(s); }
  }

  lemma StepKeepsInv<T>(s: State<T>, e: Event<T>)
    requires Inv(s) && (e.Thief? ==> e.u < |s.thieves|)
    ensures Inv(Next(s, e))
  {
    match e
    case Owner(c) => OwnerStep(s, c);
    case Thief(u, spurious) => ThiefStep(s, u, spurious);
  }

  // ------------------------------------------------------------- whole runs

  lemma ThiefKeeps<T>(s: State<T>, u: nat, spurious: bool)
    requires Shape(s) && u < |s.thieves|
    ensures var s' := ThiefNext(s, u, spurious);
      s'.owner == s.owner && s'.unlinked == s.unlinked && s'.heap == s.heap && |s'.thieves| == |s.thieves|
  {
  }

  lemma OwnerKeeps<T>(s: State<T>, c: Call<T>)
    requires Shape(s)
    ensures OwnerNext(s, c).thieves == s.thieves
  {
  }

  lemma NextThieves<T>(s: State<T>, e: Event<T>)
    requires Shape(s) && (e.Thief? ==> e.u < |s.thieves|)
    ensures |Next(s, e).thieves| == |s.thieves|
  {
    if e.Owner? { OwnerKeeps(s, e.c); } else { ThiefKeeps(s, e.u, e.spurious); }
  }

  ghost function Run<T>(s: State<T>, es: seq<Event<T>>): (r: State<T>)
    requires Inv(s)
    ensures Inv(r) && |r.thieves| == |s.thieves|
    decreases |es|
  {
    if es == [] then s
    else if es[0].Thief? && es[0].u >= |s.thieves| then Run(s, es[1..])
    else
      StepKeepsInv(s, es[0]);
      NextThieves(s, es[0]);
      var s' := Next(s, es[0]);
      Run(s', es[1..])
  }

  ghost predicate IsClaimed<T>(s: State<T>, n: nat) { exists k :: 0 <= k < |s.claims| && s.claims[k].serial == n }

  ghost predicate IsLive<T>(s: State<T>, n: nat) { exists i :: s.top <= i < |s.content| && s.content[i] == n }

  /** However the owner and the thieves interleave, a push is claimed at most once
      and until then is in the deque, at one place; and whoever claims it has the
      value pushed, in the buffer it loaded, at the instant of the claim. */
  lemma EachPushClaimedOnce<T>(s0: State<T>, es: seq<Event<T>>)
    requires Init(s0)
    ensures Inv(s0)
    ensures var s := Run(s0, es);
      && (forall j, k :: 0 <= j < k < |s.claims| ==> s.claims[j].serial != s.claims[k].serial)
      && (forall i, j :: s.top <= i < j < |s.content| ==> s.content[i] != s.content[j])
      && (forall k :: 0 <= k < |s.claims| ==>
            s.claims[k].serial < |s.pushed| && s.claims[k].value == Some(s.pushed[s.claims[k].serial]))
      && (forall n :: 0 <= n < |s.pushed| ==> (IsClaimed(s, n) <==> !IsLive(s, n)))
  {
    InitInv(s0);
    var s := Run(s0, es);
    forall i, j | s.top <= i < j < |s.content| ensures s.content[i] != s.content[j] {
      assert s.place[s.content[i]] == Live(i) && s.place[s.content[j]] == Live(j);
    }
    forall n | 0 <= n < |s.pushed| ensures IsClaimed(s, n) <==> !IsLive(s, n) {
      match s.place[n] {
        case Live(i) => assert s.content[i] == n;
        case Taken(k) => assert s.claims[k].serial == n;
      }
    }
  }

  /** A thief's winning CAS takes the oldest element, and at that instant the
      buffer the thief loaded, current or already replaced, still holds its value. */
  lemma WinningStealHoldsItsElement<T>(s: State<T>, u: nat, spurious: bool)
    requires Inv(s) && u < |s.thieves| && s.thieves[u].TopCas? && s.thieves[u].t == s.top
    ensures var s' := ThiefNext(s, u, spurious);
      && s.top < |s.content|
      && Get(s.heap[s.thieves[u].a], s.top) == Some(s.pushed[s.content[s.top]])
      && s'.claims == s.claims + [Claim(s.content[s.top], Some(s.pushed[s.content[s.top]]))]
      && s'.content[s'.top..] == s.content[s.top..][1..]
  {
    assert ThiefOk(s, u);
  }

  /** A pop that finds several elements claims the newest without a CAS; it gives
      up at its first look exactly when the deque is empty. */
  lemma PopTakesNewest<T>(s: State<T>)
    requires Inv(s) && s.owner.PopTop?
    ensures var s' := PopNext(s); var n := |s.content|;
      && (s'.owner.PopRestore? <==> s.top == n)
      && (s'.owner.PopCas? <==> s.top == n - 1)
      && (n - s.top <= 1 ==> s'.claims == s.claims && s'.content == s.content && s'.top == s.top)
      && (n - s.top > 1 ==> (
           && s'.claims == s.claims + [Claim(s.content[n - 1], Some(s.pushed[s.content[n - 1]]))]
           && s'.content == s.content[..n - 1] && s'.top == s.top))
  {
    if s.owner.b - s.top > 1 { PopLastFacts(s, PopNext(s)); }
  }

  /** With one element left the owner competes for it; if its CAS wins, it has
      the last element and the deque is empty. */
  lemma PopTakesLast<T>(s: State<T>)
    requires Inv(s) && s.owner.PopCas? && s.top == s.owner.t
    ensures var s' := PopNext(s);
      && |s.content| == s.top + 1 && s'.top == |s'.content|
      && s'.claims == s.claims + [Claim(s.content[s.top], Some(s.pushed[s.content[s.top]]))]
  {
  }

  /** In no run is a buffer freed while a thief holds it, nor the current one. */
  lemma HeldBufferNeverFreed<T>(s0: State<T>, es: seq<Event<T>>, u: nat)
    requires Init(s0)
    ensures Inv(s0)
    ensures var s := Run(s0, es);
      && s.buffer < |s.heap| && !Cur(s).freed
      && (u < |s.thieves| && Holds(s.thieves[u]) ==> s.thieves[u].a < |s.heap| && !s.heap[s.thieves[u].a].freed)
  {
    InitInv(s0);
    var s := Run(s0, es);
    assert BufferOk(s, s.buffer);
    if u < |s.thieves| && Holds(s.thieves[u]) { assert ThiefOk(s, u) && BufferOk(s, s.thieves[u].a); }
  }

  /** One turn of the freeing loop frees a buffer not freed before, older than
      the current one, and moves on to the next id; or ends the loop. */
  lemma FreeingLoopTurn<T>(s: State<T>)
    requires Inv(s) && s.owner.Reclaim? && s.owner.scan.Free?
    ensures var u := s.unlinked.value; var s' := ReclaimNext(s);
      && s.owner.scan.min <= s.buffer
      && (u < s.owner.scan.min ==>
        !s.heap[u].freed && s'.heap[u].freed && s'.unlinked == Some(u + 1) && s'.owner == s.owner)
      && (u >= s.owner.scan.min ==> !s'.owner.Reclaim? && s'.heap == s.heap && s'.unlinked == s.unlinked)
  {
    assert BufferOk(s, s.unlinked.value);
  }

  function OwnerEvents<T>(es: seq<Event<T>>): nat {
    if es == [] then 0 else (if es[0].Owner? then 1 else 0) + OwnerEvents(es[1..])
  }

  /** The buffers the freeing loop has still to free. */
  ghost function FreesLeft<T>(s: State<T>): nat
    requires Inv(s) && s.owner.Reclaim? && s.owner.scan.Free?
  {
    if s.owner.scan.min <= s.unlinked.value then 0 else s.owner.scan.min - s.unlinked.value
  }

  lemma FreeingLoopProgress<T>(s: State<T>, e: Event<T>)
    requires Inv(s) && s.owner.Reclaim? && s.owner.scan.Free? && (e.Thief? ==> e.u < |s.thieves|)
    ensures var s' := Next(s, e);
      s'.owner.Reclaim? ==>
        Inv(s') && s'.owner == s.owner && FreesLeft(s') + (if e.Owner? then 1 else 0) == FreesLeft(s)
  {
    StepKeepsInv(s, e);
    if e.Owner? { FreeingLoopTurn(s); } else { ThiefKeeps(s, e.u, e.spurious); }
  }

  /** The first event of a run in the freeing loop. */
  lemma FreeingLoopStep<T>(s: State<T>, es: seq<Event<T>>) returns (s': State<T>)
    requires Inv(s) && s.owner.Reclaim? && s.owner.scan.Free? && es != []
    ensures Inv(s') && forall n :: 0 <= n < |es| ==> Run(s, es[..n + 1]) == Run(s', es[1..][..n])
    ensures s'.owner.Reclaim? ==> s'.owner.scan.Free? && FreesLeft(s') + OwnerEvents(es[..1]) <= FreesLeft(s)
  {
    s' := s;
    if es[0].Owner? || es[0].u < |s.thieves| {
      FreeingLoopProgress(s, es[0]);
      StepKeepsInv(s, es[0]);
      s' := Next(s, es[0]);
    }
    forall n | 0 <= n < |es| ensures Run(s, es[..n + 1]) == Run(s', es[1..][..n]) {
      RunFirst(s, es, n);
    }
    assert es[..1][1..] == [];
  }

  lemma RunFirst<T>(s: State<T>, es: seq<Event<T>>, n: nat)
    requires Inv(s) && n < |es|
    ensures if es[0].Thief? && es[0].u >= |s.thieves| then Run(s, es[..n + 1]) == Run(s, es[1..][..n])
            else Inv(Next(s, es[0])) && Run(s, es[..n + 1]) == Run(Next(s, es[0]), es[1..][..n])
  {
    assert es[..n + 1][0] == es[0] && es[..n + 1][1..] == es[1..][..n];
    if es[0].Owner? || es[0].u < |s.thieves| { StepKeepsInv(s, es[0]); }
  }

  /** The freeing loop ends, whatever thieves do meanwhile: after one turn for
      each buffer left and one more. */
  lemma {:induction false} FreeingLoopEnds<T>(s: State<T>, es: seq<Event<T>>) returns (n: nat)
    requires Inv(s) && s.owner.Reclaim? && s.owner.scan.Free?
    requires OwnerEvents(es) > FreesLeft(s)
    ensures n <= |es| && !Run(s, es[..n]).owner.Reclaim?
    decreases |es|
  {
    assert OwnerEvents(es) == OwnerEvents(es[..1]) + OwnerEvents(es[1..]) by { assert es[..1][1..] == []; }
    var s' := FreeingLoopStep(s, es);
    n := 0;
    if s'.owner.Reclaim? { n := FreeingLoopEnds(s', es[1..]); }
    assert Run(s, es[..n + 1]) == Run(s', es[1..][..n]);
    n := n + 1;
  }

  // ------------------------------------------------------ the code, in place

  /** Buffer::resize: the copy loop. */
  method Resize<T>(a: Buffer<T>, b: nat, t: nat, delta: int) returns (r: Buffer<T>)
    requires a.segment != [] && a.log_size + delta >= 0
    ensures r == Resized(a, a.log_size + delta, b, t)
  {
    var segment := Blank(a.log_size + delta);
    var i := t;
    while i < b
      invariant t <= i && |segment| == Pow2(a.log_size + delta)
      invariant i <= b || i == t
      invariant segment == Copy(a.segment, Blank(a.log_size + delta), t, i)
    {
      segment := segment[i % |segment| := a.segment[i % |a.segment|]];
      i := i + 1;
    }
    assert b <= t ==> Copy(a.segment, Blank(a.log_size + delta), t, b) == Blank(a.log_size + delta);
    r := Buffer(a.id + 1, a.log_size + delta, segment, None, false);
  }

  /** The deque's fields.  Each method makes one step of the code and says what
      the whole new state is; StepKeepsInv is what keeps Inv from step to step. */
  class Deque<T> {
    var top: nat
    var bottom: int
    var buffer: nat
    var unlinked: Option<nat>
    var heap: seq<Buffer<T>>
    var id_list: Option<nat>
    var next: seq<Option<nat>>
    var last_used: seq<nat>
    var idle: seq<bool>
    var owner: OwnerPc<T>
    var thieves: seq<ThiefPc>
    ghost var pushed: seq<T>
    ghost var content: seq<nat>
    ghost var place: seq<Place>
    ghost var claims: seq<Claim<T>>
    var registered: seq<nat>      // bookkeeping, read only into the scan's pos
    ghost var rank: seq<nat>

    ghost function View(): State<T>
      reads this
    {
      State(top, bottom, buffer, unlinked, heap, id_list, next, last_used, idle, owner, thieves,
            pushed, content, place, claims, registered, rank)
    }

    constructor (n: nat)
      ensures Init(View()) && |thieves| == n
    {
      top, bottom, buffer, unlinked := 0, 0, 0, None;
      heap := [Buffer(0, LOG_INITIAL_SIZE, Blank(LOG_INITIAL_SIZE), None, false)];
      id_list, next, last_used, idle := None, seq(n, _ => None), seq(n, _ => 0), seq(n, _ => true);
      owner, thieves := Ready, seq(n, _ => Unregistered);
      pushed, content, place, claims, registered, rank := [], [], [], [], [], seq(n, _ => 0);
    }

    ghost method TakeAt(i: nat, value: Option<T>)
      requires i < |content| && content[i] < |place|
      modifies this`place, this`claims
      ensures View() == Take(old(View()), i, value)
    {
      place := place[content[i] := Taken(|claims|)];
      claims := claims + [Claim(content[i], value)];
    }

    /** resize, then buffer.store. */
    method InstallResized(b: nat, t: nat, delta: int)
      requires buffer < |heap| && heap[buffer].segment != [] && heap[buffer].log_size + delta >= 0
      modifies this`unlinked, this`heap, this`buffer
      ensures View() == Install(old(View()), old(heap[buffer].log_size) + delta, b, t)
    {
      unlinked := if unlinked.Some? then unlinked else Some(buffer);
      var a := Resize(heap[buffer], b, t, delta);
      heap := heap[buffer := heap[buffer].(next := Some(|heap|))] + [a];
      buffer := |heap| - 1;
    }

    /** `if (unlinked) ...`: where the owner goes next. */
    function Onward(k: Option<T>): OwnerPc<T>
      reads this
    {
      if unlinked.Some? then Reclaim(k, GetList) else if k.Some? then PushPut(k.value) else Ready
    }

    /** push_bottom up to its look at top. */
    method BeginPush(x: T)
      requires Shape(View()) && owner.Ready?
      modifies this`owner
      ensures View() == Start(old(View()), Push(x))
    {
      owner := if bottom - top >= |heap[buffer].segment| - 1 then PushInstall(x, top) else Onward(Some(x));
    }

    /** push_bottom writes the cell, once there is room. */
    method PutItem()
      requires Shape(View()) && owner.PushPut?
      modifies this`heap, this`owner
      ensures View() == PushNext(old(View()))
    {
      var a := heap[buffer];
      heap := heap[buffer := a.(segment := a.segment[bottom % |a.segment| := Some(owner.x)])];
      owner := PushStore(owner.x);
    }

    /** push_bottom makes the item visible. */
    method Publish()
      requires Shape(View()) && owner.PushStore?
      modifies this`pushed, this`content, this`place, this`bottom, this`owner
      ensures View() == PushNext(old(View()))
    {
      pushed, content, place := pushed + [owner.x], content + [|pushed|], place + [Live(|content|)];
      bottom, owner := bottom + 1, Ready;
    }

    /** push_bottom: the buffer grows. */
    method Grow()
      requires Shape(View()) && owner.PushInstall?
      modifies this
      ensures View() == PushNext(old(View()))
    {
      var x := owner.x;
      InstallResized(bottom, owner.t, 1);
      owner := Onward(Some(x));
    }

    /** pop_bottom: the buffer shrinks. */
    method Shrink()
      requires Inv(View()) && owner.PopShrink?
      modifies this
      ensures View() == PopNext(old(View()))
    {
      ShrinkRoom(View());
      InstallResized(owner.b, owner.t, -1);
      owner := Onward(None);
    }

    /** pop_bottom: bottom is lowered before top is looked at. */
    method BeginPop()
      requires Shape(View()) && owner.Ready?
      modifies this`owner, this`bottom
      ensures View() == Start(old(View()), Pop)
    {
      owner := PopTop(bottom);
      bottom := bottom - 1;
    }

    /** pop_bottom competing for the last element, and putting bottom back;
        popped is what the step claims. */
    method PopLast() returns (popped: Option<T>)
      requires Shape(View()) && LiveOk(View()) && (owner.PopCas? || owner.PopRestore?)
      modifies this
      ensures View() == PopNext(old(View()))
      ensures claims == old(claims) || claims[|claims| - 1].value == popped
      ensures claims == old(claims) <==> popped == None
    {
      popped := None;
      match owner {
        case PopCas(b, t) =>
          if top == t {
            popped := Get(heap[buffer], t);
            TakeAt(t, popped);
            top := t + 1;
          }
          owner := PopRestore(b);
        case PopRestore(b) =>
          bottom, owner := b, Ready;
      }
    }

    /** pop_bottom after its load of top. */
    method PopLook(b: nat) returns (popped: Option<T>)
      requires Shape(View()) && LiveOk(View()) && owner == PopTop(b)
      modifies this
      ensures View() == PopNext(old(View()))
      ensures claims == old(claims) || claims[|claims| - 1].value == popped
      ensures claims == old(claims) <==> popped == None
    {
      popped := None;
      if b - top <= 0 {
        owner := PopRestore(b);
      } else if b - top == 1 {
        owner := PopCas(b, top);
      } else {
        popped := TakeNewest(b);
      }
    }

    /** ... where it has seen more than one element. */
    method TakeNewest(b: nat) returns (popped: Option<T>)
      requires Shape(View()) && LiveOk(View()) && owner == PopTop(b) && b - top > 1
      modifies this`owner, this`content, this`place, this`claims
      ensures View() == PopNext(old(View()))
      ensures claims == old(claims) + [Claim(old(content)[b - 1], popped)] && popped.Some?
    {
      popped := Get(heap[buffer], b - 1);
      TakeAt(b - 1, popped);
      content := content[..b - 1];
      if b - top <= |heap[buffer].segment| / 3 && b - top > Pow2(LOG_INITIAL_SIZE) {
        owner := PopShrink(b, top);
      } else {
        owner := Onward(None);
      }
    }

    /** reclaim_buffers up to its load of the list. */
    method BeginReclaim()
      requires Shape(View()) && owner.Reclaim? && owner.scan.GetList?
      modifies this`owner
      ensures View() == ReclaimNext(old(View()))
    {
      owner := Reclaim(owner.k, Visit(id_list, |registered|, heap[buffer].id));
    }

    /** reclaim_buffers: a record's was_idle. */
    method ReadIdle()
      requires Shape(View()) && owner.Reclaim? && owner.scan.WasIdle?
      modifies this`owner
      ensures View() == ReclaimNext(old(View()))
    {
      var WasIdle(u, pos, min) := owner.scan;
      owner := Reclaim(owner.k, if idle[u] then Visit(next[u], pos - 1, min) else LastUsed(u, pos, min));
    }

    /** reclaim_buffers: a busy record's id_last_used. */
    method ReadLastUsed()
      requires Shape(View()) && owner.Reclaim? && owner.scan.LastUsed?
      modifies this`owner
      ensures View() == ReclaimNext(old(View()))
    {
      var LastUsed(u, pos, min) := owner.scan;
      owner := Reclaim(owner.k, Visit(next[u], pos - 1, if last_used[u] < min then last_used[u] else min));
    }

    /** reclaim_buffers: one turn of the freeing loop. */
    method FreeOld()
      requires Shape(View()) && owner.Reclaim? && owner.scan.Free?
      modifies this`owner, this`unlinked, this`heap
      ensures View() == ReclaimNext(old(View()))
    {
      var k, u := owner.k, unlinked.value;
      if heap[u].id < owner.scan.min {
        unlinked := heap[u].next;
        heap := heap[u := heap[u].(freed := true)];
      } else {
        owner := if k.Some? then PushPut(k.value) else Ready;
      }
    }

    /** register_thread. */
    method Register(u: nat, spurious: bool)
      requires Shape(View()) && u < |thieves| && !Registered(thieves[u])
      modifies this
      ensures View() == ThiefNext(old(View()), u, spurious)
    {
      if thieves[u].Unregistered? {
        next := next[u := id_list];
        thieves := thieves[u := RegisterCas(id_list)];
      } else if id_list == thieves[u].seen && !spurious {
        id_list := Some(u);
        registered, rank := registered + [u], rank[u := |registered|];
        thieves := thieves[u := Rest];
      } else {
        thieves := thieves[u := Unregistered];
      }
    }

    /** Stealer::steal around Deque::steal: the thief's record. */
    method Announce(u: nat)
      requires Shape(View()) && u < |thieves|
      requires var p := thieves[u]; p.Rest? || p.SetIdle? || p.LoadLast? || p.StoreLast?
      modifies this
      ensures View() == ThiefNext(old(View()), u, false)
    {
      match thieves[u] {
        case Rest =>
          idle, thieves := idle[u := false], thieves[u := LoadTop];
        case SetIdle =>
          idle, thieves := idle[u := true], thieves[u := LoadLast];
        case LoadLast =>
          thieves := thieves[u := StoreLast(heap[buffer].id)];
        case StoreLast(id) =>
          last_used, thieves := last_used[u := id], thieves[u := Rest];
      }
    }

    /** Deque::steal up to its load of the buffer. */
    method BeginSteal(u: nat)
      requires Shape(View()) && u < |thieves|
        && (thieves[u].LoadTop? || thieves[u].LoadBottom? || thieves[u].LoadBuffer?)
      modifies this`thieves
      ensures View() == ThiefNext(old(View()), u, false)
    {
      match thieves[u] {
        case LoadTop =>
          thieves := thieves[u := LoadBottom(top)];
        case LoadBottom(t) =>
          thieves := thieves[u := if bottom - t > 0 then LoadBuffer(t) else SetIdle];
        case LoadBuffer(t) =>
          thieves := thieves[u := TopCas(t, buffer)];
      }
    }

    /** Deque::steal; item is what the last step reads, after the claim. */
    method Steal(u: nat) returns (item: Option<T>)
      requires Shape(View()) && u < |thieves| && (thieves[u].TopCas? || thieves[u].ReadItem?)
      modifies this
      ensures View() == ThiefNext(old(View()), u, false)
    {
      item := None;
      match thieves[u] {
        case TopCas(t, a) =>
          if top == t {
            TakeAt(t, Get(heap[a], t));
            top := t + 1;
            thieves := thieves[u := ReadItem(t, a)];
          } else {
            thieves := thieves[u := SetIdle];
          }
        case ReadItem(t, a) =>
          item := Get(heap[a], t);
          thieves := thieves[u := SetIdle];
      }
    }
  }
}
