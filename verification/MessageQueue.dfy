/**
 The profiler's message queue: many producers, one consumer, and a ring of bytes
 in which messages of different sizes lie one after the other.

 The virtual-memory mirror makes byte p of the unbounded stream of messages byte
 p mod size of the ring.  Every position and size is a multiple of four bytes
 (SizeIsWords), so positions and sizes here count 32-bit words, and a step is one
 access to `read_pos`, to `write_pos` or to one word of the ring.
 */
module MessageQueue {
  import opened Prelude
  import opened Modular

  // --------------------------------------------------------------- messages

  const NOT_READY: nat := 0       // MsgID_NotReady
  const SIZEOF_MESSAGE: nat := 24 // id, payload_size, thread_sampler, payload[1], on a 64-bit target

  /** rmtMessageQueue_SizeForPayload, in bytes. */
  function SizeForPayload(payload_size: nat): nat {
    var size := SIZEOF_MESSAGE + payload_size;
    (size + 3) - (size + 3) % 4
  }

  /** The same in words. */
  function Words(payload_size: nat): nat { (SIZEOF_MESSAGE + payload_size + 3) / 4 }

  function PayloadWords(payload_size: nat): nat { (payload_size + 3) / 4 }

  /** The size is whole words, and covers id, size, sampler and payload. */
  lemma SizeIsWords(payload_size: nat)
    ensures SizeForPayload(payload_size) == 4 * Words(payload_size)
    ensures 4 + PayloadWords(payload_size) <= Words(payload_size)
  {
  }

  /** A message as its producer means it: the sampler pointer is two words. */
  datatype Msg = Msg(id: nat, payload_size: nat, sampler_lo: nat, sampler_hi: nat, payload: seq<nat>)

  predicate ValidMsg(m: Msg) {
    m.id != NOT_READY && |m.payload| == PayloadWords(m.payload_size)
  }

  /** The words after the id. */
  function Content(m: Msg): seq<nat> { [m.payload_size, m.sampler_lo, m.sampler_hi] + m.payload }

  /** How many words after the id a message has, going by the first of them. */
  function ContentWords(first: nat): nat { 3 + PayloadWords(first) }

  function Rebuild(id: nat, words: seq<nat>): Msg
    requires |words| >= 3
  {
    Msg(id, words[0], words[1], words[2], words[3..])
  }

  lemma RebuildContent(m: Msg)
    ensures Rebuild(m.id, Content(m)) == m
  {
  }

  // ------------------------------------------------------------------ state

  /** k is bookkeeping: the message's number in `log`. */
  datatype Producer =
    | Idle
    | LoadRead(m: Msg)                          // r = read_pos
    | LoadWrite(m: Msg, r: nat)                 // w = write_pos, room?
    | CasWrite(m: Msg, r: nat, w: nat)          // compare and swap write_pos
    | Fill(m: Msg, w: nat, j: nat, k: nat)      // word j after the id
    | Commit(m: Msg, w: nat, k: nat)            // the id

  datatype Consumer =
    | Waiting                                   // write_pos - read_pos == 0?
    | PeekId                                    // id != MsgID_NotReady?
    | Reading(id: nat, words: seq<nat>)         // the words after the id
    | LoadSize(m: Msg)                          // message->payload_size
    | Clear(m: Msg, n: nat, j: nat)             // memset, word j of n
    | AdvanceRead(m: Msg, n: nat)               // read_pos += n

  /** Bookkeeping: an allocated message; `written` words of its content are in place. */
  datatype Entry = Entry(start: nat, msg: Msg, written: nat, ready: bool, owner: nat)

  datatype State = State(
    size: nat, read_pos: nat, write_pos: nat,
    cells: seq<nat>,
    producers: seq<Producer>, consumer: Consumer,
    // bookkeeping
    log: seq<Entry>,         // every message allocated, in the order of the winning CASes
    tape: seq<nat>,          // the ring unrolled: position p of the stream, up to read_pos + size
    received: seq<Msg>)      // what the consumer read, as it read it

  ghost predicate Shape(s: State) {
    && s.size > 0 && |s.cells| == s.size && |s.tape| == s.read_pos + s.size
    && (forall t :: 0 <= t < |s.producers| ==> ProducerShape(s, s.producers[t]))
    && (s.consumer.Clear? ==> s.consumer.j < s.size)
    && (s.consumer.Reading? ==> s.consumer.words != [] ==> |s.consumer.words| < ContentWords(s.consumer.words[0]))
  }

  ghost predicate ProducerShape(s: State, p: Producer) {
    && (p.Fill? ==> p.j < |Content(p.m)| && p.w + 1 + p.j < |s.tape| && p.k < |s.log|)
    && (p.Commit? ==> p.w < |s.tape| && p.k < |s.log|)
  }

  /** One word of the stream is written, in the ring and on the tape. */
  function Write(s: State, p: nat, v: nat): State
    requires s.size > 0 && |s.cells| == s.size && p < |s.tape|
  {
    s.(cells := s.cells[p % s.size := v], tape := s.tape[p := v])
  }

  function Zeros(n: nat): (r: seq<nat>)
    ensures |r| == n && forall i :: 0 <= i < n ==> r[i] == 0
  {
    seq(n, _ => 0)
  }

  function Go(s: State, t: nat, p: Producer): State
    requires t < |s.producers|
  {
    s.(producers := s.producers[t := p])
  }

  ghost function ProducerNext(s: State, t: nat, call: Option<Msg>): State
    requires Shape(s) && t < |s.producers|
  {
    match s.producers[t]
    case Idle => if call.Some? && ValidMsg(call.value) then Go(s, t, LoadRead(call.value)) else s
    case LoadRead(m) => Go(s, t, LoadWrite(m, s.read_pos))
    case LoadWrite(m, r) =>
      if s.write_pos - r > s.size - Words(m.payload_size) then Go(s, t, Idle)
      else Go(s, t, CasWrite(m, r, s.write_pos))
    case CasWrite(m, r, w) =>
      if s.write_pos == w then
        Go(s, t, Fill(m, w, 0, |s.log|)).(write_pos := w + Words(m.payload_size),
          log := s.log + [Entry(w, m, 0, false, t)])
      else Go(s, t, LoadRead(m))
    case Fill(m, w, j, k) =>
      Go(Write(s, w + 1 + j, Content(m)[j]), t, if j + 1 < |Content(m)| then Fill(m, w, j + 1, k) else Commit(m, w, k))
        .(log := s.log[k := s.log[k].(written := j + 1)])
    case Commit(m, w, k) =>
      Go(Write(s, w, m.id), t, Idle).(log := s.log[k := s.log[k].(ready := true)])
  }

  ghost function ConsumerNext(s: State): State
    requires Shape(s)
  {
    match s.consumer
    case Waiting => if s.write_pos - s.read_pos == 0 then s else s.(consumer := PeekId)
    case PeekId =>
      var id := s.cells[s.read_pos % s.size];
      s.(consumer := if id != NOT_READY then Reading(id, []) else Waiting)
    case Reading(id, words) =>
      var words' := words + [s.cells[(s.read_pos + 1 + |words|) % s.size]];
      s.(consumer := if |words'| < ContentWords(words'[0]) then Reading(id, words') else LoadSize(Rebuild(id, words')))
    case LoadSize(m) =>
      s.(consumer := Clear(m, Words(s.cells[(s.read_pos + 1) % s.size]), 0))
    case Clear(m, n, j) =>
      Write(s, s.read_pos + j, NOT_READY).(consumer := if j + 1 < n then Clear(m, n, j + 1) else AdvanceRead(m, n))
    case AdvanceRead(m, n) =>
      s.(read_pos := s.read_pos + n, consumer := Waiting, tape := s.tape + Zeros(n), received := s.received + [m])
  }

  datatype Event = Send(t: nat, call: Option<Msg>) | Receive

  ghost function Next(s: State, e: Event): State
    requires Shape(s) && (e.Send? ==> e.t < |s.producers|)
  {
    match e
    case Send(t, call) => ProducerNext(s, t, call)
    case Receive => ConsumerNext(s)
  }

  // -------------------------------------------------------------- invariant

  function End(e: Entry): nat { e.start + Words(e.msg.payload_size) }

  ghost function StartOf(s: State, k: nat): nat {
    if k < |s.log| then s.log[k].start else s.write_pos
  }

  ghost predicate Adjacent(s: State, k: nat)
    requires k < |s.log|
  {
    End(s.log[k]) == StartOf(s, k + 1)
  }

  /** Messages follow each other without gap or overlap, from the one at
      read_pos to write_pos, and together fit in the ring. */
  ghost predicate Tiled(s: State) {
    && |s.received| <= |s.log|
    && s.read_pos <= s.write_pos <= s.read_pos + s.size
    && s.read_pos == StartOf(s, |s.received|)
    && (forall k :: 0 <= k < |s.log| ==>
      End(s.log[k]) <= s.write_pos && ValidMsg(s.log[k].msg) && s.log[k].written <= |Content(s.log[k].msg)|)
    && (forall k :: 0 <= k < |s.log| ==> Adjacent(s, k))
    && (forall i, k :: 0 <= i < k < |s.log| ==> End(s.log[i]) <= s.log[k].start)
  }

  /** The ring holds the last `size` positions of the tape. */
  ghost predicate RingOk(s: State)
    requires s.size > 0 && |s.cells| == s.size
  {
    forall p :: s.read_pos <= p < |s.tape| ==> s.cells[p % s.size] == s.tape[p]
  }

  /** What word o of entry e's range holds. */
  function Image(e: Entry, o: nat): nat {
    if o == 0 then if e.ready then e.msg.id else NOT_READY
    else if o <= e.written && o <= |Content(e.msg)| then Content(e.msg)[o - 1]
    else NOT_READY
  }

  /** How many words of entry k the consumer has cleared. */
  function Cleared(s: State, k: nat): nat {
    if k != |s.received| then 0
    else if s.consumer.Clear? then s.consumer.j
    else if s.consumer.AdvanceRead? then s.consumer.n
    else 0
  }

  ghost predicate WordOk(s: State, k: nat, o: nat)
    requires k < |s.log|
  {
    && s.log[k].start + o < |s.tape|
    && s.tape[s.log[k].start + o] == if o < Cleared(s, k) then NOT_READY else Image(s.log[k], o)
  }

  ghost predicate EntryOk(s: State, k: nat)
    requires k < |s.log|
  {
    && (forall o: nat :: o < Words(s.log[k].msg.payload_size) ==> WordOk(s, k, o))
    && (s.log[k].ready ==> s.log[k].written == |Content(s.log[k].msg)|)
    && (!s.log[k].ready ==> s.log[k].owner < |s.producers| && Filling(s.producers[s.log[k].owner], k))
  }

  predicate Filling(p: Producer, k: nat) { (p.Fill? || p.Commit?) && p.k == k }

  ghost predicate FreeOk(s: State) {
    forall p :: s.write_pos <= p < |s.tape| ==> s.tape[p] == NOT_READY
  }

  ghost predicate ProducerOk(s: State, t: nat)
    requires t < |s.producers|
  {
    match s.producers[t]
    case Idle => true
    case LoadRead(m) => ValidMsg(m)
    case LoadWrite(m, r) => ValidMsg(m) && r <= s.read_pos
    case CasWrite(m, r, w) => ValidMsg(m) && r <= s.read_pos && w <= s.write_pos
      && w - r <= s.size - Words(m.payload_size)
    case Fill(m, w, j, k) => |s.received| <= k < |s.log| && s.log[k] == Entry(w, m, j, false, t) && j < |Content(m)|
    case Commit(m, w, k) => |s.received| <= k < |s.log| && s.log[k] == Entry(w, m, |Content(m)|, false, t)
  }

  /** Past the peek, the message at read_pos is committed, and what has been
      read of it is what its producer wrote. */
  ghost predicate ConsumerOk(s: State) {
    var c, k := s.consumer, |s.received|;
    && (!c.Waiting? ==> k < |s.log|)
    && (!c.Waiting? && !c.PeekId? && k < |s.log| ==> s.log[k].ready)
    && (c.Reading? && k < |s.log| ==>
          c.id == s.log[k].msg.id && |c.words| < |Content(s.log[k].msg)|
            && c.words == Content(s.log[k].msg)[..|c.words|])
    && ((c.LoadSize? || c.Clear? || c.AdvanceRead?) && k < |s.log| ==> c.m == s.log[k].msg)
    && ((c.Clear? || c.AdvanceRead?) && k < |s.log| ==> c.n == Words(c.m.payload_size))
    && (c.Clear? ==> c.j < c.n)
  }

  ghost predicate ReceivedOk(s: State) {
    && |s.received| <= |s.log|
    && forall k :: 0 <= k < |s.received| ==> s.received[k] == s.log[k].msg && s.log[k].ready
  }

  ghost predicate Inv(s: State) {
    && Shape(s) && Tiled(s) && RingOk(s) && FreeOk(s) && ConsumerOk(s) && ReceivedOk(s)
    && (forall k :: |s.received| <= k < |s.log| ==> EntryOk(s, k))
    && (forall t :: 0 <= t < |s.producers| ==> ProducerOk(s, t))
  }

  ghost predicate Init(s: State) {
    && s.size > 0 && s.read_pos == s.write_pos == 0 && s.cells == Zeros(s.size) && s.tape == Zeros(s.size)
    && (forall t :: 0 <= t < |s.producers| ==> s.producers[t] == Idle) && s.consumer == Waiting
    && s.log == [] && s.received == []
  }

  lemma InitInv(s: State)
    requires Init(s)
    ensures Inv(s)
  {
    forall p | 0 <= p < s.size ensures s.cells[p % s.size] == s.tape[p] { DivUnique(p, 0, p, s.size); }
  }

  // ----------------------------------------------------------- preservation

  /** Writing inside the window leaves the ring a window of the tape. */
  lemma WriteKeepsRing(s: State, p: nat, v: nat)
    requires s.size > 0 && |s.cells| == s.size && |s.tape| == s.read_pos + s.size && RingOk(s)
    requires s.read_pos <= p < |s.tape|
    ensures RingOk(Write(s, p, v))
  {
    forall q: nat | s.read_pos <= q < |s.tape| && q != p ensures q % s.size != p % s.size {
      if q < p { DistinctSlots(q, p, s.size); } else { DistinctSlots(p, q, s.size); }
    }
  }

  /** Steps that touch neither the stream nor the log: entries stay as they are. */
  lemma EntriesSame(s: State, s': State, k: nat)
    requires k < |s.log| && EntryOk(s, k) && s'.log == s.log && s'.tape == s.tape
    requires Cleared(s', k) == Cleared(s, k)
    requires !s.log[k].ready ==>
      s.log[k].owner < |s'.producers| && s'.producers[s.log[k].owner] == s.producers[s.log[k].owner]
    ensures EntryOk(s', k)
  {
    forall o: nat | o < Words(s.log[k].msg.payload_size) ensures WordOk(s', k, o) { assert WordOk(s, k, o); }
  }

  lemma QuietProducer(s: State, t: nat, p: Producer)
    requires Inv(s) && t < |s.producers| && !s.producers[t].Fill? && !s.producers[t].Commit?
    requires !p.Fill? && !p.Commit? && ProducerOk(Go(s, t, p), t)
    ensures Inv(Go(s, t, p))
  {
    var s' := Go(s, t, p);
    TiledSame(s, s');
    forall u | 0 <= u < |s'.producers| ensures ProducerShape(s', s'.producers[u]) && ProducerOk(s', u) {
      assert ProducerShape(s, s.producers[u]) && ProducerOk(s, u);
    }
    forall k | |s.received| <= k < |s.log| ensures EntryOk(s', k) { assert EntryOk(s, k); EntriesSame(s, s', k); }
  }

  lemma QuietConsumer(s: State, c: Consumer)
    requires Inv(s) && !c.Clear? && !c.AdvanceRead? && !s.consumer.Clear? && !s.consumer.AdvanceRead?
    requires Shape(s.(consumer := c)) && ConsumerOk(s.(consumer := c))
    ensures Inv(s.(consumer := c))
  {
    var s' := s.(consumer := c);
    TiledSame(s, s');
    forall u | 0 <= u < |s'.producers| ensures ProducerOk(s', u) { assert ProducerOk(s, u); }
    forall k | |s.received| <= k < |s.log| ensures EntryOk(s', k) { assert EntryOk(s, k); EntriesSame(s, s', k); }
  }

  lemma AllocEntry(s: State, s': State, t: nat, k: nat)
    requires Tiled(s) && FreeOk(s) && t < |s.producers| && s.producers[t].CasWrite? && s.write_pos == s.producers[t].w
    requires Shape(s) && s' == ProducerNext(s, t, None) && ProducerOk(s, t)
    requires k < |s'.log| && (k < |s.log| ==> EntryOk(s, k))
    ensures EntryOk(s', k)
  {
    if k < |s.log| {
      EntriesSameLonger(s, s', k);
    } else {
      forall o: nat | o < Words(s'.log[k].msg.payload_size) ensures WordOk(s', k, o) {}
    }
  }

  lemma EntriesSameLonger(s: State, s': State, k: nat)
    requires k < |s.log| && EntryOk(s, k) && k < |s'.log| && s'.log[k] == s.log[k] && s'.tape == s.tape
    requires Cleared(s', k) == Cleared(s, k)
    requires !s.log[k].ready ==>
      s.log[k].owner < |s'.producers| && s'.producers[s.log[k].owner] == s.producers[s.log[k].owner]
    ensures EntryOk(s', k)
  {
    forall o: nat | o < Words(s.log[k].msg.payload_size) ensures WordOk(s', k, o) { assert WordOk(s, k, o); }
  }

  lemma AllocTiled(s: State, s': State, t: nat)
    requires Tiled(s) && t < |s.producers| && s.producers[t].CasWrite? && s.write_pos == s.producers[t].w
    requires Shape(s) && s' == ProducerNext(s, t, None) && ProducerOk(s, t)
    ensures Tiled(s')
  {
    OneMoreTile(s, s', s'.log[|s.log|]);
  }

  lemma OneMoreTile(s: State, s': State, e: Entry)
    requires Tiled(s) && s'.log == s.log + [e] && s'.received == s.received && s'.size == s.size
    requires s'.read_pos == s.read_pos && s'.write_pos == End(e) <= s.read_pos + s.size
    requires e.start == s.write_pos && e.start <= End(e) && ValidMsg(e.msg) && e.written <= |Content(e.msg)|
    ensures Tiled(s')
  {
    forall k | 0 <= k < |s'.log| ensures Adjacent(s', k) { if k < |s.log| { assert Adjacent(s, k); } }
  }

  /** The tiling depends only on the extents of the messages. */
  lemma TiledSame(s: State, s': State)
    requires Tiled(s) && s'.read_pos == s.read_pos && s'.write_pos == s.write_pos && s'.size == s.size
    requires s'.received == s.received && |s'.log| == |s.log|
    requires forall k :: 0 <= k < |s.log| ==> s'.log[k].start == s.log[k].start && s'.log[k].msg == s.log[k].msg
    requires forall k :: 0 <= k < |s.log| ==> s'.log[k].written <= |Content(s.log[k].msg)|
    ensures Tiled(s')
  {
    forall k | 0 <= k < |s'.log| ensures Adjacent(s', k) { assert Adjacent(s, k); }
  }

  /** The winning CAS: the range claimed lies in the window and is all zero. */
  lemma AllocStep(s: State, t: nat, call: Option<Msg>)
    requires Inv(s) && t < |s.producers| && s.producers[t].CasWrite? && s.write_pos == s.producers[t].w
    ensures Inv(ProducerNext(s, t, call))
  {
    var s' := ProducerNext(s, t, call);
    assert ProducerOk(s, t);
    SizeIsWords(s.producers[t].m.payload_size);
    AllocTiled(s, s', t);
    AllocProducers(s, s', t);
    forall k | |s'.received| <= k < |s'.log| ensures EntryOk(s', k) { AllocEntry(s, s', t, k); }
  }

  lemma AllocProducers(s: State, s': State, t: nat)
    requires Shape(s) && Tiled(s) && t < |s.producers| && s.producers[t].CasWrite? && s.write_pos == s.producers[t].w
    requires s' == ProducerNext(s, t, None) && forall u :: 0 <= u < |s.producers| ==> ProducerOk(s, u)
    ensures forall u :: 0 <= u < |s'.producers| ==> ProducerShape(s', s'.producers[u]) && ProducerOk(s', u)
  {
    assert ProducerOk(s, t);
    SizeIsWords(s.producers[t].m.payload_size);
    forall u | 0 <= u < |s'.producers| ensures ProducerShape(s', s'.producers[u]) && ProducerOk(s', u) {
      assert ProducerShape(s, s.producers[u]) && ProducerOk(s, u);
    }
  }

  /** Thread t's write to its own entry k changes nobody else's place. */
  lemma OthersKeepFilling(s: State, s': State, t: nat, u: nat, k: nat)
    requires t < |s.producers| && u < |s.producers| && u != t ==> ProducerShape(s, s.producers[u]) && ProducerOk(s, u)
    requires t < |s.producers| == |s'.producers| && u < |s.producers|
    requires k < |s.log| == |s'.log| && s.log[k].owner == t && s'.log == s.log[k := s'.log[k]]
    requires s'.producers == s.producers[t := s'.producers[t]] && |s'.tape| == |s.tape|
    requires s'.read_pos == s.read_pos && s'.write_pos == s.write_pos && s'.size == s.size && s'.received == s.received
    ensures u != t ==> ProducerShape(s', s'.producers[u]) && ProducerOk(s', u)
  {
  }

  lemma FillStep(s: State, t: nat, call: Option<Msg>)
    requires Inv(s) && t < |s.producers| && s.producers[t].Fill?
    ensures Inv(ProducerNext(s, t, call))
  {
    var s' := ProducerNext(s, t, call);
    assert ProducerOk(s, t) && ProducerShape(s, s.producers[t]);
    SizeIsWords(s.producers[t].m.payload_size);
    EntryInside(s, s.producers[t].k);
    FillRing(s, s', t);
    TiledSame(s, s');
    FillProducers(s, s', t);
    FillEntries(s, s', t);
  }

  lemma FillRing(s: State, s': State, t: nat)
    requires Shape(s) && Tiled(s) && RingOk(s) && FreeOk(s) && t < |s.producers| && s.producers[t].Fill?
      && ProducerOk(s, t)
    requires s' == ProducerNext(s, t, None)
    ensures |s'.cells| == |s.cells| && |s'.tape| == |s.tape| && RingOk(s') && FreeOk(s')
  {
    var Fill(m, w, j, k) := s.producers[t];
    SizeIsWords(m.payload_size);
    EntryInside(s, k);
    WriteKeepsRing(s, w + 1 + j, Content(m)[j]);
  }

  lemma FillProducers(s: State, s': State, t: nat)
    requires Shape(s) && Tiled(s) && t < |s.producers| && s.producers[t].Fill? && s' == ProducerNext(s, t, None)
    requires forall u :: 0 <= u < |s.producers| ==> ProducerOk(s, u)
    ensures forall u :: 0 <= u < |s'.producers| ==> ProducerShape(s', s'.producers[u]) && ProducerOk(s', u)
  {
    assert ProducerOk(s, t) && ProducerShape(s, s.producers[t]);
    SizeIsWords(s.producers[t].m.payload_size);
    EntryInside(s, s.producers[t].k);
    forall u | 0 <= u < |s'.producers| ensures ProducerShape(s', s'.producers[u]) && ProducerOk(s', u) {
      assert ProducerShape(s, s.producers[u]) && ProducerOk(s, u);
      OthersKeepFilling(s, s', t, u, s.producers[t].k);
    }
  }

  lemma FillEntries(s: State, s': State, t: nat)
    requires Shape(s) && Tiled(s) && ConsumerOk(s) && t < |s.producers| && s.producers[t].Fill? && ProducerOk(s, t)
    requires s' == ProducerNext(s, t, None) && forall i :: |s.received| <= i < |s.log| ==> EntryOk(s, i)
    ensures forall i :: |s.received| <= i < |s.log| ==> EntryOk(s', i)
  {
    forall i | |s.received| <= i < |s.log| ensures EntryOk(s', i) {
      assert EntryOk(s, i);
      FillEntry(s, s', i, s.producers[t].k, t);
    }
  }

  lemma FillEntry(s: State, s': State, i: nat, k: nat, t: nat)
    requires Shape(s) && Tiled(s) && ConsumerOk(s) && t < |s.producers| && s.producers[t].Fill?
      && ProducerOk(s, t) && k == s.producers[t].k
    requires s' == ProducerNext(s, t, None) && i < |s.log| && EntryOk(s, i)
    ensures EntryOk(s', i)
  {
    var Fill(m, w, j, _) := s.producers[t];
    SizeIsWords(m.payload_size);
    EntryAfterWrite(s, s', i, k, t, 1 + j, Content(m)[j]);
  }

  /** An entry not yet consumed lies inside the window, clear of all others. */
  lemma EntryInside(s: State, k: nat)
    requires Tiled(s) && |s.received| <= k < |s.log|
    ensures s.read_pos <= s.log[k].start && End(s.log[k]) <= s.write_pos
  {
  }

  /** A write into word o of entry k's range shows in entry k only. */
  lemma EntryAfterWrite(s: State, s': State, i: nat, k: nat, t: nat, o: nat, v: nat)
    requires Tiled(s) && |s.received| <= k < |s.log| && i < |s.log| && EntryOk(s, i)
    requires o < Words(s.log[k].msg.payload_size) && s.log[k].start + o < |s.tape|
    requires s'.tape == s.tape[s.log[k].start + o := v] && |s'.log| == |s.log| && s'.log == s.log[k := s'.log[k]]
    requires s'.log[k].start == s.log[k].start && s'.log[k].msg == s.log[k].msg
    requires s'.received == s.received && s'.consumer == s.consumer && Cleared(s, k) == 0
    requires t < |s.producers| == |s'.producers| && s'.producers == s.producers[t := s'.producers[t]]
    requires Filling(s.producers[t], k)
    requires forall q: nat :: q < Words(s.log[k].msg.payload_size) ==>
      Image(s'.log[k], q) == (if q == o then v else Image(s.log[k], q))
    requires s'.log[k].ready ==> s'.log[k].written == |Content(s.log[k].msg)|
    requires !s'.log[k].ready ==> s'.log[k].owner == t && Filling(s'.producers[t], k)
    ensures EntryOk(s', i)
  {
    assert Cleared(s', i) == Cleared(s, i);
    if i != k { assert End(s.log[i]) <= s.log[k].start || End(s.log[k]) <= s.log[i].start; }
    forall q: nat | q < Words(s.log[i].msg.payload_size) ensures WordOk(s', i, q) { assert WordOk(s, i, q); }
  }

  lemma CommitStep(s: State, t: nat, call: Option<Msg>)
    requires Inv(s) && t < |s.producers| && s.producers[t].Commit?
    ensures Inv(ProducerNext(s, t, call))
  {
    var s' := ProducerNext(s, t, call);
    assert ProducerOk(s, t) && ProducerShape(s, s.producers[t]);
    CommitRing(s, s', t);
    TiledSame(s, s');
    CommitProducers(s, s', t);
    CommitEntries(s, s', t);
  }

  lemma CommitRing(s: State, s': State, t: nat)
    requires Shape(s) && Tiled(s) && RingOk(s) && FreeOk(s) && t < |s.producers| && s.producers[t].Commit?
      && ProducerOk(s, t)
    requires s' == ProducerNext(s, t, None)
    ensures |s'.cells| == |s.cells| && |s'.tape| == |s.tape| && RingOk(s') && FreeOk(s')
  {
    var Commit(m, w, k) := s.producers[t];
    SizeIsWords(m.payload_size);
    EntryInside(s, k);
    WriteKeepsRing(s, w, m.id);
  }

  lemma CommitProducers(s: State, s': State, t: nat)
    requires Shape(s) && Tiled(s) && t < |s.producers| && s.producers[t].Commit? && s' == ProducerNext(s, t, None)
    requires forall u :: 0 <= u < |s.producers| ==> ProducerOk(s, u)
    ensures forall u :: 0 <= u < |s'.producers| ==> ProducerShape(s', s'.producers[u]) && ProducerOk(s', u)
  {
    assert ProducerOk(s, t);
    forall u | 0 <= u < |s'.producers| ensures ProducerShape(s', s'.producers[u]) && ProducerOk(s', u) {
      assert ProducerShape(s, s.producers[u]) && ProducerOk(s, u);
      OthersKeepFilling(s, s', t, u, s.producers[t].k);
    }
  }

  lemma CommitEntries(s: State, s': State, t: nat)
    requires Shape(s) && Tiled(s) && ConsumerOk(s) && t < |s.producers| && s.producers[t].Commit? && ProducerOk(s, t)
    requires s' == ProducerNext(s, t, None) && forall i :: |s.received| <= i < |s.log| ==> EntryOk(s, i)
    ensures forall i :: |s.received| <= i < |s.log| ==> EntryOk(s', i)
  {
    var Commit(m, w, k) := s.producers[t];
    SizeIsWords(m.payload_size);
    EntryInside(s, k);
    forall i | |s.received| <= i < |s.log| ensures EntryOk(s', i) {
      assert EntryOk(s, i) && EntryOk(s, k);
      EntryAfterWrite(s, s', i, k, t, 0, m.id);
    }
  }

  lemma ProducerStep(s: State, t: nat, call: Option<Msg>)
    requires Inv(s) && t < |s.producers|
    ensures Inv(ProducerNext(s, t, call))
  {
    assert ProducerOk(s, t);
    match s.producers[t] {
      case Idle => if call.Some? && ValidMsg(call.value) { QuietProducer(s, t, LoadRead(call.value)); }
      case LoadRead(m) => QuietProducer(s, t, LoadWrite(m, s.read_pos));
      case LoadWrite(m, r) =>
        if s.write_pos - r > s.size - Words(m.payload_size) { QuietProducer(s, t, Idle); }
        else { QuietProducer(s, t, CasWrite(m, r, s.write_pos)); }
      case CasWrite(m, r, w) => if s.write_pos == w { AllocStep(s, t, call); }
        else { QuietProducer(s, t, LoadRead(m)); }
      case Fill(_, _, _, _) => FillStep(s, t, call);
      case Commit(_, _, _) => CommitStep(s, t, call);
    }
  }

  /** What the consumer reads at word o of the message at read_pos. */
  lemma ReadsImage(s: State, o: nat)
    requires Inv(s) && |s.received| < |s.log| && o < Words(s.log[|s.received|].msg.payload_size)
    requires !s.consumer.Clear? && !s.consumer.AdvanceRead?
    ensures s.cells[(s.read_pos + o) % s.size] == Image(s.log[|s.received|], o)
  {
    var k := |s.received|;
    assert EntryOk(s, k) && WordOk(s, k, o);
  }

  lemma PeekStep(s: State)
    requires Inv(s) && (s.consumer.Waiting? || s.consumer.PeekId?)
    ensures Inv(ConsumerNext(s))
  {
    if s.consumer.PeekId? { SizeIsWords(s.log[|s.received|].msg.payload_size); ReadsImage(s, 0); }
    QuietConsumer(s, ConsumerNext(s).consumer);
  }

  lemma ReadStep(s: State)
    requires Inv(s) && s.consumer.Reading?
    ensures Inv(ConsumerNext(s))
  {
    var m := s.log[|s.received|].msg;
    var words := s.consumer.words;
    assert EntryOk(s, |s.received|);
    SizeIsWords(m.payload_size);
    ReadsImage(s, 1 + |words|);
    var words' := words + [s.cells[(s.read_pos + 1 + |words|) % s.size]];
    assert words' == Content(m)[..|words'|];
    assert words'[0] == m.payload_size && |Content(m)| == ContentWords(words'[0]);
    if |words'| == |Content(m)| { assert words' == Content(m); RebuildContent(m); }
    QuietConsumer(s, ConsumerNext(s).consumer);
  }

  /** The consumer alone touches the entry at read_pos while clearing it. */
  lemma ClearFrame(s: State, s': State)
    requires Inv(s) && (s.consumer.LoadSize? || s.consumer.Clear?) && |s.received| < |s.log|
    requires s' == s.(cells := s'.cells, tape := s'.tape, consumer := s'.consumer) && |s'.tape| == |s.tape|
      && |s'.cells| == |s.cells|
    requires s'.consumer.Clear? || s'.consumer.AdvanceRead?
    requires RingOk(s') && ConsumerOk(s')
    requires forall p :: End(s.log[|s.received|]) <= p < |s.tape| ==> s'.tape[p] == s.tape[p]
    requires EntryOk(s', |s.received|)
    ensures Inv(s')
  {
    TiledSame(s, s');
    forall u | 0 <= u < |s'.producers| ensures ProducerShape(s', s'.producers[u]) && ProducerOk(s', u) {
      assert ProducerShape(s, s.producers[u]) && ProducerOk(s, u);
    }
    forall k | |s.received| < k < |s.log| ensures EntryOk(s', k) { assert EntryOk(s, k); LaterEntryKept(s, s', k); }
  }

  lemma LaterEntryKept(s: State, s': State, k: nat)
    requires Tiled(s) && |s.received| < k < |s.log| && EntryOk(s, k) && Cleared(s', k) == Cleared(s, k) == 0
    requires s' == s.(cells := s'.cells, tape := s'.tape, consumer := s'.consumer) && |s'.tape| == |s.tape|
    requires forall p :: End(s.log[|s.received|]) <= p < |s.tape| ==> s'.tape[p] == s.tape[p]
    ensures EntryOk(s', k)
  {
    forall q: nat | q < Words(s.log[k].msg.payload_size) ensures WordOk(s', k, q) { assert WordOk(s, k, q); }
  }

  lemma LoadSizeStep(s: State)
    requires Inv(s) && s.consumer.LoadSize?
    ensures Inv(ConsumerNext(s))
  {
    var s' := ConsumerNext(s);
    var k := |s.received|;
    assert EntryOk(s, k);
    SizeIsWords(s.consumer.m.payload_size);
    ReadsImage(s, 1);
    forall q: nat | q < Words(s.log[k].msg.payload_size) ensures WordOk(s', k, q) { assert WordOk(s, k, q); }
    ClearFrame(s, s');
  }

  lemma ClearEntry(s: State, s': State, k: nat)
    requires Tiled(s) && ConsumerOk(s) && Shape(s) && s.consumer.Clear? && k == |s.received| < |s.log| && EntryOk(s, k)
    requires s' == ConsumerNext(s)
    ensures EntryOk(s', k)
  {
    forall q: nat | q < Words(s.log[k].msg.payload_size) ensures WordOk(s', k, q) { assert WordOk(s, k, q); }
  }

  lemma ClearStep(s: State)
    requires Inv(s) && s.consumer.Clear?
    ensures Inv(ConsumerNext(s))
  {
    var k := |s.received|;
    assert EntryOk(s, k) && WordOk(s, k, s.consumer.j);
    WriteKeepsRing(s, s.read_pos + s.consumer.j, NOT_READY);
    ClearEntry(s, ConsumerNext(s), k);
    ClearFrame(s, ConsumerNext(s));
  }

  /** read_pos moves past a cleared message: the ring's window slides over the
      cleared words, which become free space again. */
  lemma AdvanceRing(s: State, s': State)
    requires Shape(s) && Tiled(s) && RingOk(s) && ConsumerOk(s) && s.consumer.AdvanceRead? && s' == ConsumerNext(s)
    requires EntryOk(s, |s.received|) && s.consumer.n <= s.size
    ensures RingOk(s')
  {
    var k := |s.received|;
    forall p | s'.read_pos <= p < |s'.tape| ensures s'.cells[p % s.size] == s'.tape[p] {
      if p >= |s.tape| {
        var q := p - s.size;
        assert WordOk(s, k, q - s.read_pos);
        ModShift(s.size, q, s.size);
        assert p % s.size == q % s.size;
      }
    }
  }

  lemma AdvanceEntry(s: State, s': State, i: nat)
    requires Shape(s) && s.consumer.AdvanceRead? && s' == ConsumerNext(s) && |s'.received| <= i < |s.log|
      && EntryOk(s, i)
    ensures EntryOk(s', i)
  {
    forall q: nat | q < Words(s.log[i].msg.payload_size) ensures WordOk(s', i, q) { assert WordOk(s, i, q); }
  }

  lemma AdvanceProducer(s: State, s': State, u: nat)
    requires Shape(s) && ConsumerOk(s) && s.consumer.AdvanceRead? && s' == ConsumerNext(s) && u < |s.producers|
      && ProducerOk(s, u)
    ensures ProducerShape(s', s'.producers[u]) && ProducerOk(s', u)
  {
    assert ProducerShape(s, s.producers[u]);
  }

  lemma AdvanceStep(s: State)
    requires Inv(s) && s.consumer.AdvanceRead?
    ensures Inv(ConsumerNext(s))
  {
    var s' := ConsumerNext(s);
    var k := |s.received|;
    assert EntryOk(s, k) && Adjacent(s, k);
    AdvanceRing(s, s');
    AdvanceTiled(s, s');
    AdvanceProducers(s, s');
    AdvanceEntries(s, s');
  }

  lemma AdvanceProducers(s: State, s': State)
    requires Inv(s) && s.consumer.AdvanceRead? && s' == ConsumerNext(s)
    ensures forall u :: 0 <= u < |s'.producers| ==> ProducerShape(s', s'.producers[u]) && ProducerOk(s', u)
  {
    forall u | 0 <= u < |s'.producers| ensures ProducerShape(s', s'.producers[u]) && ProducerOk(s', u) {
      assert ProducerOk(s, u);
      AdvanceProducer(s, s', u);
    }
  }

  lemma AdvanceTiled(s: State, s': State)
    requires Shape(s) && Tiled(s) && ConsumerOk(s) && s.consumer.AdvanceRead? && s' == ConsumerNext(s)
    ensures Tiled(s')
  {
    assert Adjacent(s, |s.received|);
    forall i | 0 <= i < |s'.log| ensures Adjacent(s', i) { assert Adjacent(s, i); }
  }

  lemma AdvanceEntries(s: State, s': State)
    requires Shape(s) && s.consumer.AdvanceRead? && s' == ConsumerNext(s) && |s'.received| >= |s.received|
    requires forall i :: |s.received| <= i < |s.log| ==> EntryOk(s, i)
    ensures forall i :: |s'.received| <= i < |s.log| ==> EntryOk(s', i)
  {
    forall i | |s'.received| <= i < |s.log| ensures EntryOk(s', i) { assert EntryOk(s, i); AdvanceEntry(s, s', i); }
  }

  lemma ConsumerStep(s: State)
    requires Inv(s)
    ensures Inv(ConsumerNext(s))
  {
    match s.consumer
    case Waiting => PeekStep(s);
    case PeekId => PeekStep(s);
    case Reading(_, _) => ReadStep(s);
    case LoadSize(_) => LoadSizeStep(s);
    case Clear(_, _, _) => ClearStep(s);
    case AdvanceRead(_, _) => AdvanceStep(s);
  }

  lemma StepKeepsInv(s: State, e: Event)
    requires Inv(s) && (e.Send? ==> e.t < |s.producers|)
    ensures Inv(Next(s, e))
  {
    match e
    case Send(t, call) => ProducerStep(s, t, call);
    case Receive => ConsumerStep(s);
  }

  // ------------------------------------------------------------- whole runs

  ghost function Run(s: State, es: seq<Event>): (r: State)
    requires Inv(s)
    ensures Inv(r) && |r.producers| == |s.producers|
    decreases |es|
  {
    if es == [] then s
    else if es[0].Send? && es[0].t >= |s.producers| then Run(s, es[1..])
    else
      StepKeepsInv(s, es[0]);
      NextProducers(s, es[0]);
      var s' := Next(s, es[0]);
      Run(s', es[1..])
  }

  lemma NextProducers(s: State, e: Event)
    requires Shape(s) && (e.Send? ==> e.t < |s.producers|)
    ensures |Next(s, e).producers| == |s.producers|
  {
  }

  /** Whatever the interleaving, what the consumer has received is the messages
      allocated so far, in the order of their winning compare-and-swaps, none
      skipped or repeated, each one word for word as its producer meant it, and
      each one committed. */
  lemma ConsumedOnceIntactInOrder(s0: State, es: seq<Event>)
    requires Init(s0)
    ensures Inv(s0)
    ensures var s := Run(s0, es);
      && |s.received| <= |s.log|
      && forall k :: 0 <= k < |s.received| ==> s.received[k] == s.log[k].msg && s.log[k].ready
  {
    InitInv(s0);
  }

  /** No two messages in the ring share a word of it, and every word of the ring
      outside them reads "not ready". */
  lemma RangesNeverOverlap(s0: State, es: seq<Event>, i: nat, k: nat, p: nat, q: nat)
    requires Init(s0)
    requires Inv(s0) ==> var s := Run(s0, es);
      |s.received| <= i < k < |s.log| && s.log[i].start <= p < End(s.log[i]) && s.log[k].start <= q < End(s.log[k])
    ensures Inv(s0)
    ensures p % s0.size != q % s0.size
  {
    InitInv(s0);
    var s := Run(s0, es);
    RunSize(s0, es);
    assert Adjacent(s, i);
    EntryInside(s, i);
    DistinctSlots(p, q, s.size);
  }

  lemma {:induction false} RunSize(s: State, es: seq<Event>)
    requires Inv(s)
    ensures Run(s, es).size == s.size
    decreases |es|
  {
    if es != [] {
      if es[0].Send? && es[0].t >= |s.producers| { RunSize(s, es[1..]); }
      else {
        StepKeepsInv(s, es[0]);
        NextSize(s, es[0]);
        RunSize(Next(s, es[0]), es[1..]);
      }
    }
  }

  lemma NextSize(s: State, e: Event)
    requires Shape(s) && (e.Send? ==> e.t < |s.producers|)
    ensures Next(s, e).size == s.size
  {
  }

  lemma FreeSpaceNotReady(s: State, p: nat)
    requires Inv(s) && s.write_pos <= p < s.read_pos + s.size
    ensures s.cells[p % s.size] == NOT_READY
  {
  }

  /** A winning allocation gets words that no live message uses, all zero, so the
      new message is not ready until its producer commits it. */
  lemma AllocationIsFresh(s: State, t: nat, p: nat, q: nat)
    requires Inv(s) && t < |s.producers| && s.producers[t].CasWrite? && s.producers[t].w == s.write_pos
    requires s.write_pos <= p < s.write_pos + Words(s.producers[t].m.payload_size)
    requires s.read_pos <= q < s.write_pos
    ensures s.cells[p % s.size] == NOT_READY && p % s.size != q % s.size
  {
    assert ProducerOk(s, t);
    DistinctSlots(q, p, s.size);
  }

  /** CommitMessage's assertion: the id is still "not ready". */
  lemma CommitFindsNotReady(s: State, t: nat)
    requires Inv(s) && t < |s.producers| && s.producers[t].Commit?
    ensures s.cells[s.producers[t].w % s.size] == NOT_READY
  {
    assert ProducerOk(s, t);
    var k := s.producers[t].k;
    SizeIsWords(s.log[k].msg.payload_size);
    assert EntryOk(s, k) && WordOk(s, k, 0);
    EntryInside(s, k);
  }

  /** The consumer's peek succeeds exactly when there is a next message and its
      producer has committed it. */
  lemma PeekSeesExactlyCommitted(s: State)
    requires Inv(s) && s.consumer.PeekId?
    ensures ConsumerNext(s).consumer.Reading? <==> s.log[|s.received|].ready
  {
    var k := |s.received|;
    SizeIsWords(s.log[k].msg.payload_size);
    ReadsImage(s, 0);
  }

  /** A refusal is never wrong by more than what the consumer freed since
      read_pos was read: it means the message did not fit next to what was then
      in the ring and what has been added since. */
  lemma RefusedExactlyWhenItDoesNotFit(s: State, t: nat)
    requires Inv(s) && t < |s.producers|
    requires s.producers[t].LoadRead? || s.producers[t].LoadWrite? || s.producers[t].CasWrite?
    ensures var p := s.producers[t];
      && (p.LoadWrite? ==> p.r <= s.read_pos)
      && (ProducerNext(s, t, None).producers[t].Idle? <==>
        p.LoadWrite? && s.write_pos + Words(p.m.payload_size) > p.r + s.size)
  {
    assert ProducerOk(s, t);
  }

  // ------------------------------------------------- what a call comes to

  /** The peek's first look ends it exactly when every message has been received. */
  lemma FirstLook(s: State)
    requires Inv(s) && s.consumer.Waiting?
    ensures if |s.received| == |s.log| then ConsumerNext(s) == s else ConsumerNext(s) == s.(consumer := PeekId)
  {
    var k := |s.received|;
    if k < |s.log| { SizeIsWords(s.log[k].msg.payload_size); }
  }

  /** The whole peek: it yields a message exactly when there is a next one and its
      producer has committed it, and else returns, with nothing changed. */
  lemma PeekAlone(s: State)
    requires Inv(s) && s.consumer.Waiting?
    ensures var k := |s.received|; var s1 := ConsumerNext(s);
      && Inv(s1)
      && (k == |s.log| ==> s1 == s)
      && (k < |s.log| && !s.log[k].ready ==> ConsumerNext(s1) == s)
      && (k < |s.log| && s.log[k].ready ==> ConsumerNext(s1) == s.(consumer := Reading(s.log[k].msg.id, [])))
  {
    StepKeepsInv(s, Receive);
    FirstLook(s);
    var k, s1 := |s.received|, ConsumerNext(s);
    if k < |s.log| {
      SizeIsWords(s.log[k].msg.payload_size);
      ReadsImage(s1, 0);
    }
  }

  predicate PastPeek(c: Consumer) { !c.Waiting? && !c.PeekId? }

  /** How many accesses the consumer has still to make for its message. */
  ghost function ReceiveSteps(s: State): int
    requires PastPeek(s.consumer) && |s.received| < |s.log|
  {
    var m := s.log[|s.received|].msg;
    match s.consumer
    case Reading(_, words) => |Content(m)| - |words| + Words(m.payload_size) + 2
    case LoadSize(_) => Words(m.payload_size) + 2
    case Clear(_, n, j) => n - j + 1
    case _ => 1
  }

  lemma ReceiveTurn(s: State)
    requires Inv(s) && PastPeek(s.consumer)
    ensures |s.received| < |s.log| && ReceiveSteps(s) > 0
    ensures var s', k := ConsumerNext(s), |s.received|;
      && Inv(s') && s'.log == s.log
      && (if s'.consumer.Waiting? then s'.received == s.received + [s.log[k].msg]
          else PastPeek(s'.consumer) && s'.received == s.received && ReceiveSteps(s') < ReceiveSteps(s))
  {
    StepKeepsInv(s, Receive);
    SizeIsWords(s.log[|s.received|].msg.payload_size);
  }

  /** Messages stay what they are, whatever producers do. */
  lemma SendLeaves(s: State, t: nat, call: Option<Msg>)
    requires Shape(s) && t < |s.producers|
    ensures var s' := ProducerNext(s, t, call);
      && s'.consumer == s.consumer && s'.received == s.received && |s.log| <= |s'.log|
      && |s'.producers| == |s.producers|
      && (forall u :: 0 <= u < |s.producers| && u != t ==> s'.producers[u] == s.producers[u])
      && (forall k :: 0 <= k < |s.log| ==> s'.log[k].msg == s.log[k].msg)
  {
    assert ProducerShape(s, s.producers[t]);
  }

  function Receives(es: seq<Event>): nat {
    if es == [] then 0 else (if es[0].Receive? then 1 else 0) + Receives(es[1..])
  }

  /** The state after one event of a run; a thread that is not there does nothing. */
  ghost function After(s: State, e: Event): (r: State)
    requires Inv(s)
    ensures Inv(r)
  {
    if e.Send? && e.t >= |s.producers| then s
    else
      StepKeepsInv(s, e);
      Next(s, e)
  }

  lemma RunFirst(s: State, es: seq<Event>, n: nat)
    requires Inv(s) && n < |es|
    ensures Run(s, es[..n + 1]) == Run(After(s, es[0]), es[1..][..n])
  {
    assert es[..n + 1][0] == es[0] && es[..n + 1][1..] == es[1..][..n];
  }

  lemma ReceiveEvent(s: State, e: Event)
    requires Inv(s) && PastPeek(s.consumer)
    ensures |s.received| < |s.log| && ReceiveSteps(s) > 0
    ensures var s', k := After(s, e), |s.received|;
      && (s'.consumer.Waiting? ==> s'.received == s.received + [s.log[k].msg])
      && (!s'.consumer.Waiting? ==>
        && PastPeek(s'.consumer) && s'.received == s.received && k < |s'.log| && s'.log[k].msg == s.log[k].msg
        && ReceiveSteps(s') <= ReceiveSteps(s) - if e.Receive? then 1 else 0)
  {
    ReceiveTurn(s);
    if e.Send? && e.t < |s.producers| { SendLeaves(s, e.t, e.call); }
  }

  /** Once the peek has yielded a message, the consumer receives it, whatever
      producers do meanwhile. */
  lemma {:induction false} ReceiveEnds(s: State, es: seq<Event>) returns (n: nat)
    requires Inv(s) && PastPeek(s.consumer) && |s.received| < |s.log| && Receives(es) >= ReceiveSteps(s)
    ensures n <= |es| && Run(s, es[..n]).consumer.Waiting?
    ensures Run(s, es[..n]).received == s.received + [s.log[|s.received|].msg]
    decreases |es|
  {
    assert es != [] by { ReceiveTurn(s); }
    var s' := After(s, es[0]);
    ReceiveEvent(s, es[0]);
    n := 0;
    if s'.consumer.Waiting? { assert es[1..][..0] == []; } else { n := ReceiveEnds(s', es[1..]); }
    RunFirst(s, es, n);
    n := n + 1;
  }

  predicate Fits(s: State, m: Msg) { s.write_pos + Words(m.payload_size) <= s.read_pos + s.size }

  /** What an allocation leaves: the words are the message's, next in the stream. */
  function Allocated(s: State, t: nat, m: Msg): State
    requires t < |s.producers|
  {
    Go(s, t, Fill(m, s.write_pos, 0, |s.log|)).(
      write_pos := s.write_pos + Words(m.payload_size), log := s.log + [Entry(s.write_pos, m, 0, false, t)])
  }

  /** The producer's next n accesses, with nobody else's between them. */
  ghost function SendAlone(s: State, t: nat, n: nat): State
    requires Inv(s) && t < |s.producers|
    decreases n
  {
    if n == 0 then s
    else
      StepKeepsInv(s, Send(t, None));
      NextProducers(s, Send(t, None));
      SendAlone(ProducerNext(s, t, None), t, n - 1)
  }

  lemma AloneNext(s: State, t: nat, n: nat)
    requires Inv(s) && t < |s.producers| && n > 0
    ensures Inv(ProducerNext(s, t, None)) && |ProducerNext(s, t, None).producers| == |s.producers|
    ensures SendAlone(s, t, n) == SendAlone(ProducerNext(s, t, None), t, n - 1)
  {
    StepKeepsInv(s, Send(t, None));
    NextProducers(s, Send(t, None));
  }

  lemma GoTwice(s: State, t: nat, p: Producer, q: Producer)
    requires t < |s.producers|
    ensures Go(Go(s, t, p), t, q) == Go(s, t, q)
  {
    assert s.producers[t := p][t := q] == s.producers[t := q];
  }

  /** The test for room and what follows it, when nothing has changed since the
      loads before it. */
  lemma RoomAlone(s: State, t: nat, m: Msg)
    requires Inv(s) && t < |s.producers| && s.producers[t] == LoadWrite(m, s.read_pos)
    ensures Fits(s, m) ==> SendAlone(s, t, 2) == Allocated(s, t, m)
    ensures !Fits(s, m) ==> SendAlone(s, t, 1) == Go(s, t, Idle)
  {
    AloneNext(s, t, 1);
    if Fits(s, m) {
      var p := CasWrite(m, s.read_pos, s.write_pos);
      AloneNext(s, t, 2);
      AloneNext(Go(s, t, p), t, 1);
      GoTwice(s, t, p, Fill(m, s.write_pos, 0, |s.log|));
    }
  }

  /** An allocation that nobody disturbs: refused, with nothing changed, exactly
      when the message does not fit in the ring. */
  lemma AllocAlone(s: State, t: nat)
    requires Inv(s) && t < |s.producers| && s.producers[t].LoadRead?
    ensures var m := s.producers[t].m;
      && (Fits(s, m) ==> SendAlone(s, t, 3) == Allocated(s, t, m))
      && (!Fits(s, m) ==> SendAlone(s, t, 2) == Go(s, t, Idle))
  {
    var m := s.producers[t].m;
    var s1 := Go(s, t, LoadWrite(m, s.read_pos));
    AloneNext(s, t, 2);
    AloneNext(s, t, 3);
    RoomAlone(s1, t, m);
    GoTwice(s, t, s1.producers[t], Idle);
    GoTwice(s, t, s1.producers[t], Fill(m, s.write_pos, 0, |s.log|));
  }

  /** How many accesses a producer has still to make for its message. */
  function SendSteps(p: Producer): int {
    match p
    case Fill(m, _, j, _) => |Content(m)| - j + 1
    case Commit(_, _, _) => 1
    case _ => 0
  }

  predicate Sending(p: Producer) { p.Fill? || p.Commit? }

  lemma SendTurn(s: State, t: nat, call: Option<Msg>)
    requires Inv(s) && t < |s.producers| && Sending(s.producers[t])
    ensures var s', k := ProducerNext(s, t, call), s.producers[t].k;
      && SendSteps(s.producers[t]) > 0 && |s'.producers| == |s.producers| && k < |s.log| == |s'.log|
      && (s'.producers[t].Idle? ==> s'.log[k].ready)
      && (!s'.producers[t].Idle? ==>
        && Sending(s'.producers[t]) && s'.producers[t].k == k
        && SendSteps(s'.producers[t]) == SendSteps(s.producers[t]) - 1)
  {
    assert ProducerOk(s, t) && ProducerShape(s, s.producers[t]);
  }

  function Sends(es: seq<Event>, t: nat): nat {
    if es == [] then 0 else (if es[0].Send? && es[0].t == t then 1 else 0) + Sends(es[1..], t)
  }

  lemma ReceiveLeaves(s: State)
    requires Shape(s)
    ensures ConsumerNext(s).producers == s.producers && ConsumerNext(s).log == s.log
  {
  }

  lemma SendEvent(s: State, e: Event, t: nat)
    requires Inv(s) && t < |s.producers| && Sending(s.producers[t])
    ensures SendSteps(s.producers[t]) > 0
    ensures var s', p := After(s, e), s.producers[t];
      && |s'.producers| == |s.producers| && p.k < |s'.log|
      && (s'.producers[t].Idle? ==> Committed(s', t, p.k))
      && (!s'.producers[t].Idle? ==>
        && Sending(s'.producers[t]) && s'.producers[t].k == p.k
        && SendSteps(s'.producers[t]) <= SendSteps(p) - if e.Send? && e.t == t then 1 else 0)
  {
    SendTurn(s, t, None);
    if e.Receive? { ReceiveLeaves(s); }
    else if e.t == t { SendTurn(s, t, e.call); }
    else if e.t < |s.producers| { SendLeaves(s, e.t, e.call); }
  }

  predicate Committed(s: State, t: nat, k: nat) {
    t < |s.producers| && s.producers[t].Idle? && k < |s.log| && s.log[k].ready
  }

  /** A message that has been allocated is committed, whatever others do meanwhile. */
  lemma {:induction false} SendEnds(s: State, es: seq<Event>, t: nat) returns (n: nat)
    requires Inv(s) && t < |s.producers| && Sending(s.producers[t]) && Sends(es, t) >= SendSteps(s.producers[t])
    ensures n <= |es| && Committed(Run(s, es[..n]), t, s.producers[t].k)
    decreases |es|
  {
    assert es != [] by { SendTurn(s, t, None); }
    var s' := After(s, es[0]);
    SendEvent(s, es[0], t);
    n := 0;
    if s'.producers[t].Idle? { assert es[1..][..0] == []; } else { n := SendEnds(s', es[1..], t); }
    RunFirst(s, es, n);
    n := n + 1;
  }

  // ------------------------------------------------------ the code, in place

  /** The queue's fields.  Each method makes one step of the code and says what
      the whole new state is; StepKeepsInv is what keeps Inv from step to step. */
  class Queue {
    var size: nat
    var read_pos: nat
    var write_pos: nat
    var cells: seq<nat>
    var producers: seq<Producer>
    var consumer: Consumer
    var log: seq<Entry>             // bookkeeping
    ghost var tape: seq<nat>
    ghost var received: seq<Msg>

    ghost function View(): State
      reads this
    {
      State(size, read_pos, write_pos, cells, producers, consumer, log, tape, received)
    }

    constructor (words: nat, threads: nat)
      requires words > 0
      ensures Init(View()) && size == words && |producers| == threads
    {
      size, read_pos, write_pos := words, 0, 0;
      cells, tape := Zeros(words), Zeros(words);
      producers, consumer := seq(threads, _ => Idle), Waiting;
      log, received := [], [];
    }

    /** One word of the ring. */
    method Store(p: nat, v: nat)
      requires size > 0 && |cells| == size && p < |tape|
      modifies this`cells, this`tape
      ensures View() == Write(old(View()), p, v)
    {
      cells, tape := cells[p % size := v], tape[p := v];
    }

    /** rmtMessageQueue_AllocMessage. */
    method AllocMessage(t: nat)
      requires Inv(View()) && t < |producers|
      requires producers[t].LoadRead? || producers[t].LoadWrite? || producers[t].CasWrite?
      modifies this
      ensures View() == ProducerNext(old(View()), t, None)
    {
      match producers[t] {
        case LoadRead(m) =>
          producers := producers[t := LoadWrite(m, read_pos)];
        case LoadWrite(m, r) =>
          if write_pos - r > size - Words(m.payload_size) {
            producers := producers[t := Idle];
          } else {
            producers := producers[t := CasWrite(m, r, write_pos)];
          }
        case CasWrite(m, r, w) =>
          if write_pos == w {
            producers := producers[t := Fill(m, w, 0, |log|)];
            write_pos := w + Words(m.payload_size);
            log := log + [Entry(w, m, 0, false, t)];
          } else {
            producers := producers[t := LoadRead(m)];
          }
      }
    }

    /** The producer's writes of size, sampler and payload. */
    method FillMessage(t: nat)
      requires Inv(View()) && t < |producers| && producers[t].Fill?
      modifies this
      ensures View() == ProducerNext(old(View()), t, None)
    {
      assert ProducerShape(View(), producers[t]);
      var Fill(m, w, j, k) := producers[t];
      Store(w + 1 + j, Content(m)[j]);
      producers := producers[t := if j + 1 < |Content(m)| then Fill(m, w, j + 1, k) else Commit(m, w, k)];
      log := log[k := log[k].(written := j + 1)];
    }

    /** rmtMessageQueue_CommitMessage. */
    method CommitMessage(t: nat)
      requires Inv(View()) && t < |producers| && producers[t].Commit?
      modifies this
      ensures View() == ProducerNext(old(View()), t, None)
    {
      assert ProducerShape(View(), producers[t]);
      var Commit(m, w, k) := producers[t];
      Store(w, m.id);
      producers := producers[t := Idle];
      log := log[k := log[k].(ready := true)];
    }

    /** rmtMessageQueue_PeekNextMessage, then the client's reads of the message. */
    method PeekNextMessage()
      requires Inv(View()) && (consumer.Waiting? || consumer.PeekId? || consumer.Reading?)
      modifies this`consumer
      ensures View() == ConsumerNext(old(View()))
    {
      match consumer {
        case Waiting =>
          if write_pos - read_pos != 0 { consumer := PeekId; }
        case PeekId =>
          var id := cells[read_pos % size];
          consumer := if id != NOT_READY then Reading(id, []) else Waiting;
        case Reading(id, words) =>
          var words' := words + [cells[(read_pos + 1 + |words|) % size]];
          consumer := if |words'| < ContentWords(words'[0]) then Reading(id, words') else LoadSize(Rebuild(id, words'));
      }
    }

    /** rmtMessageQueue_ConsumeNextMessage. */
    method ConsumeNextMessage()
      requires Inv(View()) && (consumer.LoadSize? || consumer.Clear? || consumer.AdvanceRead?)
      modifies this
      ensures View() == ConsumerNext(old(View()))
    {
      match consumer {
        case LoadSize(m) =>
          consumer := Clear(m, Words(cells[(read_pos + 1) % size]), 0);
        case Clear(m, n, j) =>
          Store(read_pos + j, NOT_READY);
          consumer := if j + 1 < n then Clear(m, n, j + 1) else AdvanceRead(m, n);
        case AdvanceRead(m, n) =>
          tape, received := tape + Zeros(n), received + [m];
          read_pos, consumer := read_pos + n, Waiting;
      }
    }
  }
}
