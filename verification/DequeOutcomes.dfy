/**
 What the work-stealing deque's operations come to.  Every push and pop ends after
 a bounded number of the owner's own steps, whatever thieves do; and a push, a
 pop, a steal or a reclamation that runs alone has the one outcome that the
 contents call for.
 */
module DequeOutcomes {
  import opened Modular
  import opened Prelude
  import opened StealDeque

  /** One access, from any state that has the right shape; a thief that is not there does nothing. */
  ghost function Step<T>(s: State<T>, e: Event<T>): State<T> {
    if Shape(s) && (e.Thief? ==> e.u < |s.thieves|) then Next(s, e) else s
  }

  lemma StepIsSafe<T>(s: State<T>, e: Event<T>)
    requires Inv(s)
    ensures Inv(Step(s, e)) && |Step(s, e).thieves| == |s.thieves|
  {
    if e.Owner? || e.u < |s.thieves| {
      StepKeepsInv(s, e);
      NextThieves(s, e);
    }
  }

  lemma StepFirst<T>(s: State<T>, es: seq<Event<T>>, n: nat)
    requires Inv(s) && n < |es|
    ensures Inv(Step(s, es[0])) && Run(s, es[..n + 1]) == Run(Step(s, es[0]), es[1..][..n])
  {
    StepIsSafe(s, es[0]);
    RunFirst(s, es, n);
  }

  // ------------------------------------------------------- every call ends

  lemma {:induction false} DistinctBelow(xs: seq<nat>, n: nat)
    requires forall i, j :: 0 <= i < j < |xs| ==> xs[i] != xs[j]
    requires forall i :: 0 <= i < |xs| ==> xs[i] < n
    ensures |xs| <= n
    decreases n
  {
    if xs != [] {
      assert 0 <= xs[0] < n;
      var rest := xs[..|xs| - 1];
      if n - 1 in rest {
        var k :| 0 <= k < |rest| && rest[k] == n - 1;
        DistinctBelow(rest[k := xs[|xs| - 1]], n - 1);
      } else {
        DistinctBelow(rest, n - 1);
      }
    }
  }

  lemma RecordsAreThieves<T>(s: State<T>)
    requires Shape(s) && ListOk(s)
    ensures |s.registered| <= |s.thieves|
  {
    forall i, j | 0 <= i < j < |s.registered| ensures s.registered[i] != s.registered[j] {
      assert RecordOk(s, i) && RecordOk(s, j);
    }
    forall i | 0 <= i < |s.registered| ensures s.registered[i] < |s.thieves| { assert RecordOk(s, i); }
    DistinctBelow(s.registered, |s.thieves|);
  }

  /** What the owner is pushing, if anything. */
  function Pushing<T>(p: OwnerPc<T>): seq<T> {
    match p
    case PushInstall(x, _) => [x]
    case Reclaim(k, _) => if k.Some? then [k.value] else []
    case PushPut(x) => [x]
    case PushStore(x) => [x]
    case _ => []
  }

  /** Replaced buffers not freed yet. */
  function Old<T>(s: State<T>): int {
    if s.unlinked.Some? then s.buffer - s.unlinked.value else 0
  }

  function ScanSteps<T>(s: State<T>, scan: Scan): int {
    match scan
    case GetList => 2 * |s.thieves| + 2 + Old(s)
    case WasIdle(_, pos, _) => 2 * pos + 1 + Old(s)
    case LastUsed(_, pos, _) => 2 * pos + Old(s)
    case Free(min) => 1 + if s.unlinked.Some? && s.unlinked.value < min then min - s.unlinked.value else 0
  }

  /** How many accesses the owner has still to make in its call, at most. */
  function OwnerSteps<T>(s: State<T>): int {
    match s.owner
    case Ready => 0
    case PushStore(_) => 1
    case PushPut(_) => 2
    case Reclaim(k, scan) => ScanSteps(s, scan) + if k.Some? then 2 else 0
    case PushInstall(_, _) => 2 * |s.thieves| + Old(s) + 6
    case PopRestore(_) => 1
    case PopCas(_, _) => 2
    case PopShrink(_, _) => 2 * |s.thieves| + Old(s) + 4
    case PopTop(_) => 2 * |s.thieves| + Old(s) + 5
  }

  /** What a step of the owner inside a call leads to. */
  ghost predicate GoesOn<T>(s: State<T>, s': State<T>) {
    && (s'.owner.Ready? ==> s'.pushed == s.pushed + Pushing(s.owner))
    && (!s'.owner.Ready? ==>
      && s'.pushed == s.pushed && Pushing(s'.owner) == Pushing(s.owner)
      && 0 < OwnerSteps(s') < OwnerSteps(s))
  }

  lemma GetListTurn<T>(s: State<T>)
    requires Inv(s) && s.owner.Reclaim? && s.owner.scan.GetList?
    ensures GoesOn(s, ReclaimNext(s)) && OwnerSteps(s) > 0
  {
    RecordsAreThieves(s);
    assert BufferOk(s, s.buffer);
  }

  lemma RecordTurn<T>(s: State<T>)
    requires Inv(s) && s.owner.Reclaim? && (s.owner.scan.WasIdle? || s.owner.scan.LastUsed?)
    ensures GoesOn(s, ReclaimNext(s)) && OwnerSteps(s) > 0
  {
    assert RecordOk(s, s.owner.scan.pos - 1);
  }

  lemma FreeTurn<T>(s: State<T>)
    requires Inv(s) && s.owner.Reclaim? && s.owner.scan.Free?
    ensures GoesOn(s, ReclaimNext(s)) && OwnerSteps(s) > 0
  {
    assert BufferOk(s, s.unlinked.value);
  }

  lemma ScanTurn<T>(s: State<T>)
    requires Inv(s) && s.owner.Reclaim?
    ensures GoesOn(s, ReclaimNext(s)) && OwnerSteps(s) > 0
  {
    match s.owner.scan
    case GetList => GetListTurn(s);
    case Free(_) => FreeTurn(s);
    case _ => RecordTurn(s);
  }

  lemma PushTurn<T>(s: State<T>)
    requires Inv(s) && (s.owner.PushInstall? || s.owner.PushPut? || s.owner.PushStore?)
    ensures GoesOn(s, PushNext(s)) && OwnerSteps(s) > 0
  {
  }

  lemma LookTurn<T>(s: State<T>)
    requires Inv(s) && s.owner.PopTop?
    ensures GoesOn(s, PopNext(s)) && OwnerSteps(s) > 0
  {
  }

  lemma PopTurn<T>(s: State<T>)
    requires Inv(s) && (s.owner.PopCas? || s.owner.PopRestore? || s.owner.PopShrink?)
    ensures GoesOn(s, PopNext(s)) && OwnerSteps(s) > 0
  {
  }

  lemma OwnerTurn<T>(s: State<T>, c: Call<T>)
    requires Inv(s) && !s.owner.Ready?
    ensures GoesOn(s, OwnerNext(s, c)) && OwnerSteps(s) > 0
  {
    match s.owner
    case Reclaim(_, _) => ScanTurn(s);
    case PushInstall(_, _) => PushTurn(s);
    case PushPut(_) => PushTurn(s);
    case PushStore(_) => PushTurn(s);
    case PopTop(_) => LookTurn(s);
    case _ => PopTurn(s);
  }

  lemma ThiefLeaves<T>(s: State<T>, u: nat, spurious: bool)
    requires Shape(s) && u < |s.thieves|
    ensures var s' := ThiefNext(s, u, spurious);
      && s'.owner == s.owner && s'.pushed == s.pushed && s'.buffer == s.buffer && s'.unlinked == s.unlinked
      && |s'.thieves| == |s.thieves|
  {
  }

  lemma ThiefLeavesSteps<T>(s: State<T>, s': State<T>)
    requires s'.owner == s.owner && s'.buffer == s.buffer && s'.unlinked == s.unlinked
    requires |s'.thieves| == |s.thieves|
    ensures OwnerSteps(s') == OwnerSteps(s)
  {
  }

  lemma OwnerEvent<T>(s: State<T>, e: Event<T>)
    requires Inv(s) && !s.owner.Ready?
    ensures OwnerSteps(s) > 0 && Inv(Step(s, e))
    ensures var s' := Step(s, e);
      && (s'.owner.Ready? ==> s'.pushed == s.pushed + Pushing(s.owner))
      && (!s'.owner.Ready? ==>
        && s'.pushed == s.pushed && Pushing(s'.owner) == Pushing(s.owner)
        && OwnerSteps(s') <= OwnerSteps(s) - if e.Owner? then 1 else 0)
  {
    StepIsSafe(s, e);
    OwnerTurn(s, Pop);
    if e.Owner? { OwnerTurn(s, e.c); }
    else if e.u < |s.thieves| {
      ThiefLeaves(s, e.u, e.spurious);
      ThiefLeavesSteps(s, Step(s, e));
    }
  }

  /** A push or a pop ends, whatever thieves do meanwhile; and a push ends with its
      element pushed. */
  lemma {:induction false} OwnerEnds<T>(s: State<T>, es: seq<Event<T>>) returns (n: nat)
    requires Inv(s) && !s.owner.Ready? && OwnerEvents(es) >= OwnerSteps(s)
    ensures n <= |es| && Run(s, es[..n]).owner.Ready?
    ensures Run(s, es[..n]).pushed == s.pushed + Pushing(s.owner)
    decreases |es|
  {
    assert es != [] by { OwnerEvent(s, Owner(Pop)); }
    OwnerEvent(s, es[0]);
    n := 0;
    if !Step(s, es[0]).owner.Ready? { n := OwnerEnds(Step(s, es[0]), es[1..]); }
    assert es[1..][..0] == [];
    StepFirst(s, es, n);
    n := n + 1;
  }

  // --------------------------------------------------------------- thieves

  /** Thief u's next n accesses, with nobody else's between them. */
  ghost function ThiefAlone<T>(s: State<T>, u: nat, n: nat): State<T>
    decreases n
  {
    if n == 0 then s else ThiefAlone(Step(s, Thief(u, false)), u, n - 1)
  }

  /** Putting a record on the list takes two accesses. */
  lemma RegisterAlone<T>(s: State<T>, u: nat)
    requires Inv(s) && u < |s.thieves| && s.thieves[u].Unregistered?
    ensures var r := ThiefAlone(s, u, 2);
      && r == Go(s, u, Rest).(next := s.next[u := s.id_list], id_list := Some(u),
           registered := s.registered + [u], rank := s.rank[u := |s.registered|])
  {
    var s1 := Step(s, Thief(u, false));
    StepIsSafe(s, Thief(u, false));
    assert s1.thieves[u := Rest] == s.thieves[u := Rest];
    assert ThiefAlone(s, u, 2) == ThiefAlone(s1, u, 1) == ThiefAlone(Step(s1, Thief(u, false)), u, 0);
  }

  /** A steal gives up at its first look exactly when bottom is not beyond top; the
      deque is then empty, or the owner is about to decide on its last element. */
  lemma GivesUpAtFirstLook<T>(s: State<T>, u: nat)
    requires Inv(s) && u < |s.thieves| && s.thieves[u] == LoadBottom(s.top)
    ensures ThiefNext(s, u, false) == Go(s, u, if s.bottom <= s.top then SetIdle else LoadBuffer(s.top))
    ensures s.bottom <= s.top <==>
      (s.top == |s.content|
       || (s.top + 1 == |s.content| && (s.owner.PopTop? || s.owner.PopCas? || s.owner.PopRestore?)))
  {
  }

  /** A steal up to its compare and swap. */
  lemma LookAlone<T>(s: State<T>, u: nat)
    requires Inv(s) && u < |s.thieves| && s.thieves[u] == Rest
    ensures ThiefAlone(s, u, 3) ==
      Go(s, u, if s.bottom <= s.top then SetIdle else LoadBuffer(s.top)).(idle := s.idle[u := false])
  {
    var s1 := Go(s, u, LoadTop).(idle := s.idle[u := false]);
    var s2 := Go(s, u, LoadBottom(s.top)).(idle := s.idle[u := false]);
    StepIsSafe(s, Thief(u, false));
    assert Step(s, Thief(u, false)) == s1;
    StepIsSafe(s1, Thief(u, false));
    assert Step(s1, Thief(u, false)) == s2;
    assert ThiefAlone(s, u, 3) == ThiefAlone(s1, u, 2) == ThiefAlone(s2, u, 1)
        == ThiefAlone(Step(s2, Thief(u, false)), u, 0);
  }

  lemma SetIdleNext<T>(s: State<T>, u: nat)
    requires Inv(s) && u < |s.thieves| && s.thieves[u].SetIdle?
    ensures var s' := Go(s, u, LoadLast).(idle := s.idle[u := true]); Step(s, Thief(u, false)) == s' && Inv(s')
  {
    StepIsSafe(s, Thief(u, false));
  }

  lemma LoadLastNext<T>(s: State<T>, u: nat)
    requires Inv(s) && u < |s.thieves| && s.thieves[u].LoadLast?
    ensures var s' := Go(s, u, StoreLast(s.buffer)); Step(s, Thief(u, false)) == s' && Inv(s')
  {
    assert BufferOk(s, s.buffer);
    StepIsSafe(s, Thief(u, false));
  }

  lemma StoreLastNext<T>(s: State<T>, u: nat)
    requires Inv(s) && u < |s.thieves| && s.thieves[u].StoreLast?
    ensures Step(s, Thief(u, false)) == Go(s, u, Rest).(last_used := s.last_used[u := s.thieves[u].id])
  {
  }

  /** A steal after its compare and swap: the record says idle again, and which
      buffer was current. */
  lemma LeaveAlone<T>(s: State<T>, u: nat)
    requires Inv(s) && u < |s.thieves| && s.thieves[u].SetIdle?
    ensures ThiefAlone(s, u, 3) == Rested(s, u)
  {
    SetIdleNext(s, u);
    var s1 := Go(s, u, LoadLast).(idle := s.idle[u := true]);
    LoadLastNext(s1, u);
    var s2 := Go(s1, u, StoreLast(s.buffer));
    StoreLastNext(s2, u);
    assert s2.thieves[u := Rest] == s.thieves[u := Rest];
    assert ThiefAlone(s, u, 3) == ThiefAlone(s1, u, 2) == ThiefAlone(s2, u, 1)
        == ThiefAlone(Step(s2, Thief(u, false)), u, 0);
  }

  lemma {:induction false} ThiefAgain<T>(s: State<T>, u: nat, m: nat, n: nat)
    ensures ThiefAlone(s, u, m + n) == ThiefAlone(ThiefAlone(s, u, m), u, n)
    decreases m
  {
    if m > 0 { ThiefAgain(Step(s, Thief(u, false)), u, m - 1, n); }
  }

  /** The oldest element is claimed. */
  ghost function TopTaken<T>(s: State<T>): State<T>
    requires s.top < |s.content| && s.content[s.top] < |s.pushed| == |s.place|
  {
    Take(s, s.top, Some(s.pushed[s.content[s.top]])).(top := s.top + 1)
  }

  lemma LoadBufferNext<T>(s: State<T>, u: nat)
    requires Inv(s) && u < |s.thieves| && s.thieves[u].LoadBuffer?
    ensures var s' := Go(s, u, TopCas(s.thieves[u].t, s.buffer)); Step(s, Thief(u, false)) == s' && Inv(s')
  {
    StepIsSafe(s, Thief(u, false));
  }

  /** The compare and swap wins if top has not moved. */
  lemma TopCasNext<T>(s: State<T>, u: nat)
    requires Inv(s) && u < |s.thieves| && s.thieves[u].TopCas? && s.thieves[u].t == s.top
    ensures s.top < |s.content| && s.content[s.top] < |s.pushed|
    ensures var s' := Go(TopTaken(s), u, ReadItem(s.top, s.thieves[u].a)); Step(s, Thief(u, false)) == s' && Inv(s')
  {
    assert ThiefOk(s, u);
    StepIsSafe(s, Thief(u, false));
  }

  lemma GoTwice<T>(s: State<T>, u: nat, p: ThiefPc, q: ThiefPc)
    requires u < |s.thieves|
    ensures Go(Go(s, u, p), u, q) == Go(s, u, q)
  {
    assert s.thieves[u := p][u := q] == s.thieves[u := q];
  }

  lemma TakenThenGo<T>(s: State<T>, u: nat, p: ThiefPc, q: ThiefPc)
    requires s.top < |s.content| && s.content[s.top] < |s.pushed| == |s.place| && u < |s.thieves|
    ensures Go(TopTaken(Go(s, u, p)), u, q) == Go(TopTaken(s), u, q)
  {
    GoTwice(TopTaken(s), u, p, q);
  }

  /** A steal that has found an element, alone: the compare and swap wins, and the
      element is read. */
  lemma TakeAlone<T>(s: State<T>, u: nat)
    requires Inv(s) && u < |s.thieves| && s.thieves[u] == LoadBuffer(s.top)
    ensures s.top < |s.content| && s.content[s.top] < |s.pushed|
    ensures ThiefAlone(s, u, 3) == Go(TopTaken(s), u, SetIdle)
  {
    LoadBufferNext(s, u);
    var p := TopCas(s.top, s.buffer);
    CasAlone(Go(s, u, p), u);
    TakenThenGo(s, u, p, SetIdle);
    assert ThiefAlone(s, u, 3) == ThiefAlone(Go(s, u, p), u, 2);
  }

  lemma CasAlone<T>(s: State<T>, u: nat)
    requires Inv(s) && u < |s.thieves| && s.thieves[u].TopCas? && s.thieves[u].t == s.top
    ensures s.top < |s.content| && s.content[s.top] < |s.pushed|
    ensures ThiefAlone(s, u, 2) == Go(TopTaken(s), u, SetIdle)
  {
    TopCasNext(s, u);
    var p := ReadItem(s.top, s.thieves[u].a);
    var s' := Go(TopTaken(s), u, p);
    GoTwice(TopTaken(s), u, p, SetIdle);
    ReadItemNext(s', u);
    assert ThiefAlone(s, u, 2) == ThiefAlone(s', u, 1) == ThiefAlone(Go(s', u, SetIdle), u, 0);
  }

  lemma ReadItemNext<T>(s: State<T>, u: nat)
    requires Inv(s) && u < |s.thieves| && s.thieves[u].ReadItem?
    ensures Step(s, Thief(u, false)) == Go(s, u, SetIdle)
  {
  }

  /** What a steal leaves of thief u's record: idle again, and the current buffer noted. */
  ghost function Rested<T>(s: State<T>, u: nat): State<T>
    requires u < |s.thieves| == |s.idle| == |s.last_used|
  {
    Go(s, u, Rest).(idle := s.idle[u := true], last_used := s.last_used[u := s.buffer])
  }

  /** A steal that runs alone: it takes the oldest element if there is one that the
      owner's bottom admits, and nothing otherwise. */
  lemma StealAlone<T>(s: State<T>, u: nat)
    requires Inv(s) && u < |s.thieves| && s.thieves[u] == Rest
    ensures s.bottom <= s.top ==> ThiefAlone(s, u, 6) == Rested(s, u)
    ensures s.bottom > s.top ==>
      && s.top < |s.content| && s.content[s.top] < |s.pushed|
      && ThiefAlone(s, u, 9) == Rested(TopTaken(s), u)
  {
    LookAlone(s, u);
    AloneKeepsInv(s, u, 3);
    if s.bottom <= s.top { NothingAlone(s, u, 3); } else { SomethingAlone(s, u, 3); }
  }

  lemma AloneKeepsInv<T>(s: State<T>, u: nat, n: nat)
    requires Inv(s)
    ensures Inv(ThiefAlone(s, u, n))
    decreases n
  {
    if n > 0 {
      StepIsSafe(s, Thief(u, false));
      AloneKeepsInv(Step(s, Thief(u, false)), u, n - 1);
    }
  }

  lemma ThenLeaves<T>(s: State<T>, u: nat, n: nat)
    requires Inv(ThiefAlone(s, u, n)) && u < |ThiefAlone(s, u, n).thieves| && ThiefAlone(s, u, n).thieves[u].SetIdle?
    ensures ThiefAlone(s, u, n + 3) == Rested(ThiefAlone(s, u, n), u)
  {
    LeaveAlone(ThiefAlone(s, u, n), u);
    ThiefAgain(s, u, n, 3);
  }

  lemma ThenTakes<T>(s: State<T>, u: nat, n: nat)
    requires var r := ThiefAlone(s, u, n);
      Inv(r) && u < |r.thieves| && r.thieves[u] == LoadBuffer(r.top)
    ensures var r := ThiefAlone(s, u, n);
      && r.top < |r.content| && r.content[r.top] < |r.pushed|
      && ThiefAlone(s, u, n + 3) == Go(TopTaken(r), u, SetIdle)
      && Inv(ThiefAlone(s, u, n + 3))
  {
    TakeAlone(ThiefAlone(s, u, n), u);
    AloneKeepsInv(ThiefAlone(s, u, n), u, 3);
    ThiefAgain(s, u, n, 3);
  }

  lemma NothingAlone<T>(s: State<T>, u: nat, n: nat)
    requires Inv(s) && u < |s.thieves|
    requires ThiefAlone(s, u, n) == Go(s, u, SetIdle).(idle := s.idle[u := false])
    ensures ThiefAlone(s, u, n + 3) == Rested(s, u)
  {
    AloneKeepsInv(s, u, n);
    ThenLeaves(s, u, n);
    var r := Go(s, u, SetIdle).(idle := s.idle[u := false]);
    assert r.thieves[u := Rest] == s.thieves[u := Rest] && r.idle[u := true] == s.idle[u := true];
  }

  lemma SomethingAlone<T>(s: State<T>, u: nat, n: nat)
    requires Inv(ThiefAlone(s, u, n)) && u < |s.thieves| == |s.idle|
    requires ThiefAlone(s, u, n) == Go(s, u, LoadBuffer(s.top)).(idle := s.idle[u := false])
    ensures s.top < |s.content| && s.content[s.top] < |s.pushed|
    ensures |s.last_used| == |s.thieves| == |s.idle| && |s.place| == |s.pushed|
    ensures ThiefAlone(s, u, n + 3 + 3) == Rested(TopTaken(s), u)
  {
    ThenTakes(s, u, n);
    ThenLeaves(s, u, n + 3);
    RestedSame(s, ThiefAlone(s, u, n), u);
  }

  lemma RestedSame<T>(s: State<T>, r: State<T>, u: nat)
    requires u < |s.thieves| == |s.idle| == |s.last_used|
    requires s.top < |s.content| && s.content[s.top] < |s.pushed| == |s.place|
    requires r == Go(s, u, LoadBuffer(s.top)).(idle := s.idle[u := false])
    ensures Rested(Go(TopTaken(r), u, SetIdle), u) == Rested(TopTaken(s), u)
  {
    assert r.thieves[u := SetIdle][u := Rest] == s.thieves[u := Rest] && r.idle[u := true] == s.idle[u := true];
  }

  // ----------------------------------------------------- reclaiming buffers

  /** The owner's next n accesses in its call, with nobody else's between them. */
  ghost function OwnerAlone<T>(s: State<T>, n: nat): State<T>
    decreases n
  {
    if n == 0 || s.owner.Ready? then s else OwnerAlone(Step(s, Owner(Pop)), n - 1)
  }

  lemma {:induction false} OwnerAgain<T>(s: State<T>, m: nat, n: nat)
    ensures OwnerAlone(s, m + n) == OwnerAlone(OwnerAlone(s, m), n)
    decreases m
  {
    if m > 0 && !s.owner.Ready? { OwnerAgain(Step(s, Owner(Pop)), m - 1, n); }
  }

  lemma OwnerNextAlone<T>(s: State<T>, n: nat, s': State<T>)
    requires Shape(s) && !s.owner.Ready? && n > 0 && s' == OwnerNext(s, Pop)
    ensures OwnerAlone(s, n) == OwnerAlone(s', n - 1)
  {
  }

  /** The least of min and what the first pos records that are in use say. */
  function MinSeen(registered: seq<nat>, idle: seq<bool>, last_used: seq<nat>, pos: nat, min: nat): (r: nat)
    requires pos <= |registered| && |idle| == |last_used| && forall k :: 0 <= k < pos ==> registered[k] < |idle|
    ensures r <= min && forall k :: 0 <= k < pos && !idle[registered[k]] ==> r <= last_used[registered[k]]
    ensures r == min || exists k :: 0 <= k < pos && !idle[registered[k]] && r == last_used[registered[k]]
  {
    if pos == 0 then min
    else
      var u := registered[pos - 1];
      MinSeen(registered, idle, last_used, pos - 1, if !idle[u] && last_used[u] < min then last_used[u] else min)
  }

  ghost predicate RecordsThere<T>(s: State<T>) {
    |s.idle| == |s.last_used| && forall k :: 0 <= k < |s.registered| ==> s.registered[k] < |s.idle|
  }

  lemma ListRecords<T>(s: State<T>)
    requires Shape(s) && ListOk(s)
    ensures RecordsThere(s)
  {
    forall k | 0 <= k < |s.registered| ensures s.registered[k] < |s.idle| { assert RecordOk(s, k); }
  }

  /** The owner is at record number pos of the list. */
  ghost predicate Scanning<T>(s: State<T>) {
    && Shape(s) && ListOk(s) && RecordsThere(s) && s.owner.Reclaim? && s.owner.scan.WasIdle?
    && 0 < s.owner.scan.pos <= |s.registered| && s.owner.scan.u == s.registered[s.owner.scan.pos - 1]
  }

  /** What is known of the minimum after the record that is scanned next. */
  ghost function Lower<T>(s: State<T>): nat
    requires Scanning(s)
  {
    var u, min := s.owner.scan.u, s.owner.scan.min;
    if !s.idle[u] && s.last_used[u] < min then s.last_used[u] else min
  }

  /** The next record to scan is the one that the list links to. */
  lemma VisitNext<T>(s: State<T>, s': State<T>, k: Option<T>, pos: nat, min: nat)
    requires Shape(s) && ListOk(s) && RecordsThere(s) && s.unlinked.Some? && 0 < pos <= |s.registered|
    requires s' == s.(owner := Reclaim(k, Visit(At(s.registered, pos), pos, min)))
    ensures Scanning(s')
  {
    assert RecordOk(s, pos - 1);
    assert Shape(s');
    OwnerList(s, s');
  }

  /** The scan of one record. */
  lemma RecordAlone<T>(s: State<T>) returns (n: nat)
    requires Scanning(s)
    ensures var pos := s.owner.scan.pos;
      && OwnerAlone(s, n) == s.(owner := Reclaim(s.owner.k, Visit(At(s.registered, pos - 1), pos - 1, Lower(s))))
      && (pos > 1 ==> Scanning(OwnerAlone(s, n)))
  {
    var Reclaim(k, WasIdle(u, pos, min)) := s.owner;
    assert RecordOk(s, pos - 1);
    n := 1;
    if s.idle[u] { OwnerNextAlone(s, 1, ReclaimNext(s)); } else { n := BusyAlone(s); }
    if pos > 1 { VisitNext(s, OwnerAlone(s, n), k, pos - 1, Lower(s)); }
  }

  lemma BusyAlone<T>(s: State<T>) returns (n: nat)
    requires Scanning(s) && !s.idle[s.owner.scan.u]
    ensures var pos := s.owner.scan.pos;
      OwnerAlone(s, n) == s.(owner := Reclaim(s.owner.k, Visit(At(s.registered, pos - 1), pos - 1, Lower(s))))
  {
    var Reclaim(k, WasIdle(u, pos, min)) := s.owner;
    assert RecordOk(s, pos - 1);
    var s' := s.(owner := Reclaim(k, LastUsed(u, pos, min)));
    n := 2;
    OwnerNextAlone(s, 2, s');
    OwnerNextAlone(s', 1, ReclaimNext(s'));
  }

  /** The scan of all records still to visit. */
  lemma {:induction false} ScanAlone<T>(s: State<T>) returns (n: nat)
    requires Scanning(s)
    ensures var Reclaim(k, WasIdle(_, pos, min)) := s.owner;
      OwnerAlone(s, n) == s.(owner := Reclaim(k, Free(MinSeen(s.registered, s.idle, s.last_used, pos, min))))
    decreases s.owner.scan.pos
  {
    n := RecordAlone(s);
    if s.owner.scan.pos > 1 {
      var m := ScanAlone(OwnerAlone(s, n));
      OwnerAgain(s, n, m);
      n := n + m;
    }
  }

  /** The whole walk over the list of records. */
  lemma ListAlone<T>(s: State<T>) returns (n: nat)
    requires Shape(s) && ListOk(s) && RecordsThere(s) && s.owner.Reclaim? && s.owner.scan.GetList?
    ensures var min := MinSeen(s.registered, s.idle, s.last_used, |s.registered|, Cur(s).id);
      OwnerAlone(s, n) == s.(owner := Reclaim(s.owner.k, Free(min)))
  {
    var s' := ReclaimNext(s);
    OwnerNextAlone(s, 1, s');
    n := 0;
    if s.registered != [] {
      VisitNext(s, s', s.owner.k, |s.registered|, Cur(s).id);
      n := ScanAlone(s');
    }
    OwnerNextAlone(s, n + 1, s');
    n := n + 1;
  }

  function FreedHeap<T>(heap: seq<Buffer<T>>, from: nat, min: nat): (r: seq<Buffer<T>>)
    ensures |r| == |heap|
    ensures forall i :: 0 <= i < |heap| ==> r[i] == if from <= i < min then heap[i].(freed := true) else heap[i]
  {
    seq(|heap|, i requires 0 <= i < |heap| => if from <= i < min then heap[i].(freed := true) else heap[i])
  }

  /** Every old buffer before min is freed. */
  function Freed<T>(s: State<T>, min: nat): State<T>
    requires s.unlinked.Some?
  {
    s.(heap := FreedHeap(s.heap, s.unlinked.value, min),
       unlinked := if s.unlinked.value < min then Some(min) else s.unlinked)
  }

  lemma FreedOneMore<T>(s: State<T>, s': State<T>, min: nat)
    requires s.unlinked.Some? && s.unlinked.value < |s.heap| && s.unlinked.value < min
    requires var u := s.unlinked.value;
      s' == s.(heap := s.heap[u := s.heap[u].(freed := true)], unlinked := Some(u + 1))
    ensures Freed(s', min) == Freed(s, min)
  {
    assert FreedHeap(s'.heap, s.unlinked.value + 1, min) == FreedHeap(s.heap, s.unlinked.value, min);
  }

  /** The freeing loop. */
  lemma {:induction false} FreeAlone<T>(s: State<T>) returns (n: nat)
    requires Shape(s) && HeapOk(s) && s.owner.Reclaim? && s.owner.scan.Free? && s.owner.scan.min <= s.buffer
    ensures s.unlinked.Some?
    ensures OwnerAlone(s, n) == Freed(s, s.owner.scan.min).(owner := AfterReclaim(s.owner.k))
    decreases s.owner.scan.min - s.unlinked.value
  {
    var min, u, s' := s.owner.scan.min, s.unlinked.value, ReclaimNext(s);
    assert BufferOk(s, u);
    OwnerNextAlone(s, 1, s');
    n := 0;
    if u < min {
      FreeKeepsHeap(s);
      FreedOneMore(s, s', min);
      n := FreeAlone(s');
    } else {
      assert FreedHeap(s.heap, u, min) == s.heap;
    }
    OwnerNextAlone(s, n + 1, s');
    n := n + 1;
  }

  lemma FreeKeepsHeap<T>(s: State<T>)
    requires Shape(s) && HeapOk(s) && s.owner.Reclaim? && s.owner.scan.Free?
    requires s.unlinked.value < s.owner.scan.min <= s.buffer
    ensures Shape(ReclaimNext(s)) && HeapOk(ReclaimNext(s))
  {
    var s' := ReclaimNext(s);
    assert BufferOk(s, s.unlinked.value);
    forall i | 0 <= i < |s'.heap| ensures BufferOk(s', i) { assert BufferOk(s, i); }
  }

  /** What reclaim_buffers leaves: freed are the old buffers older than every one
      that a record in use names. */
  ghost function Swept<T>(s: State<T>): State<T>
    requires RecordsThere(s) && s.buffer < |s.heap|
  {
    if s.unlinked.None? then s
    else Freed(s, MinSeen(s.registered, s.idle, s.last_used, |s.registered|, Cur(s).id))
  }

  /** A reclamation that runs alone. */
  lemma ReclaimAlone<T>(s: State<T>) returns (n: nat)
    requires Shape(s) && HeapOk(s) && ListOk(s) && s.owner.Reclaim? && s.owner.scan.GetList?
    ensures RecordsThere(s) && OwnerAlone(s, n) == Swept(s).(owner := AfterReclaim(s.owner.k))
  {
    ListRecords(s);
    assert BufferOk(s, s.buffer);
    var i := ListAlone(s);
    var r := OwnerAlone(s, i);
    HeapSame(s, r);
    var j := FreeAlone(r);
    OwnerAgain(s, i, j);
    n := i + j;
  }

  /** With every thief resting, all old buffers are freed. */
  lemma AllSwept<T>(s: State<T>)
    requires Inv(s) && s.unlinked.Some? && RecordsThere(s)
    requires forall k :: 0 <= k < |s.registered| ==> s.idle[s.registered[k]]
    ensures var r := Swept(s);
      && r.unlinked == Some(s.buffer) && |r.heap| == |s.heap|
      && forall i :: 0 <= i < |r.heap| ==> (r.heap[i].freed <==> i < s.buffer)
  {
    assert BufferOk(s, s.buffer);
    forall i | 0 <= i < |s.heap| ensures Swept(s).heap[i].freed <==> i < s.buffer { assert BufferOk(s, i); }
  }

  lemma {:induction false} OwnerAloneKeepsInv<T>(s: State<T>, n: nat)
    requires Inv(s)
    ensures Inv(OwnerAlone(s, n))
    decreases n
  {
    if n > 0 && !s.owner.Ready? {
      StepIsSafe(s, Owner(Pop));
      OwnerAloneKeepsInv(Step(s, Owner(Pop)), n - 1);
    }
  }

  /** A reclamation, where there is something to reclaim, inside a push or a pop. */
  lemma SweepAlone<T>(s: State<T>, s': State<T>, k: Option<T>) returns (n: nat)
    requires Inv(s') && s' == s.(owner := MaybeReclaim(s, k))
    ensures s.buffer < |s.heap| && RecordsThere(s)
    ensures var r := Swept(s).(owner := AfterReclaim(k)); OwnerAlone(s', n) == r && Inv(r)
  {
    ListRecords(s');
    n := 0;
    if s.unlinked.Some? { n := ReclaimAlone(s'); }
    OwnerAloneKeepsInv(s', n);
  }

  lemma ThenSwept<T>(s: State<T>, i: nat, h: State<T>, k: Option<T>) returns (n: nat)
    requires OwnerAlone(s, i) == h.(owner := MaybeReclaim(h, k)) && Inv(OwnerAlone(s, i))
    ensures h.buffer < |h.heap| && RecordsThere(h)
    ensures var r := Swept(h).(owner := AfterReclaim(k)); OwnerAlone(s, n) == r && Inv(r)
  {
    var j := SweepAlone(h, OwnerAlone(s, i), k);
    OwnerAgain(s, i, j);
    n := i + j;
  }

  // ------------------------------------------------------------- push, pop

  /** The buffer that a push needs: twice the size if only the spare cell is left. */
  ghost function Grown<T>(s: State<T>): State<T>
    requires Shape(s) && s.bottom >= 0
  {
    if |s.content| - s.top == |Cur(s).segment| - 1 then Install(s, Cur(s).log_size + 1, s.bottom, s.top) else s
  }

  /** x is the newest element. */
  ghost function Pushed<T>(s: State<T>, x: T): State<T>
    requires s.buffer < |s.heap| && Cur(s).segment != [] && s.bottom >= 0
  {
    s.(heap := s.heap[s.buffer := Put(Cur(s), s.bottom, x)], bottom := s.bottom + 1, owner := Ready,
       pushed := s.pushed + [x], content := s.content + [|s.pushed|], place := s.place + [Live(|s.content|)])
  }

  /** A push first looks at the size, and grows the buffer if only the spare cell is left. */
  lemma GrowIs<T>(s: State<T>, x: T)
    requires Shape(s) && LiveOk(s) && OwnerOk(s) && s.owner.Ready? && Shape(Start(s, Push(x)))
    ensures var s1, g := Start(s, Push(x)), Grown(s); var r := g.(owner := MaybeReclaim(g, Some(x)));
      && (s1.owner.PushInstall? ==> PushNext(s1) == r)
      && (!s1.owner.PushInstall? ==> s1 == r)
  {
  }

  lemma GrowSteps<T>(s: State<T>, x: T)
    requires Inv(s) && s.owner.Ready?
    ensures var s1, g := Start(s, Push(x)), Grown(s); var r := g.(owner := MaybeReclaim(g, Some(x)));
      && Inv(s1)
      && (s1.owner.PushInstall? ==> PushNext(s1) == r && Inv(r))
      && (!s1.owner.PushInstall? ==> s1 == r)
  {
    var s1 := Start(s, Push(x));
    assert Inv(s1) by { StepIsSafe(s, Owner(Push(x))); }
    if s1.owner.PushInstall? { assert Inv(PushNext(s1)) by { StepIsSafe(s1, Owner(Pop)); } }
    GrowIs(s, x);
  }

  lemma GrowAlone<T>(s: State<T>, x: T) returns (n: nat)
    requires Inv(s) && s.owner.Ready?
    ensures var g := Grown(s); var r := g.(owner := MaybeReclaim(g, Some(x)));
      OwnerAlone(Start(s, Push(x)), n) == r && Inv(r)
  {
    var s1 := Start(s, Push(x));
    GrowSteps(s, x);
    n := 0;
    if s1.owner.PushInstall? {
      OwnerNextAlone(s1, 1, PushNext(s1));
      n := 1;
    }
  }

  lemma PutAlone<T>(s: State<T>, x: T)
    requires Inv(s) && s.owner == PushPut(x)
    ensures s.bottom >= 0 && OwnerAlone(s, 2) == Pushed(s, x)
  {
    var s' := PushNext(s);
    StepIsSafe(s, Owner(Pop));
    OwnerNextAlone(s, 2, s');
    OwnerNextAlone(s', 1, PushNext(s'));
  }

  lemma RoomAlone<T>(s: State<T>, x: T) returns (n: nat)
    requires Inv(s) && s.owner.Ready?
    ensures RecordsThere(Grown(s)) && Grown(s).buffer < |Grown(s).heap|
    ensures var r := Swept(Grown(s)).(owner := PushPut(x)); OwnerAlone(Start(s, Push(x)), n) == r && Inv(r)
  {
    var i := GrowAlone(s, x);
    n := ThenSwept(Start(s, Push(x)), i, Grown(s), Some(x));
  }

  /** A push that runs alone: the buffer grows if it must, what can be freed is, and
      x becomes the newest element. */
  lemma PushAlone<T>(s: State<T>, x: T) returns (n: nat)
    requires Inv(s) && s.owner.Ready?
    ensures RecordsThere(Grown(s)) && Grown(s).buffer < |Grown(s).heap|
    ensures var w := Swept(Grown(s));
      && w.buffer < |w.heap| && Cur(w).segment != [] && w.bottom >= 0
      && OwnerAlone(Start(s, Push(x)), n) == Pushed(w, x)
  {
    n := RoomAlone(s, x);
    var r := Swept(Grown(s)).(owner := PushPut(x));
    PutAlone(r, x);
    OwnerAgain(Start(s, Push(x)), n, 2);
    n := n + 2;
  }

  /** The newest element is claimed. */
  ghost function Popped<T>(s: State<T>): State<T>
    requires s.top < |s.content| && |s.place| == |s.pushed|
    requires forall i :: s.top <= i < |s.content| ==> s.content[i] < |s.pushed|
  {
    var n := |s.content| - 1;
    Take(s, n, Some(s.pushed[s.content[n]])).(content := s.content[..n], bottom := s.bottom - 1)
  }

  /** Before the pop no more than a third of the buffer was in use, and there were
      more than 16 elements. */
  predicate Shrinks<T>(s: State<T>) {
    var live := |s.content| + 1 - s.top;
    s.buffer < |s.heap| && 3 * live <= |Cur(s).segment| && live > Pow2(LOG_INITIAL_SIZE)
  }

  /** ... then one of half the size replaces it. */
  ghost function Shrunk<T>(s: State<T>): State<T>
    requires Shape(s) && s.bottom >= -1
  {
    if Shrinks(s) then Install(s, Halved(Cur(s).log_size), s.bottom + 1, s.top) else s
  }

  /** A pop that finds nothing changes nothing. */
  lemma PopNothing<T>(s: State<T>)
    requires Inv(s) && s.owner.Ready? && s.top == |s.content|
    ensures OwnerAlone(Start(s, Pop), 2) == s
  {
    var s1 := Start(s, Pop);
    StepIsSafe(s, Owner(Pop));
    var s2 := PopNext(s1);
    OwnerNextAlone(s1, 2, s2);
    StepIsSafe(s1, Owner(Pop));
    OwnerNextAlone(s2, 1, PopNext(s2));
  }

  lemma PopCasAlone<T>(s: State<T>)
    requires Inv(s) && s.owner.PopCas? && s.top == s.owner.t
    ensures s.top < |s.content| && s.content[s.top] < |s.pushed|
    ensures OwnerAlone(s, 2) == TopTaken(s).(bottom := s.owner.b, owner := Ready)
  {
    var s' := PopNext(s);
    OwnerNextAlone(s, 2, s');
    StepIsSafe(s, Owner(Pop));
    OwnerNextAlone(s', 1, PopNext(s'));
  }

  /** A pop takes the only element by compare and swap. */
  lemma PopOnly<T>(s: State<T>)
    requires Inv(s) && s.owner.Ready? && s.top + 1 == |s.content|
    ensures OwnerAlone(Start(s, Pop), 3) == TopTaken(s)
  {
    var s1 := Start(s, Pop);
    StepIsSafe(s, Owner(Pop));
    var s2 := PopNext(s1);
    OwnerNextAlone(s1, 3, s2);
    StepIsSafe(s1, Owner(Pop));
    PopCasAlone(s2);
  }

  lemma LookIs<T>(s: State<T>)
    requires Shape(s) && LiveOk(s) && OwnerOk(s) && s.owner.Ready? && s.top + 1 < |s.content|
    ensures Shape(Popped(s)) && Shape(Start(s, Pop))
    ensures var p := Popped(s);
      PopNext(Start(s, Pop)) == p.(owner := if Shrinks(p) then PopShrink(s.bottom, s.top) else MaybeReclaim(p, None))
  {
    var live, size := |s.content| - s.top, |Cur(s).segment|;
    assert live <= size / 3 <==> 3 * live <= size;
  }

  lemma LookSteps<T>(s: State<T>)
    requires Inv(s) && s.owner.Ready? && s.top + 1 < |s.content|
    ensures Shape(Popped(s)) && Inv(Start(s, Pop))
    ensures var p := Popped(s); var r := PopNext(Start(s, Pop));
      && Inv(r)
      && r == p.(owner := if Shrinks(p) then PopShrink(s.bottom, s.top) else MaybeReclaim(p, None))
  {
    assert Inv(Start(s, Pop)) by { StepIsSafe(s, Owner(Pop)); }
    assert Inv(PopNext(Start(s, Pop))) by { StepIsSafe(Start(s, Pop), Owner(Pop)); }
    LookIs(s);
  }

  lemma ShrinkSteps<T>(s: State<T>, p: State<T>)
    requires Inv(s) && s.owner.PopShrink? && Shape(p) && p.bottom >= -1 && Shrinks(p)
    requires s == p.(owner := PopShrink(p.bottom + 1, p.top))
    ensures var r := Shrunk(p).(owner := MaybeReclaim(Shrunk(p), None)); PopNext(s) == r && Inv(r)
  {
    StepIsSafe(s, Owner(Pop));
  }

  lemma PopLookAlone<T>(s: State<T>) returns (n: nat)
    requires Inv(s) && s.owner.Ready? && s.top + 1 < |s.content|
    ensures Shape(Popped(s))
    ensures var h := Shrunk(Popped(s)); var r := h.(owner := MaybeReclaim(h, None));
      OwnerAlone(Start(s, Pop), n) == r && Inv(r)
  {
    LookSteps(s);
    var s1, p := Start(s, Pop), Popped(s);
    var s2 := PopNext(s1);
    OwnerNextAlone(s1, 1, s2);
    n := 1;
    if Shrinks(p) {
      ShrinkSteps(s2, p);
      OwnerNextAlone(s2, 1, PopNext(s2));
      OwnerNextAlone(s1, 2, s2);
      n := 2;
    }
  }

  /** A pop that finds several takes the newest; the buffer shrinks if little of it
      is in use, and what can be freed is. */
  lemma PopOne<T>(s: State<T>) returns (n: nat)
    requires Inv(s) && s.owner.Ready? && s.top + 1 < |s.content|
    ensures Shape(Popped(s)) && RecordsThere(Shrunk(Popped(s)))
    ensures Shrunk(Popped(s)).buffer < |Shrunk(Popped(s)).heap|
    ensures OwnerAlone(Start(s, Pop), n) == Swept(Shrunk(Popped(s)))
  {
    var i := PopLookAlone(s);
    n := ThenSwept(Start(s, Pop), i, Shrunk(Popped(s)), None);
  }
}
