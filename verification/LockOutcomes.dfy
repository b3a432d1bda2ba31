/**
 What the lock protocol's operations come to when nothing stands in their way:
 from any state of a run, a thread that finds free what it asks for locks its
 buckets, or the whole table, in a number of steps bounded by the locks there
 are, and releases exactly what it took.
 */
module LockOutcomes {
  import opened Prelude
  import opened Modular
  import opened StripedLocks

  /** Thread t's next n steps, with no other thread's between them. */
  ghost function Onward(s: State, t: nat, n: nat): (r: State)
    requires WeakInv(s) && t < |s.threads|
    ensures WeakInv(r) && |r.threads| == |s.threads|
    decreases n
  {
    if n == 0 then s
    else
      StepKeepsWeakInv(s, t, Advance);
      StepLarger(s, t, Advance);
      Onward(Next(s, t, Advance), t, n - 1)
  }

  lemma OnwardNext(s: State, t: nat, n: nat, s': State)
    requires WeakInv(s) && t < |s.threads| && n > 0 && s' == Next(s, t, Advance)
    ensures WeakInv(s') && |s'.threads| == |s.threads| && Onward(s, t, n) == Onward(s', t, n - 1)
  {
    StepKeepsWeakInv(s, t, Advance);
    StepLarger(s, t, Advance);
  }

  /** A container with the locks in ls set to v. */
  function Marked(locks: seq<Option<nat>>, ls: seq<nat>, v: Option<nat>): (r: seq<Option<nat>>)
    ensures |r| == |locks|
    ensures forall l :: 0 <= l < |locks| ==> r[l] == if l in ls then v else locks[l]
  {
    seq(|locks|, l requires 0 <= l < |locks| => if l in ls then v else locks[l])
  }

  /** Thread t at p, with the locks in ls of container c set to v. */
  function WithMarks(s: State, t: nat, p: Pc, c: nat, ls: seq<nat>, v: Option<nat>): State
    requires t < |s.threads| && c < |s.containers|
  {
    s.(threads := s.threads[t := p], containers := s.containers[c := Marked(s.containers[c], ls, v)])
  }

  lemma MarkOneMore(s: State, t: nat, p: Pc, c: nat, l: nat, p': Pc, ls: seq<nat>, v: Option<nat>)
    requires t < |s.threads| && c < |s.containers| && l < |s.containers[c]|
    ensures WithMarks(Go(SetLock(s, c, l, v), t, p), t, p', c, ls, v) == WithMarks(s, t, p', c, [l] + ls, v)
  {
    var s1 := Go(SetLock(s, c, l, v), t, p);
    assert Marked(s1.containers[c], ls, v) == Marked(s.containers[c], [l] + ls, v);
    assert s1.threads[t := p'] == s.threads[t := p'];
    var locks := Marked(s.containers[c], [l] + ls, v);
    assert s1.containers[c := locks] == s.containers[c := locks];
  }

  lemma MarkNone(s: State, t: nat, p: Pc, c: nat, v: Option<nat>)
    requires t < |s.threads| && c < |s.containers|
    ensures WithMarks(s, t, p, c, [], v) == Go(s, t, p)
  {
    assert Marked(s.containers[c], [], v) == s.containers[c];
  }

  predicate AllFree(s: State, c: nat, ls: seq<nat>) {
    c < |s.containers| && forall l :: l in ls ==> l < |s.containers[c]| && s.containers[c][l].None?
  }

  predicate Once(ls: seq<nat>) { forall i, j :: 0 <= i < j < |ls| ==> ls[i] != ls[j] }

  lemma FirstIsNoOther(ls: seq<nat>)
    requires Once(ls) && ls != []
    ensures ls[0] !in ls[1..] && Once(ls[1..]) && forall l :: l in ls <==> l == ls[0] || l in ls[1..]
  {
    assert ls == [ls[0]] + ls[1..];
    forall j | 0 <= j < |ls[1..]| ensures ls[1..][j] != ls[0] { assert ls[1..][j] == ls[j + 1]; }
  }

  // -------------------------------------------------------- locking buckets

  /** One more stripe; those still to take stay free. */
  lemma TakesOne(s: State, t: nat)
    requires Shape(s) && t < |s.threads| && s.threads[t].Acquire?
    requires var Acquire(op, c, i) := s.threads[t]; i < |op.order| && AllFree(s, c, op.order[i..]) && Once(op.order)
    ensures var Acquire(op, c, i) := s.threads[t];
      && c < |s.containers| && op.order[i] < |s.containers[c]|
      && var s' := Go(SetLock(s, c, op.order[i], Some(t)), t, AfterStripe(op, c, i));
         Next(s, t, Advance) == s' && AllFree(s', c, op.order[i + 1..])
  {
    assert PcShape(s, s.threads[t]);
    var order, i := s.threads[t].op.order, s.threads[t].n;
    var left, rest := order[i..], order[i + 1..];
    assert left[0] == order[i];
    forall j | 0 <= j < |rest| ensures rest[j] != order[i] && rest[j] in left {
      assert rest[j] == order[i + 1 + j] == left[1 + j];
    }
  }

  /** Taking the rest of the stripes, once the hashpower has been checked. */
  lemma {:induction false} TakeAlone(s: State, t: nat, n: nat)
    requires WeakInv(s) && t < |s.threads| && s.threads[t].Acquire? && 0 < s.threads[t].n
    requires var Acquire(op, c, i) := s.threads[t];
      i < |op.order| && AllFree(s, c, op.order[i..]) && n == |op.order| - i
    ensures var Acquire(op, c, i) := s.threads[t];
      Onward(s, t, n) == WithMarks(s, t, Holding(op, c), c, op.order[i..], Some(t))
    decreases n
  {
    var Acquire(op, c, i) := s.threads[t];
    assert Once(op.order) by { StripesDiffer(s, t); }
    TakesOne(s, t);
    var l := op.order[i];
    var s' := Go(SetLock(s, c, l, Some(t)), t, AfterStripe(op, c, i));
    OnwardNext(s, t, n, s');
    assert op.order[i..] == [l] + op.order[i + 1..];
    MarkOneMore(s, t, AfterStripe(op, c, i), c, l, Holding(op, c), op.order[i + 1..], Some(t));
    if i + 1 < |op.order| {
      TakeAlone(s', t, n - 1);
    } else {
      MarkNone(s', t, Holding(op, c), c, Some(t));
      assert s'.threads[t := Holding(op, c)] == s'.threads;
    }
  }

  /** No stripe is asked for twice. */
  lemma StripesDiffer(s: State, t: nat)
    requires WeakInv(s) && t < |s.threads| && s.threads[t].Acquire?
    ensures Once(s.threads[t].op.order)
  {
    assert PlaceOk(s, s.threads[t]);
    OpFacts(s, s.threads[t].op, s.threads[t].c);
  }

  /** What follows the first stripe: the check of the hashpower, and the rest. */
  lemma CheckAlone(s: State, t: nat)
    requires WeakInv(s) && t < |s.threads| && s.threads[t].Check?
    requires var Check(op, c) := s.threads[t];
      op.order != [] && op.hp == s.hashpower && AllFree(s, c, op.order[1..])
    ensures var Check(op, c) := s.threads[t];
      Onward(s, t, |op.order|) == WithMarks(s, t, Holding(op, c), c, op.order[1..], Some(t))
  {
    var Check(op, c) := s.threads[t];
    var s' := Go(s, t, if |op.order| > 1 then Acquire(op, c, 1) else Holding(op, c));
    OnwardNext(s, t, |op.order|, s');
    assert s'.threads[t := Holding(op, c)] == s.threads[t := Holding(op, c)];
    if |op.order| > 1 {
      TakeAlone(s', t, |op.order| - 1);
    } else {
      assert op.order[1..] == [];
      MarkNone(s, t, Holding(op, c), c, Some(t));
    }
  }

  lemma FirstAlone(s: State, t: nat)
    requires WeakInv(s) && t < |s.threads| && s.threads[t].Acquire? && s.threads[t].n == 0
    requires var Acquire(op, c, _) := s.threads[t]; op.hp == s.hashpower && AllFree(s, c, op.order)
    ensures var Acquire(op, c, _) := s.threads[t];
      Onward(s, t, |op.order| + 1) == WithMarks(s, t, Holding(op, c), c, op.order, Some(t))
  {
    var Acquire(op, c, _) := s.threads[t];
    assert PcShape(s, s.threads[t]) && op.order[0..] == op.order;
    assert Once(op.order) by { StripesDiffer(s, t); }
    TakesOne(s, t);
    var l := op.order[0];
    var s' := Go(SetLock(s, c, l, Some(t)), t, Check(op, c));
    OnwardNext(s, t, |op.order| + 1, s');
    CheckAlone(s', t);
    MarkOneMore(s, t, Check(op, c), c, l, Holding(op, c), op.order[1..], Some(t));
    assert op.order == [l] + op.order[1..];
  }

  /** A thread that knows the hashpower, or reads it first, asks for buckets. */
  ghost function Asked(s: State, t: nat, buckets: seq<nat>): (r: State)
    requires WeakInv(s) && t < |s.threads| && (s.threads[t] == Idle || s.threads[t] == Known(s.hashpower))
    ensures WeakInv(r) && |r.threads| == |s.threads|
  {
    StepKeepsWeakInv(s, t, Advance);
    StepLarger(s, t, Advance);
    var s1 := if s.threads[t].Idle? then Next(s, t, Advance) else s;
    StepKeepsWeakInv(s1, t, Want(buckets));
    StepLarger(s1, t, Want(buckets));
    Next(s1, t, Want(buckets))
  }

  /** lock_one, lock_two and lock_three undisturbed: if the buckets' stripes of the
      current container are free, the thread comes to hold exactly those, after
      one step for each and two more. */
  lemma LockAlone(s: State, t: nat, buckets: seq<nat>)
    requires WeakInv(s) && t < |s.threads| && (s.threads[t] == Idle || s.threads[t] == Known(s.hashpower))
    requires ValidWant(s.hashpower, buckets) && AllFree(s, Back(s), LockOrder(buckets))
    ensures var op := Op(s.hashpower, buckets, LockOrder(buckets));
      Onward(Asked(s, t, buckets), t, |op.order| + 2)
        == WithMarks(s, t, Holding(op, Back(s)), Back(s), op.order, Some(t))
  {
    var op, c := Op(s.hashpower, buckets, LockOrder(buckets)), Back(s);
    var s1 := Go(s, t, GetLocks(op));
    AskedGets(s, t, buckets);
    var s2 := Go(s, t, Acquire(op, c, 0));
    assert s1.threads[t := Acquire(op, c, 0)] == s2.threads;
    OnwardNext(s1, t, |op.order| + 2, s2);
    FirstAlone(s2, t);
    assert s2.threads[t := Holding(op, c)] == s.threads[t := Holding(op, c)];
  }

  lemma AskedGets(s: State, t: nat, buckets: seq<nat>)
    requires WeakInv(s) && t < |s.threads| && (s.threads[t] == Idle || s.threads[t] == Known(s.hashpower))
    requires ValidWant(s.hashpower, buckets)
    ensures Asked(s, t, buckets) == Go(s, t, GetLocks(Op(s.hashpower, buckets, LockOrder(buckets))))
  {
    var p := GetLocks(Op(s.hashpower, buckets, LockOrder(buckets)));
    assert s.threads[t := Known(s.hashpower)][t := p] == s.threads[t := p];
  }

  /** A thread starts again only from the check, and only if the hashpower is not
      the one it computed its buckets with; it then has nothing locked. */
  lemma GivesUpOnlyWhenChanged(s: State, t: nat, a: Action)
    requires WeakInv(s) && t < |s.threads| && !s.threads[t].GiveUp?
    ensures |Next(s, t, a).threads| == |s.threads|
    ensures Next(s, t, a).threads[t].GiveUp? <==> s.threads[t].Check? && s.threads[t].op.hp != s.hashpower
  {
    StepLarger(s, t, a);
    assert PcShape(s, s.threads[t]);
    if WholeTable(s.threads[t]) { assert !TableNext(s, t, a).threads[t].GiveUp?; }
  }

  /** ... and in a clean run that means that the table has grown since. */
  lemma GaveUpMeansGrown(s0: State, es: seq<Event>, s: State, t: nat)
    requires Init(s0) && (NothingToOverrun(s0) || Clean(s0, es)) && Reaches(s0, es, s)
    requires t < |s.threads| && s.threads[t].GiveUp?
    ensures s.threads[t].op.hp < s.hashpower
  {
    InitInv(s0);
    if NothingToOverrun(s0) { CleanWithoutOverrun(s0, es, s); }
    CleanRunsKeepInv(s0, es, s);
    assert PcOk(s, t);
  }

  lemma GiveUpAlone(s: State, t: nat)
    requires WeakInv(s) && t < |s.threads| && s.threads[t].GiveUp?
    ensures var GiveUp(op, c) := s.threads[t];
      Onward(s, t, 1) == WithMarks(s, t, Idle, c, [op.order[0]], None)
  {
    var GiveUp(op, c) := s.threads[t];
    assert PcShape(s, s.threads[t]);
    var s' := Go(SetLock(s, c, op.order[0], None), t, Idle);
    OnwardNext(s, t, 1, s');
    MarkOneMore(s, t, Idle, c, op.order[0], Idle, [], None);
    MarkNone(s', t, Idle, c, None);
    assert [op.order[0]] + [] == [op.order[0]] && s'.threads[t := Idle] == s'.threads;
  }

  // ------------------------------------------------------ unlocking buckets

  /** Thread t releases the stripes in ls, in that order. */
  ghost function Releases(s: State, t: nat, ls: seq<nat>): (r: State)
    requires WeakInv(s) && t < |s.threads|
    ensures WeakInv(r) && |r.threads| == |s.threads|
    decreases |ls|
  {
    if ls == [] then s
    else
      StepKeepsWeakInv(s, t, Release(ls[0]));
      StepLarger(s, t, Release(ls[0]));
      Releases(Next(s, t, Release(ls[0])), t, ls[1..])
  }

  lemma {:induction false} ReleaseInOrder(s: State, t: nat, ls: seq<nat>)
    requires WeakInv(s) && t < |s.threads| && s.threads[t].Unlocking?
    requires Once(ls) && s.threads[t].left == set l | l in ls
    ensures var Unlocking(op, c, _) := s.threads[t];
      c < |s.containers| && Releases(s, t, ls) == WithMarks(s, t, Unlocking(op, c, {}), c, ls, None)
    decreases |ls|
  {
    var Unlocking(op, c, left) := s.threads[t];
    assert PcShape(s, s.threads[t]);
    if ls == [] {
      MarkNone(s, t, Unlocking(op, c, {}), c, None);
      assert left == {};
      assert s.threads[t := Unlocking(op, c, {})] == s.threads;
    } else {
      var l, rest := ls[0], ls[1..];
      var left' := left - {l};
      assert ls == [l] + rest && l in left;
      var s' := Go(SetLock(s, c, l, None), t, Unlocking(op, c, left'));
      FirstIsNoOther(ls);
      assert left' == set l' | l' in rest;
      StepKeepsWeakInv(s, t, Release(l));
      assert s' == Next(s, t, Release(l));
      ReleaseInOrder(s', t, rest);
      MarkOneMore(s, t, Unlocking(op, c, left'), c, l, Unlocking(op, c, {}), rest, None);
    }
  }

  /** A thread that holds buckets releases exactly their stripes, in whatever order,
      and is free to ask again. */
  lemma UnlockAlone(s: State, t: nat, ls: seq<nat>)
    requires WeakInv(s) && t < |s.threads| && s.threads[t].Holding?
    requires Once(ls) && forall l :: l in ls <==> l in s.threads[t].op.order
    ensures WeakInv(Next(s, t, Unlock)) && |Next(s, t, Unlock).threads| == |s.threads|
    ensures var Holding(op, c) := s.threads[t];
      && c < |s.containers|
      && Onward(Releases(Next(s, t, Unlock), t, ls), t, 1) == WithMarks(s, t, Known(op.hp), c, ls, None)
  {
    var Holding(op, c) := s.threads[t];
    assert PlaceOk(s, s.threads[t]);
    StepKeepsWeakInv(s, t, Unlock);
    var s1 := Go(s, t, Unlocking(op, c, set l | l in op.order));
    assert (set l | l in op.order) == set l | l in ls;
    ReleaseInOrder(s1, t, ls);
    var s2 := WithMarks(s1, t, Unlocking(op, c, {}), c, ls, None);
    OnwardNext(s2, t, 1, Go(s2, t, Known(op.hp)));
    assert s2.threads[t := Known(op.hp)] == s.threads[t := Known(op.hp)];
  }

  // -------------------------------------------------------- the whole table

  function Whole(s: State, t: nat, p: Pc, c: nat, locks: seq<Option<nat>>): State
    requires t < |s.threads| && c < |s.containers|
  {
    s.(threads := s.threads[t := p], containers := s.containers[c := locks])
  }

  /** Taking the rest of the last container. */
  lemma {:induction false} TakeAllAlone(s: State, t: nat, n: nat)
    requires WeakInv(s) && t < |s.threads| && s.threads[t].AllAcquire? && s.threads[t].c == Back(s)
    requires var AllAcquire(_, c, l) := s.threads[t];
      && l <= |s.containers[c]| && n == |s.containers[c]| - l
      && forall i :: l <= i < |s.containers[c]| ==> s.containers[c][i].None?
    ensures var AllAcquire(first, c, l) := s.threads[t];
      Onward(s, t, n + 1) == Whole(s, t, AllHeld(first), c, s.containers[c][..l] + AllOf(n, Some(t)))
    decreases n
  {
    var AllAcquire(first, c, l) := s.threads[t];
    var locks := s.containers[c];
    assert PcShape(s, s.threads[t]);
    if n == 0 {
      OnwardNext(s, t, 1, Go(s, t, AllHeld(first)));
      assert locks[..l] + AllOf(0, Some(t)) == locks;
      assert s.containers[c := locks] == s.containers;
    } else {
      var s' := Go(SetLock(s, c, l, Some(t)), t, AllAcquire(first, c, l + 1));
      OnwardNext(s, t, n + 1, s');
      TakeAllAlone(s', t, n - 1);
      var locks' := locks[..l] + AllOf(n, Some(t));
      assert s'.containers[c][..l + 1] + AllOf(n - 1, Some(t)) == locks';
      assert s'.containers[c := locks'] == s.containers[c := locks'];
      assert s'.threads[t := AllHeld(first)] == s.threads[t := AllHeld(first)];
    }
  }

  /** snapshot_and_lock_all undisturbed: if the last container is free, the thread
      comes to hold all of it, and with it the table. */
  lemma LockAllAlone(s: State, t: nat)
    requires WeakInv(s) && t < |s.threads| && s.threads[t].Known?
    requires forall i :: 0 <= i < |s.containers[Back(s)]| ==> s.containers[Back(s)][i].None?
    ensures WeakInv(Next(s, t, LockAll)) && |Next(s, t, LockAll).threads| == |s.threads|
    ensures var n := |s.containers[Back(s)]|;
      Onward(Next(s, t, LockAll), t, n + 2) == Whole(s, t, AllHeld(Back(s)), Back(s), AllOf(n, Some(t)))
  {
    var c := Back(s);
    var n, p := |s.containers[c]|, AllAcquire(c, c, 0);
    StepKeepsWeakInv(s, t, LockAll);
    var s1 := Go(s, t, AllStart);
    var s2 := Go(s, t, p);
    assert s1.threads[t := p] == s2.threads;
    OnwardNext(s1, t, n + 2, s2);
    TakeAllAlone(s2, t, n);
    assert s2.containers[c][..0] + AllOf(n, Some(t)) == AllOf(n, Some(t));
    assert s2.threads[t := AllHeld(c)] == s.threads[t := AllHeld(c)];
  }

  /** All locks free from lock l of container c on. */
  function Freed(cs: seq<seq<Option<nat>>>, c: nat, l: nat): (r: seq<seq<Option<nat>>>)
    ensures |r| == |cs|
    ensures forall k :: 0 <= k < |cs| ==> |r[k]| == |cs[k]|
    ensures forall k, i :: 0 <= k < |cs| && 0 <= i < |cs[k]| ==>
      r[k][i] == if k > c || (k == c && i >= l) then None else cs[k][i]
  {
    seq(|cs|, k requires 0 <= k < |cs| => seq(|cs[k]|, i requires 0 <= i < |cs[k]| =>
      if k > c || (k == c && i >= l) then None else cs[k][i]))
  }

  lemma FreedOneMore(cs: seq<seq<Option<nat>>>, c: nat, l: nat)
    requires c < |cs| && l < |cs[c]|
    ensures Freed(cs[c := cs[c][l := None]], c, l + 1) == Freed(cs, c, l)
  {
    var cs' := cs[c := cs[c][l := None]];
    forall k | 0 <= k < |cs| ensures Freed(cs', c, l + 1)[k] == Freed(cs, c, l)[k] {}
  }

  lemma FreedNext(cs: seq<seq<Option<nat>>>, c: nat)
    requires c < |cs|
    ensures Freed(cs, c, |cs[c]|) == if c + 1 < |cs| then Freed(cs, c + 1, 0) else cs
  {
    forall k | 0 <= k < |cs|
      ensures Freed(cs, c, |cs[c]|)[k] == if c + 1 < |cs| then Freed(cs, c + 1, 0)[k] else cs[k]
    {
    }
  }

  function FreedState(s: State, t: nat, c: nat, l: nat): State
    requires t < |s.threads|
  {
    s.(threads := s.threads[t := Idle], containers := Freed(s.containers, c, l))
  }

  /** The release loop undisturbed frees everything from where it is to the end of
      the containers, and nothing else. */
  lemma {:induction false} ReleaseAllAlone(s: State, t: nat) returns (n: nat)
    requires WeakInv(s) && t < |s.threads| && s.threads[t].AllRelease?
    ensures Onward(s, t, n) == FreedState(s, t, s.threads[t].c, s.threads[t].l)
    decreases |s.containers| - s.threads[t].c,
      if s.threads[t].c < |s.containers| then |s.containers[s.threads[t].c]| - s.threads[t].l else 0
  {
    var AllRelease(c, l, last) := s.threads[t];
    assert PcShape(s, s.threads[t]);
    var s' := TableNext(s, t, Advance);
    OnwardNext(s, t, 1, s');
    assert s'.threads[t := Idle] == s.threads[t := Idle];
    if l < |s.containers[c]| {
      n := ReleaseAllAlone(s', t);
      FreedOneMore(s.containers, c, l);
    } else {
      FreedNext(s.containers, c);
      n := 0;
      if c + 1 < |s.containers| { n := ReleaseAllAlone(s', t); }
    }
    OnwardNext(s, t, n + 1, s');
    n := n + 1;
  }

  lemma PublishAlone(s: State, t: nat) returns (n: nat)
    requires WeakInv(s) && t < |s.threads| && s.threads[t].SetHp?
    ensures var SetHp(first, hp) := s.threads[t];
      Onward(s, t, n) == FreedState(s.(hashpower := hp), t, first, 0)
  {
    var SetHp(first, hp) := s.threads[t];
    var s' := Go(s, t, AllRelease(first, 0, Back(s))).(hashpower := hp);
    OnwardNext(s, t, 1, s');
    n := ReleaseAllAlone(s', t);
    OnwardNext(s, t, n + 1, s');
    n := n + 1;
    assert s'.threads[t := Idle] == s.threads[t := Idle];
  }

  /** A resize undisturbed: a thread that has the whole table grows it, or lets it
      be if the hashpower is not the expected one; in the end it has released every
      lock that it held, and those of the container that it appended. */
  lemma ResizeAlone(s: State, t: nat, orig_hp: nat, new_hp: nat) returns (n: nat)
    requires WeakInv(s) && t < |s.threads| && s.threads[t].AllHeld?
    ensures var a := Grow(orig_hp, new_hp); var first := s.threads[t].first; var s1 := Next(s, t, a);
      && WeakInv(s1) && |s1.threads| == |s.threads|
      && var grows := orig_hp == s.hashpower && new_hp > orig_hp;
         var r := if grows then ResizeLocks(s, t, Pow2(new_hp)).(hashpower := new_hp) else s;
         Onward(s1, t, n) == FreedState(r, t, first, 0)
  {
    var a := Grow(orig_hp, new_hp);
    StepKeepsWeakInv(s, t, a);
    StepLarger(s, t, a);
    var s1 := Next(s, t, a);
    if s1.threads[t].SetHp? { n := PublishAlone(s1, t); } else { n := ReleaseAllAlone(s1, t); }
    assert s1.threads[t := Idle] == s.threads[t := Idle];
  }

  /** After a resize every stripe that the new hashpower calls for is there and free. */
  lemma ResizeMakesRoom(s: State, t: nat, new_hp: nat, b: nat)
    requires WeakInv(s) && t < |s.threads| && s.threads[t].AllHeld? && new_hp > s.hashpower && b < Pow2(new_hp)
    ensures var r := FreedState(ResizeLocks(s, t, Pow2(new_hp)), t, s.threads[t].first, 0);
      AllFree(r, Back(r), [LockInd(b)])
  {
    assert PlaceOk(s, s.threads[t]);
    StripeInRange(b, new_hp);
  }
}
