/**
 The profiler's sample trees: samples linked by first child and next sibling, and
 the flattening of a whole tree, in place, into the chain of links that goes back
 to the allocator in one piece.
 */
module SampleTree {

  /** The link every pooled object starts with is the field `next`. */
  class Sample {
    var next: Sample?
    var name_hash: nat
    var parent: Sample?
    var first_child: Sample?
    var last_child: Sample?
    var next_sibling: Sample?
    var nb_children: nat
    var call_count: nat
    var recurse_depth: nat
    var max_recurse_depth: nat
    ghost var children: seq<Sample>     // the child list, in order
    ghost var depth: nat                // distance from the root
    ghost var index: nat                // place in the parent's child list

    constructor ()
      ensures next == null && parent == null && first_child == null && last_child == null && next_sibling == null
      ensures nb_children == 0 && name_hash == 0 && call_count == 0 && recurse_depth == 0 && max_recurse_depth == 0
      ensures children == []
      ensures depth == index == 0
    {
      next, parent, first_child, last_child, next_sibling := null, null, null, null, null;
      nb_children, name_hash, call_count, recurse_depth, max_recurse_depth := 0, 0, 0, 0, 0;
      children, depth, index := [], 0, 0;
    }
  }

  /** The shape of a list of siblings with all their descendants. */
  datatype Forest = Nil | Node(s: Sample, kids: Forest, rest: Forest)

  /** Every sample of the forest, each before its children and these before its
      next sibling. */
  ghost function PreOrder(f: Forest): seq<Sample> {
    match f
    case Nil => []
    case Node(s, kids, rest) => [s] + PreOrder(kids) + PreOrder(rest)
  }

  ghost function Samples(f: Forest): set<Sample> {
    match f
    case Nil => {}
    case Node(s, kids, rest) => {s} + Samples(kids) + Samples(rest)
  }

  /** The child and sibling pointers, from `head`, have the shape of f. */
  ghost predicate Represents(f: Forest, head: Sample?)
    reads Samples(f)
  {
    match f
    case Nil => head == null
    case Node(s, kids, rest) => head == s && Represents(kids, s.first_child) && Represents(rest, s.next_sibling)
  }

  ghost predicate NoDuplicates(chain: seq<Sample>) {
    forall i, j :: 0 <= i < j < |chain| ==> chain[i] != chain[j]
  }

  ghost function Following(chain: seq<Sample>, i: int, after: Sample?): Sample? {
    if 0 <= i + 1 < |chain| then chain[i + 1] else after
  }

  /** Each sample's link is the following one; the last one's is `after`. */
  ghost predicate Linked(chain: seq<Sample>, after: Sample?)
    reads chain
  {
    forall i :: 0 <= i < |chain| ==> chain[i].next == Following(chain, i, after)
  }

  /** Child info is cleared. */
  ghost predicate Cleared(chain: seq<Sample>)
    reads chain
  {
    forall i :: 0 <= i < |chain| ==>
      chain[i].first_child == null && chain[i].last_child == null && chain[i].nb_children == 0
  }

  ghost function Last(chain: seq<Sample>): Sample
    requires chain != []
  {
    chain[|chain| - 1]
  }

  /** No sample occurs twice. */
  ghost predicate Distinct(f: Forest) {
    match f
    case Nil => true
    case Node(s, kids, rest) =>
      s !in Samples(kids) && s !in Samples(rest) && Samples(kids) !! Samples(rest) && Distinct(kids) && Distinct(rest)
  }

  ghost predicate Within(chain: seq<Sample>, r: set<Sample>) {
    forall i :: 0 <= i < |chain| ==> chain[i] in r
  }

  lemma JoinWithin(a: seq<Sample>, b: seq<Sample>, r: set<Sample>, q: set<Sample>)
    requires Within(a, r) && Within(b, q)
    ensures Within(a + b, r + q)
  {
  }

  lemma JoinDistinct(a: seq<Sample>, b: seq<Sample>, r: set<Sample>, q: set<Sample>)
    requires Within(a, r) && Within(b, q) && r !! q && NoDuplicates(a) && NoDuplicates(b)
    ensures NoDuplicates(a + b)
  {
  }

  /** The pre-order is made of the forest's samples, without repetition. */
  lemma {:induction false} PreOrderOk(f: Forest)
    requires Distinct(f)
    ensures Within(PreOrder(f), Samples(f)) && NoDuplicates(PreOrder(f))
  {
    if f.Node? {
      PreOrderOk(f.kids);
      PreOrderOk(f.rest);
      JoinDistinct([f.s], PreOrder(f.kids), {f.s}, Samples(f.kids));
      JoinWithin([f.s], PreOrder(f.kids), {f.s}, Samples(f.kids));
      JoinDistinct([f.s] + PreOrder(f.kids), PreOrder(f.rest), {f.s} + Samples(f.kids), Samples(f.rest));
      JoinWithin([f.s] + PreOrder(f.kids), PreOrder(f.rest), {f.s} + Samples(f.kids), Samples(f.rest));
    }
  }

  lemma {:induction false} SamplesAllocated(f: Forest)
    ensures forall s :: s in Samples(f) ==> allocated(s)
  {
    if f.Node? {
      SamplesAllocated(f.kids);
      SamplesAllocated(f.rest);
    }
  }

  /** A tree in pre-order. */
  ghost function Tree(s: Sample, kids: Forest): (chain: seq<Sample>)
    ensures chain != []
  {
    [s] + PreOrder(kids)
  }

  ghost function TreeSet(s: Sample, kids: Forest): set<Sample> { {s} + Samples(kids) }

  lemma TreeOk(s: Sample, kids: Forest)
    requires Distinct(kids) && s !in Samples(kids)
    ensures Within(Tree(s, kids), TreeSet(s, kids)) && NoDuplicates(Tree(s, kids)) && Tree(s, kids)[0] == s
    ensures Last(Tree(s, kids)) in TreeSet(s, kids)
  {
    PreOrderOk(kids);
    JoinWithin([s], PreOrder(kids), {s}, Samples(kids));
    JoinDistinct([s], PreOrder(kids), {s}, Samples(kids));
    var chain := Tree(s, kids);
    assert chain[|chain| - 1] in TreeSet(s, kids);
  }

  lemma Join(a: seq<Sample>, b: seq<Sample>, after: Sample?)
    requires a != [] && b != [] && Linked(a, b[0]) && Linked(b, after)
    ensures Linked(a + b, after)
  {
    forall i | 0 <= i < |a + b| ensures (a + b)[i].next == Following(a + b, i, after) {
      if i < |a| { assert a[i].next == Following(a, i, b[0]); }
      else { assert b[i - |a|].next == Following(b, i - |a|, after); }
    }
  }

  /** The last link is set, which joins the chain to what follows. */
  method SetLastLink(link: Sample, after: Sample?, ghost chain: seq<Sample>)
    requires chain != [] && link == Last(chain) && NoDuplicates(chain) && Linked(chain, null)
    modifies link`next
    ensures Linked(chain, after) && (old(Cleared(chain)) ==> Cleared(chain))
  {
    assert forall i :: 0 <= i < |chain| - 1 ==> chain[i] != link;
    assert forall i :: 0 <= i < |chain| - 1 ==> chain[i].next == chain[i + 1];
    link.next := after;
    assert Linked(chain, after);
  }

  method ClearChildInfo(sample: Sample, ghost below: seq<Sample>, ghost chain: seq<Sample>)
    requires chain == [sample] + below && Linked(chain, null) && Cleared(below)
    modifies sample`first_child, sample`last_child, sample`nb_children
    ensures Linked(chain, null) && Cleared(chain)
  {
    sample.first_child := null;
    sample.last_child := null;
    sample.nb_children := 0;
    forall i | 0 <= i < |chain| ensures chain[i].first_child == null && chain[i].last_child == null
      && chain[i].nb_children == 0 {
      if i > 0 { assert chain[i] == below[i - 1]; }
    }
  }

  /** One turn of the loop over the children: the child's tree is flattened, its
      last link set to the next sibling, and the chain before it leads into it. */
  method FlattenChild(child: Sample, nb_samples: nat, ghost pre: seq<Sample>, ghost before: set<Sample>,
      ghost below: Forest, ghost after: Forest)
    returns (cur_link: Sample, nb: nat)
    requires Represents(below, child.first_child) && Distinct(below) && child !in Samples(below)
    requires pre != [] && Linked(pre, child) && Within(pre, before) && before !! TreeSet(child, below)
    requires Represents(after, child.next_sibling) && Samples(after) !! TreeSet(child, below)
    modifies TreeSet(child, below)`next, TreeSet(child, below)`first_child
    modifies TreeSet(child, below)`last_child, TreeSet(child, below)`nb_children
    ensures Linked(pre + Tree(child, below), child.next_sibling) && Cleared(Tree(child, below))
    ensures Within(pre + Tree(child, below), before + TreeSet(child, below))
    ensures Represents(after, child.next_sibling)
    ensures cur_link == Last(Tree(child, below)) && nb == nb_samples + |Tree(child, below)|
    decreases |PreOrder(below)|, 3
  {
    TreeOk(child, below);
    SamplesAllocated(after);
    cur_link, nb := Flatten(child, nb_samples, below);
    assert cur_link in TreeSet(child, below);
    assert Represents(after, child.next_sibling);
    SetLastLink(cur_link, child.next_sibling, Tree(child, below));
    assert Linked(pre, child);
    Join(pre, Tree(child, below), child.next_sibling);
    JoinWithin(pre, Tree(child, below), before, TreeSet(child, below));
  }

  /** What is left to chain after one more child. */
  lemma OneMoreChild(kids: Forest, done: seq<Sample>, rest: Forest, sample: Sample, before: set<Sample>)
    requires rest.Node? && PreOrder(kids) == done + PreOrder(rest)
    requires before + Samples(rest) == TreeSet(sample, kids) && before !! Samples(rest) && Distinct(rest)
    ensures var Node(child, below, after) := rest;
      var chain, these := Tree(child, below), TreeSet(child, below);
      && PreOrder(kids) == (done + chain) + PreOrder(after) && [sample] + (done + chain) == ([sample] + done) + chain
      && before !! these && Samples(after) !! these && these <= TreeSet(sample, kids)
      && (before + these) + Samples(after) == TreeSet(sample, kids) && (before + these) !! Samples(after)
      && |PreOrder(below)| < |PreOrder(kids)| && |PreOrder(after)| < |PreOrder(rest)|
      && Last(([sample] + done) + chain) == Last(chain)
  {
    var Node(child, below, after) := rest;
    OneMoreChain(sample, PreOrder(kids), done, PreOrder(rest), Tree(child, below), PreOrder(after));
  }

  lemma OneMoreChain(sample: Sample, all: seq<Sample>, done: seq<Sample>, rest: seq<Sample>, chain: seq<Sample>,
      after: seq<Sample>)
    requires all == done + rest && rest == chain + after && chain != []
    ensures all == (done + chain) + after && [sample] + (done + chain) == ([sample] + done) + chain
    ensures Last(([sample] + done) + chain) == Last(chain)
    ensures |chain| <= |rest| <= |all| && |after| < |rest|
  {
  }

  /** FlattenSampleTree: the tree of `sample`, with `kids` below it, becomes a
      null-terminated chain of all its samples in pre-order. */
  method Flatten(sample: Sample, nb_samples: nat, ghost kids: Forest) returns (cur_link: Sample, nb: nat)
    requires Represents(kids, sample.first_child) && Distinct(kids) && sample !in Samples(kids)
    modifies TreeSet(sample, kids)`next, TreeSet(sample, kids)`first_child
    modifies TreeSet(sample, kids)`last_child, TreeSet(sample, kids)`nb_children
    ensures Linked(Tree(sample, kids), null) && Cleared(Tree(sample, kids))
    ensures cur_link == Last(Tree(sample, kids)) && nb == nb_samples + |Tree(sample, kids)|
    decreases |PreOrder(kids)|, 2
  {
    sample.next := sample.first_child;
    cur_link, nb := FlattenChildren(sample, nb_samples + 1, kids);
    ClearChildInfo(sample, PreOrder(kids), Tree(sample, kids));
  }

  /** Its loop over the children. */
  method FlattenChildren(sample: Sample, nb_samples: nat, ghost kids: Forest) returns (cur_link: Sample, nb: nat)
    requires Represents(kids, sample.first_child) && Distinct(kids) && sample !in Samples(kids)
    requires sample.next == sample.first_child
    modifies TreeSet(sample, kids)`next, TreeSet(sample, kids)`first_child
    modifies TreeSet(sample, kids)`last_child, TreeSet(sample, kids)`nb_children
    ensures Linked(Tree(sample, kids), null) && Cleared(PreOrder(kids))
    ensures cur_link == Last(Tree(sample, kids)) && nb == nb_samples + |PreOrder(kids)|
    decreases |PreOrder(kids)|, 1
  {
    cur_link := sample;
    nb := nb_samples;
    var child := sample.first_child;
    ghost var done: seq<Sample>, before, rest := [], {sample}, kids;
    ghost var pre := [sample];
    while child != null
      invariant PreOrder(kids) == done + PreOrder(rest) && pre == [sample] + done
      invariant before + Samples(rest) == TreeSet(sample, kids) && before !! Samples(rest) && Distinct(rest)
      invariant Within(pre, before) && sample in before
      invariant Represents(rest, child)
      invariant Linked(pre, child) && Cleared(done)
      invariant cur_link == Last(pre) && nb == nb_samples + |done|
      decreases |PreOrder(rest)|
    {
      ghost var Node(_, below, after) := rest;
      OneMoreChild(kids, done, rest, sample, before);
      ghost var chain, these := Tree(child, below), TreeSet(child, below);
      assert Within(done, before) by { assert forall i :: 0 <= i < |done| ==> done[i] == pre[i + 1]; }
      cur_link, nb := FlattenChild(child, nb, pre, before, below, after);
      child := child.next_sibling;
      assert Cleared(done);
      pre, done, before, rest := pre + chain, done + chain, before + these, after;
    }
    assert done == PreOrder(kids);
  }

  // --------------------------------------------------------------- freeing

  /** The allocator as one thread sees it: the free list through the links. */
  class SamplePool {
    var first_free: Sample?
    var nb_inuse: int
    var nb_free: int
    ghost var free: seq<Sample>

    ghost predicate Valid()
      reads this, free
    {
      Linked(free, null) && first_free == Following(free, -1, null)
    }

    /** ObjectAllocator_Push of a linked range. */
    method Push(start: Sample, end: Sample, ghost range: seq<Sample>)
      requires Valid() && range != [] && start == range[0] && end == Last(range)
      requires NoDuplicates(range) && Linked(range, null) && forall s :: s in range ==> s !in free
      modifies this`first_free, this`free, end`next
      ensures Valid() && free == range + old(free)
    {
      assert range[|range| - 1] in range;
      assert forall i :: 0 <= i < |free| ==> free[i] != end;
      SetLastLink(end, first_free, range);
      assert Linked(free, null);
      if free == [] { assert range + free == range; } else { Join(range, free, null); }
      first_free := start;
      free := range + free;
    }

    /** ObjectAllocator_Free. */
    method Free(sample: Sample)
      requires Valid() && sample !in free && sample.next == null
      modifies this, sample`next
      ensures Valid() && free == [sample] + old(free)
      ensures nb_inuse == old(nb_inuse) - 1 && nb_free == old(nb_free) + 1
    {
      Push(sample, sample, [sample]);
      nb_inuse := nb_inuse - 1;
      nb_free := nb_free + 1;
    }

    /** ObjectAllocator_FreeRange. */
    method FreeRange(start: Sample, end: Sample, count: nat, ghost range: seq<Sample>)
      requires Valid() && range != [] && start == range[0] && end == Last(range) && count == |range|
      requires NoDuplicates(range) && Linked(range, null) && forall s :: s in range ==> s !in free
      modifies this, end`next
      ensures Valid() && free == range + old(free)
      ensures nb_inuse == old(nb_inuse) - count && nb_free == old(nb_free) + count
    {
      Push(start, end, range);
      nb_inuse := nb_inuse - count;
      nb_free := nb_free + count;
    }
  }

  /** FreeSampleTree: precisely the tree's samples go back to the allocator, each
      once, and the counters move by their number. */
  method FreeSampleTree(sample: Sample, pool: SamplePool, ghost kids: Forest)
    requires Represents(kids, sample.first_child) && Distinct(kids) && sample !in Samples(kids)
    requires pool.Valid() && forall s :: s in pool.free ==> s !in TreeSet(sample, kids)
    modifies pool
    modifies TreeSet(sample, kids)`next, TreeSet(sample, kids)`first_child
    modifies TreeSet(sample, kids)`last_child, TreeSet(sample, kids)`nb_children
    ensures pool.Valid() && pool.free == Tree(sample, kids) + old(pool.free) && NoDuplicates(Tree(sample, kids))
    ensures pool.nb_inuse == old(pool.nb_inuse) - |Tree(sample, kids)|
    ensures pool.nb_free == old(pool.nb_free) + |Tree(sample, kids)|
  {
    TreeOk(sample, kids);
    ghost var chain := Tree(sample, kids);
    var last_link, nb_cleared_samples := Flatten(sample, 0, kids);
    assert pool.Valid();
    assert sample.next == Following(chain, 0, null) by { assert chain[0].next == Following(chain, 0, null); }
    assert forall s :: s in chain ==> s in TreeSet(sample, kids);
    if sample.next != null {
      pool.FreeRange(sample, last_link, nb_cleared_samples, chain);
    } else {
      assert chain == [sample];
      pool.Free(sample);
    }
  }

  // -------------------------------------------------------------- building

  /** p's child pointers describe p.children, the last child included. */
  ghost predicate Family(p: Sample)
    reads p`first_child, p`last_child, p`nb_children, p`children, p`depth
    reads p.children`parent, p.children`depth, p.children`index, p.children`next_sibling
  {
    && p.first_child == Following(p.children, -1, null)
    && p.last_child == (if p.children == [] then null else Last(p.children))
    && p.nb_children == |p.children|
    && forall i :: 0 <= i < |p.children| ==> ChildOk(p, i)
  }

  ghost predicate ChildOk(p: Sample, i: nat)
    requires i < |p.children|
    reads p`children, p`depth, p.children`parent, p.children`depth, p.children`index, p.children`next_sibling
  {
    var c := p.children[i];
    c.parent == p && c.depth == p.depth + 1 && c.index == i && c.next_sibling == Following(p.children, i, null)
  }

  ghost predicate HasParent(s: Sample, samples: set<Sample>)
    reads s`parent, s`index, samples`children
  {
    s.parent != null && s.parent in samples && s.index < |s.parent.children| && s.parent.children[s.index] == s
  }

  /** A set of samples that is a tree below root: all families are in order, and
      every other sample is among its parent's children. */
  ghost predicate TreeOf(root: Sample, samples: set<Sample>)
    reads samples`first_child, samples`last_child, samples`next_sibling, samples`parent, samples`nb_children,
      samples`children, samples`depth, samples`index
  {
    && root in samples && root.parent == null && root.depth == 0 && root.next_sibling == null
    && (forall p {:trigger Family(p)} :: p in samples ==> Within(p.children, samples) && Family(p))
    && (forall s {:trigger HasParent(s, samples)} :: s in samples && s != root ==> HasParent(s, samples))
  }

  /** What an append below p may touch besides p: its last child. */
  ghost function Siblings(p: Sample): set<Sample>
    reads p
  {
    if p.last_child == null then {} else {p.last_child}
  }

  /** The last child of `parent` is in nobody else's family, and not the root. */
  lemma LastIsOwn(root: Sample, samples: set<Sample>, parent: Sample, sample: Sample)
    requires TreeOf(root, samples) && parent in samples && sample !in samples
    ensures parent.last_child == null <==> parent.children == []
    ensures parent.first_child == null <==> parent.children == []
    ensures parent.last_child != null ==> parent.last_child in samples && parent.last_child != root
    ensures forall i :: 0 <= i < |parent.children| ==> parent.children[i] != sample
    ensures forall i :: 0 <= i < |parent.children| - 1 ==> parent.children[i] != parent.last_child
    ensures forall p, i :: p in samples && p != parent && 0 <= i < |p.children| ==>
      p.children[i] != parent.last_child && p.children[i] != sample
  {
    assert Family(parent);
    if parent.children != [] {
      assert ChildOk(parent, |parent.children| - 1) && parent.children[|parent.children| - 1] in samples;
    }
    forall i | 0 <= i < |parent.children| - 1 ensures parent.children[i] != parent.last_child {
      assert ChildOk(parent, i);
    }
    forall p, i | p in samples && p != parent && 0 <= i < |p.children|
      ensures p.children[i] != parent.last_child && p.children[i] != sample
    {
      assert Family(p) && ChildOk(p, i);
    }
  }

  ghost predicate FirstOfName(children: seq<Sample>, sample: Sample, name_hash: nat)
    reads children
  {
    exists k :: 0 <= k < |children| && children[k] == sample && sample.name_hash == name_hash && forall i ::
      0 <= i < k ==> children[i].name_hash != name_hash
  }

  function Max(a: nat, b: nat): (r: nat)
    ensures r >= a && r >= b && (r == a || r == b)
  {
    if a < b then b else a
  }

  datatype Outcome = Pushed | Aggregated | Recursive

  class SampleTree {
    var root: Sample
    var current_parent: Sample
    ghost var samples: set<Sample>

    ghost predicate Valid()
      reads this
      reads samples`first_child, samples`last_child, samples`next_sibling, samples`parent, samples`nb_children,
        samples`children, samples`depth, samples`index
    {
      TreeOf(root, samples) && current_parent in samples
    }

    constructor ()
      ensures Valid() && samples == {root} && current_parent == root && root.children == []
    {
      var r := new Sample();
      r.call_count := 1;
      root, current_parent, samples := r, r, {r};
    }

    /** The search for an earlier sample of the same name. */
    method FindChild(parent: Sample, name_hash: nat) returns (sibling: Sample?, ghost k: nat)
      requires Valid() && parent in samples
      ensures k <= |parent.children| && (forall i :: 0 <= i < k ==> parent.children[i].name_hash != name_hash)
      ensures sibling == Following(parent.children, k - 1, null)
        && (sibling != null ==> sibling.name_hash == name_hash && sibling in samples)
    {
      assert Family(parent);
      sibling := parent.first_child;
      k := 0;
      while sibling != null && sibling.name_hash != name_hash
        invariant k <= |parent.children| && sibling == Following(parent.children, k - 1, null)
        invariant forall i :: 0 <= i < k ==> parent.children[i].name_hash != name_hash
        decreases |parent.children| - k
      {
        assert ChildOk(parent, k);
        sibling := sibling.next_sibling;
        k := k + 1;
      }
      assert k < |parent.children| ==> parent.children[k] in samples;
    }

    /** "Add sample to its parent". */
    static method Link(parent: Sample, sample: Sample)
      requires parent != sample && (parent.first_child == null <==> parent.last_child == null)
        && parent.last_child != sample
      modifies parent`first_child, parent`last_child, parent`nb_children, Siblings(parent)`next_sibling
      modifies parent`children, sample`parent, sample`depth, sample`index
      ensures parent.first_child == (if old(parent.first_child) == null then sample else old(parent.first_child))
      ensures parent.last_child == sample && parent.nb_children == old(parent.nb_children) + 1
      ensures old(parent.last_child) != null ==> old(parent.last_child).next_sibling == sample
      ensures parent.children == old(parent.children) + [sample] && sample.parent == parent
      ensures sample.depth == parent.depth + 1 && sample.index == |old(parent.children)|
    {
      sample.parent := parent;
      sample.depth, sample.index := parent.depth + 1, |parent.children|;
      parent.nb_children := parent.nb_children + 1;
      if parent.first_child == null {
        parent.first_child := sample;
        parent.last_child := sample;
      } else {
        parent.last_child.next_sibling := sample;
        parent.last_child := sample;
      }
      parent.children := parent.children + [sample];
    }

    /** ... which leaves the other families as they are, */
    static method LinkApart(parent: Sample, sample: Sample, ghost others: set<Sample>)
      requires parent != sample && (parent.first_child == null <==> parent.last_child == null)
        && parent.last_child != sample
      requires parent !in others && sample !in others
      requires forall p {:trigger Family(p)} :: p in others ==> Family(p)
      requires forall p, i :: p in others && 0 <= i < |p.children| ==>
        p.children[i] != parent.last_child && p.children[i] != sample
      modifies parent`first_child, parent`last_child, parent`nb_children, Siblings(parent)`next_sibling
      modifies parent`children, sample`parent, sample`depth, sample`index
      ensures parent.first_child == (if old(parent.first_child) == null then sample else old(parent.first_child))
      ensures parent.last_child == sample && parent.nb_children == old(parent.nb_children) + 1
      ensures old(parent.last_child) != null ==> old(parent.last_child).next_sibling == sample
      ensures parent.children == old(parent.children) + [sample] && sample.parent == parent
      ensures sample.depth == parent.depth + 1 && sample.index == |old(parent.children)|
      ensures forall p {:trigger Family(p)} :: p in others ==> Family(p)
    {
      Link(parent, sample);
      forall p | p in others ensures Family(p) { assert old(Family(p)); }
    }

    /** ... and the parent's in order. */
    static method LinkFamily(parent: Sample, sample: Sample, ghost others: set<Sample>)
      requires parent != sample && parent !in others && sample !in others && Family(parent)
        && sample !in parent.children
      requires forall p {:trigger Family(p)} :: p in others ==> Family(p)
      requires forall p, i :: p in others && 0 <= i < |p.children| ==>
        p.children[i] != parent.last_child && p.children[i] != sample
      requires sample.next_sibling == null
      modifies parent`first_child, parent`last_child, parent`nb_children, Siblings(parent)`next_sibling
      modifies parent`children, sample`parent, sample`depth, sample`index
      ensures parent.children == old(parent.children) + [sample] && sample.parent == parent
      ensures sample.depth == parent.depth + 1 && sample.index == |old(parent.children)|
      ensures Family(parent)
      ensures forall p {:trigger Family(p)} :: p in others ==> Family(p)
    {
      ghost var siblings := parent.children;
      assert siblings != [] ==> ChildOk(parent, |siblings| - 1);
      forall i | 0 <= i < |siblings| - 1 ensures siblings[i] != parent.last_child { assert ChildOk(parent, i); }
      LinkApart(parent, sample, others);
      forall i | 0 <= i < |parent.children| ensures ChildOk(parent, i) {
        if i < |siblings| { assert old(ChildOk(parent, i)); }
      }
    }

    /** ... in a whole tree: all families are in order, with one more sample. */
    static method LinkInTree(parent: Sample, sample: Sample, ghost root: Sample, ghost all: set<Sample>)
      requires TreeOf(root, all) && parent in all && sample !in all
      requires sample.first_child == null && sample.last_child == null && sample.next_sibling == null
      requires sample.nb_children == 0 && sample.children == []
      modifies parent`first_child, parent`last_child, parent`nb_children, Siblings(parent)`next_sibling
      modifies parent`children, sample`parent, sample`depth, sample`index
      ensures parent.children == old(parent.children) + [sample] && sample.parent == parent
      ensures sample.index == |old(parent.children)| && root.next_sibling == null
      ensures forall p {:trigger Family(p)} :: p in all + {sample} ==> Within(p.children, all + {sample}) && Family(p)
    {
      LastIsOwn(root, all, parent, sample);
      TreeClosed(root, all);
      assert Family(parent);
      LinkFamily(parent, sample, all - {parent});
      assert Family(sample);
      forall p | p in all + {sample} ensures Within(p.children, all + {sample}) && Family(p) {
        if p in all { assert old(Within(p.children, all)); }
      }
    }

    /** A new last child. */
    method Append(parent: Sample, sample: Sample)
      requires Valid() && parent in samples && sample !in samples
      requires sample.first_child == null && sample.last_child == null && sample.next_sibling == null
      requires sample.nb_children == 0 && sample.children == []
      modifies this`samples, this`current_parent
      modifies parent`first_child, parent`last_child, parent`nb_children, Siblings(parent)`next_sibling
      modifies parent`children, sample`parent, sample`depth, sample`index
      ensures Valid() && root == old(root) && samples == old(samples) + {sample} && current_parent == sample
      ensures sample.parent == parent && parent.children == old(parent.children) + [sample]
    {
      ghost var all := samples;
      LinkInTree(parent, sample, root, all);
      samples := samples + {sample};
      current_parent := sample;
      forall s | s in samples && s != root ensures HasParent(s, samples) {
        if s != sample {
          assert old(HasParent(s, samples)) && s.parent == old(s.parent) && s.depth == old(s.depth)
            && s.index == old(s.index);
        }
      }
      assert root.parent == null && root.depth == 0;
      assert TreeOf(root, samples);
    }

    /** The counters of a call that needs no new sample. */
    method CountCall(sample: Sample, recursive: bool)
      requires Valid() && sample in samples
      modifies sample`call_count, sample`recurse_depth, sample`max_recurse_depth
      ensures Valid() && sample.call_count == old(sample.call_count) + 1
      ensures sample.recurse_depth == old(sample.recurse_depth) + (if recursive then 1 else 0)
      ensures sample.max_recurse_depth == if recursive then Max(old(sample.max_recurse_depth), sample.recurse_depth)
        else old(sample.max_recurse_depth)
    {
      if recursive {
        sample.recurse_depth := sample.recurse_depth + 1;
        sample.max_recurse_depth := Max(sample.max_recurse_depth, sample.recurse_depth);
      }
      sample.call_count := sample.call_count + 1;
    }

    method PushNew(parent: Sample, name_hash: nat) returns (sample: Sample)
      requires Valid() && parent in samples
      modifies this`samples, this`current_parent
      modifies parent`first_child, parent`last_child, parent`nb_children, Siblings(parent)`next_sibling, parent`children
      ensures Valid() && fresh(sample) && samples == old(samples) + {sample} && current_parent == sample
      ensures sample.parent == parent && sample.name_hash == name_hash && sample.call_count == 1
        && sample.recurse_depth == sample.max_recurse_depth == 0 && sample.children == []
      ensures parent.children == old(parent.children) + [sample]
    {
      assert Family(parent);
      assert parent.children != [] ==> parent.children[|parent.children| - 1] in samples;
      sample := new Sample();
      sample.name_hash, sample.call_count := name_hash, 1;
      Append(parent, sample);
    }

    /** SampleTree_Push: the first child of that name again (RMTSF_Aggregate); or
        the parent itself (RMTSF_Recursive); or a new last child. */
    method Push(name_hash: nat, aggregate: bool, recursive: bool) returns (sample: Sample, outcome: Outcome)
      requires Valid()
      modifies this`samples, this`current_parent
      modifies samples`first_child, samples`last_child, samples`nb_children, samples`next_sibling
      modifies samples`children, samples`call_count, samples`recurse_depth, samples`max_recurse_depth
      ensures Valid()
      ensures outcome.Aggregated? <==>
        aggregate && exists i ::
        0 <= i < |old(current_parent.children)| && old(current_parent.children)[i].name_hash == name_hash
      ensures outcome.Recursive? <==> !outcome.Aggregated? && recursive && old(current_parent.name_hash) == name_hash
      ensures outcome.Aggregated? ==> FirstOfName(old(current_parent.children), sample, name_hash)
      ensures outcome.Recursive? ==> sample == old(current_parent)
      ensures outcome.Pushed? ==>
        fresh(sample) && samples == old(samples) + {sample} && sample.parent == old(current_parent)
      ensures outcome.Pushed? ==> sample.name_hash == name_hash && sample.call_count == 1 && sample.children == []
      ensures outcome.Pushed? ==> old(current_parent).children == old(current_parent.children) + [sample]
      ensures !outcome.Pushed? ==>
        samples == old(samples) && old(current_parent).children == old(current_parent.children)
      ensures outcome.Pushed? ==> sample.recurse_depth == sample.max_recurse_depth == 0
      ensures !outcome.Pushed? ==> sample in samples && sample.call_count == old(sample.call_count) + 1
      ensures outcome.Aggregated? ==>
        sample.recurse_depth == old(sample.recurse_depth) && sample.max_recurse_depth == old(sample.max_recurse_depth)
      ensures outcome.Recursive? ==>
        && sample.recurse_depth == old(sample.recurse_depth) + 1
        && sample.max_recurse_depth == Max(old(sample.max_recurse_depth), sample.recurse_depth)
      ensures forall p :: p in old(samples) && p != sample ==>
        p.call_count == old(p.call_count) && p.recurse_depth == old(p.recurse_depth)
        && p.max_recurse_depth == old(p.max_recurse_depth)
      ensures forall p :: p in old(samples) && p != old(current_parent) ==> p.children == old(p.children)
      ensures current_parent == sample
    {
      var parent := current_parent;
      assert Family(parent);
      assert parent.children != [] ==> parent.children[|parent.children| - 1] in samples;
      if aggregate {
        var sibling, k := FindChild(parent, name_hash);
        if sibling != null {
          current_parent := sibling;
          CountCall(sibling, false);
          return sibling, Aggregated;
        }
      }
      if recursive && parent.name_hash == name_hash {
        CountCall(parent, true);
        return parent, Recursive;
      }
      sample := PushNew(parent, name_hash);
      outcome := Pushed;
    }

    /** SampleTree_Pop. */
    method Pop(sample: Sample)
      requires Valid() && sample in samples && sample != root
      modifies this`current_parent
      ensures Valid() && current_parent == sample.parent
    {
      assert HasParent(sample, samples);
      current_parent := sample.parent;
    }
  }

  // ------------------------------------- a tree that was built can be freed

  ghost predicate Closed(samples: set<Sample>)
    reads samples`children
  {
    forall p :: p in samples ==> Within(p.children, samples)
  }

  /** The forest of the samples cs and all their descendants, n levels deep. */
  ghost function Build(samples: set<Sample>, cs: seq<Sample>, n: nat): Forest
    requires Closed(samples) && Within(cs, samples)
    reads samples`children
    decreases n, |cs|
  {
    if cs == [] || n == 0 then Nil
    else Node(cs[0], Build(samples, cs[0].children, n - 1), Build(samples, cs[1..], n))
  }

  /** cs is the end of a list of children: siblings at depth d, linked in order. */
  ghost predicate AreSiblings(cs: seq<Sample>, d: nat)
    reads cs`depth, cs`next_sibling
  {
    && NoDuplicates(cs)
    && forall i :: 0 <= i < |cs| ==> cs[i].depth == d && cs[i].next_sibling == Following(cs, i, null)
  }

  lemma {:induction false} BuildWithin(samples: set<Sample>, cs: seq<Sample>, n: nat)
    requires Closed(samples) && Within(cs, samples)
    ensures Samples(Build(samples, cs, n)) <= samples
    decreases n, |cs|
  {
    if cs != [] && n > 0 {
      assert cs[0] in samples;
      BuildWithin(samples, cs[0].children, n - 1);
      BuildWithin(samples, cs[1..], n);
    }
  }

  lemma TreeClosed(root: Sample, samples: set<Sample>)
    requires TreeOf(root, samples)
    ensures Closed(samples)
  {
    forall p | p in samples ensures Within(p.children, samples) { assert Family(p); }
  }

  lemma ChildrenAreSiblings(root: Sample, samples: set<Sample>, p: Sample)
    requires TreeOf(root, samples) && p in samples
    ensures AreSiblings(p.children, p.depth + 1) && p.first_child == Following(p.children, -1, null)
  {
    assert Family(p);
    forall i, j | 0 <= i < j < |p.children| ensures p.children[i] != p.children[j] {
      assert ChildOk(p, i) && ChildOk(p, j);
    }
    forall i | 0 <= i < |p.children| ensures p.children[i].depth == p.depth + 1
      && p.children[i].next_sibling == Following(p.children, i, null) {
      assert ChildOk(p, i);
    }
  }

  lemma TailSiblings(cs: seq<Sample>, d: nat)
    requires AreSiblings(cs, d) && cs != []
    ensures AreSiblings(cs[1..], d) && cs[0].next_sibling == Following(cs[1..], -1, null) && cs[0] !in cs[1..]
  {
    var t := cs[1..];
    forall i | 0 <= i < |t| ensures t[i].depth == d && t[i].next_sibling == Following(t, i, null) {
      assert t[i] == cs[i + 1] && cs[i + 1].next_sibling == Following(cs, i + 1, null);
    }
  }

  lemma {:induction false} BuildRepresents(root: Sample, samples: set<Sample>, h: nat, cs: seq<Sample>, n: nat, d: nat)
    requires TreeOf(root, samples) && Closed(samples) && Within(cs, samples) && AreSiblings(cs, d)
    requires d + n == h + 1 && forall p :: p in samples ==> p.depth <= h
    ensures Represents(Build(samples, cs, n), Following(cs, -1, null))
    decreases n, |cs|
  {
    if cs != [] {
      assert cs[0] in samples;
      ChildrenAreSiblings(root, samples, cs[0]);
      BuildRepresents(root, samples, h, cs[0].children, n - 1, d + 1);
      TailSiblings(cs, d);
      BuildRepresents(root, samples, h, cs[1..], n, d);
    }
  }

  lemma ParentAbove(root: Sample, samples: set<Sample>, s: Sample)
    requires TreeOf(root, samples) && s in samples && s.depth > 0
    ensures s.parent != null && s.parent in samples && s.parent.depth + 1 == s.depth && s in s.parent.children
  {
    assert HasParent(s, samples);
    assert Family(s.parent);
    assert ChildOk(s.parent, s.index);
  }

  /** The ancestor of s at depth d. */
  ghost function Up(root: Sample, samples: set<Sample>, s: Sample, d: nat): (a: Sample)
    requires TreeOf(root, samples) && s in samples
    reads samples`first_child, samples`last_child, samples`next_sibling, samples`parent, samples`nb_children,
      samples`children, samples`depth, samples`index
    ensures a in samples
    decreases s.depth
  {
    if s.depth <= d then s
    else
      ParentAbove(root, samples, s);
      Up(root, samples, s.parent, d)
  }

  lemma {:induction false} UpParent(root: Sample, samples: set<Sample>, s: Sample, d: nat)
    requires TreeOf(root, samples) && s in samples && s.depth > d
    ensures Up(root, samples, s, d + 1).parent == Up(root, samples, s, d)
    decreases s.depth
  {
    ParentAbove(root, samples, s);
    if s.depth > d + 1 { UpParent(root, samples, s.parent, d); }
  }

  /** The forest holds exactly the samples whose ancestor at depth d is in cs. */
  lemma {:induction false} BuildHolds(root: Sample, samples: set<Sample>, h: nat, cs: seq<Sample>, n: nat,
      d: nat, s: Sample)
    requires TreeOf(root, samples) && Closed(samples) && Within(cs, samples) && AreSiblings(cs, d)
    requires d + n == h + 1 && forall p :: p in samples ==> p.depth <= h
    ensures s in Samples(Build(samples, cs, n)) <==> s in samples && s.depth >= d && Up(root, samples, s, d) in cs
    decreases n, |cs|
  {
    if cs != [] {
      assert cs[0] in samples;
      ChildrenAreSiblings(root, samples, cs[0]);
      BuildHolds(root, samples, h, cs[0].children, n - 1, d + 1, s);
      TailSiblings(cs, d);
      BuildHolds(root, samples, h, cs[1..], n, d, s);
      assert forall x :: x in cs <==> x == cs[0] || x in cs[1..];
      if s in samples && s.depth > d { UpToChild(root, samples, cs[0], s); }
    }
  }

  /** c is the ancestor of a deeper s just when one of c's children is. */
  lemma UpToChild(root: Sample, samples: set<Sample>, c: Sample, s: Sample)
    requires TreeOf(root, samples) && c in samples && s in samples && s.depth > c.depth
    ensures Up(root, samples, s, c.depth) == c <==> Up(root, samples, s, c.depth + 1) in c.children
  {
    UpParent(root, samples, s, c.depth);
    UpDepth(root, samples, s, c.depth + 1);
    ParentAbove(root, samples, Up(root, samples, s, c.depth + 1));
    ChildKnowsParent(root, samples, c, Up(root, samples, s, c.depth + 1));
  }

  lemma ChildKnowsParent(root: Sample, samples: set<Sample>, p: Sample, c: Sample)
    requires TreeOf(root, samples) && p in samples
    ensures c in p.children ==> c.parent == p
  {
    assert Family(p);
    forall i | 0 <= i < |p.children| ensures p.children[i].parent == p { assert ChildOk(p, i); }
  }

  lemma {:induction false} UpDepth(root: Sample, samples: set<Sample>, s: Sample, d: nat)
    requires TreeOf(root, samples) && s in samples && s.depth >= d
    ensures Up(root, samples, s, d).depth == d
    decreases s.depth
  {
    if s.depth > d {
      ParentAbove(root, samples, s);
      UpDepth(root, samples, s.parent, d);
    }
  }

  lemma {:induction false} BuildDistinct(root: Sample, samples: set<Sample>, h: nat, cs: seq<Sample>, n: nat, d: nat)
    requires TreeOf(root, samples) && Closed(samples) && Within(cs, samples) && AreSiblings(cs, d)
    requires d + n == h + 1 && forall p :: p in samples ==> p.depth <= h
    ensures Distinct(Build(samples, cs, n))
    decreases n, |cs|
  {
    if cs != [] {
      assert cs[0] in samples;
      FirstFamily(root, samples, cs, d);
      BuildDistinct(root, samples, h, cs[0].children, n - 1, d + 1);
      BuildDistinct(root, samples, h, cs[1..], n, d);
      FirstApart(root, samples, h, cs, n, d);
      KidsNotSiblings(root, samples, h, cs, n, d);
    }
  }

  lemma FirstFamily(root: Sample, samples: set<Sample>, cs: seq<Sample>, d: nat)
    requires TreeOf(root, samples) && Closed(samples) && Within(cs, samples) && AreSiblings(cs, d) && cs != []
    ensures cs[0] in samples && Within(cs[0].children, samples) && AreSiblings(cs[0].children, d + 1)
    ensures Within(cs[1..], samples) && AreSiblings(cs[1..], d) && cs[0] !in cs[1..]
  {
    assert cs[0] in samples;
    ChildrenAreSiblings(root, samples, cs[0]);
    TailSiblings(cs, d);
  }

  /** The first sibling is neither among its own descendants nor in a later tree. */
  lemma FirstApart(root: Sample, samples: set<Sample>, h: nat, cs: seq<Sample>, n: nat, d: nat)
    requires TreeOf(root, samples) && Closed(samples) && Within(cs, samples) && AreSiblings(cs, d) && cs != []
    requires d + n == h + 1 && n > 0 && (forall p :: p in samples ==> p.depth <= h) && cs[0] in samples
    ensures cs[0] !in Samples(Build(samples, cs[0].children, n - 1))
    ensures cs[0] !in Samples(Build(samples, cs[1..], n))
  {
    FirstFamily(root, samples, cs, d);
    BuildHolds(root, samples, h, cs[0].children, n - 1, d + 1, cs[0]);
    BuildHolds(root, samples, h, cs[1..], n, d, cs[0]);
  }

  lemma KidsNotSiblings(root: Sample, samples: set<Sample>, h: nat, cs: seq<Sample>, n: nat, d: nat)
    requires TreeOf(root, samples) && Closed(samples) && Within(cs, samples) && AreSiblings(cs, d) && cs != []
    requires d + n == h + 1 && n > 0 && (forall p :: p in samples ==> p.depth <= h) && cs[0] in samples
    ensures forall s :: s in Samples(Build(samples, cs[0].children, n - 1)) ==>
      s !in Samples(Build(samples, cs[1..], n))
  {
    forall s | s in Samples(Build(samples, cs[0].children, n - 1)) ensures s !in Samples(Build(samples, cs[1..], n)) {
      KidNotSibling(root, samples, h, cs, n, d, s);
    }
  }

  /** A descendant of c has c as its ancestor at c's depth. */
  lemma KidUp(root: Sample, samples: set<Sample>, h: nat, c: Sample, n: nat, s: Sample)
    requires TreeOf(root, samples) && Closed(samples) && c in samples && c.depth + 1 + n == h + 1
    requires forall p :: p in samples ==> p.depth <= h
    requires s in Samples(Build(samples, c.children, n))
    ensures s in samples && Up(root, samples, s, c.depth) == c
  {
    ChildrenAreSiblings(root, samples, c);
    BuildHolds(root, samples, h, c.children, n, c.depth + 1, s);
    UpParent(root, samples, s, c.depth);
    ChildKnowsParent(root, samples, c, Up(root, samples, s, c.depth + 1));
  }

  /** A descendant of the first sibling is not one of the later siblings' trees. */
  lemma KidNotSibling(root: Sample, samples: set<Sample>, h: nat, cs: seq<Sample>, n: nat, d: nat, s: Sample)
    requires TreeOf(root, samples) && Closed(samples) && Within(cs, samples) && AreSiblings(cs, d) && cs != []
    requires d + n == h + 1 && n > 0 && (forall p :: p in samples ==> p.depth <= h) && cs[0] in samples
    requires s in Samples(Build(samples, cs[0].children, n - 1))
    ensures s !in Samples(Build(samples, cs[1..], n))
  {
    KidUp(root, samples, h, cs[0], n - 1, s);
    TailSiblings(cs, d);
    BuildHolds(root, samples, h, cs[1..], n, d, s);
  }

  /** A bound on the depth of a finite set of samples. */
  lemma DepthBound(samples: set<Sample>) returns (h: nat)
    ensures forall p :: p in samples ==> p.depth <= h
    decreases |samples|
  {
    h := 0;
    if samples != {} {
      var p :| p in samples;
      h := DepthBound(samples - {p});
      h := Max(h, p.depth);
    }
  }

  /** A tree that SampleTree_Push has built has the shape that flattening and
      freeing ask for, and freeing it gives back exactly its samples. */
  lemma BuiltTreeCanBeFreed(tree: SampleTree) returns (kids: Forest)
    requires tree.Valid()
    ensures Represents(kids, tree.root.first_child) && Distinct(kids) && tree.root !in Samples(kids)
    ensures TreeSet(tree.root, kids) == tree.samples
  {
    var root, samples := tree.root, tree.samples;
    assert root in samples;
    TreeClosed(root, samples);
    var h := DepthBound(samples);
    ChildrenAreSiblings(root, samples, root);
    kids := Build(samples, root.children, h);
    BuildRepresents(root, samples, h, root.children, h, 1);
    BuildDistinct(root, samples, h, root.children, h, 1);
    BuildHolds(root, samples, h, root.children, h, 1, root);
    BuildWithin(samples, root.children, h);
    forall s | s in samples ensures s in Samples(kids) <==> s != root {
      BuildHolds(root, samples, h, root.children, h, 1, s);
      if s != root {
        NonRootIsDeep(root, samples, s);
        UpDepth(root, samples, s, 1);
        ParentAbove(root, samples, Up(root, samples, s, 1));
        OnlyRootAtTop(root, samples, Up(root, samples, s, 1).parent);
      }
    }
    assert TreeSet(root, kids) == samples;
  }

  lemma NonRootIsDeep(root: Sample, samples: set<Sample>, s: Sample)
    requires TreeOf(root, samples) && s in samples && s != root
    ensures s.depth > 0
  {
    assert HasParent(s, samples);
    assert Family(s.parent);
    assert ChildOk(s.parent, s.index);
  }

  lemma OnlyRootAtTop(root: Sample, samples: set<Sample>, s: Sample)
    requires TreeOf(root, samples) && s in samples && s.depth == 0
    ensures s == root
  {
    if s != root { NonRootIsDeep(root, samples, s); }
  }
}
