/**
 The three Redis structures implement one simple thing: a list of (job, priority) entries in
 arrival order, from which pop takes the earliest entry of the highest priority.
 */
module QueueRefinement {
  import opened Common
  import opened PriorityQueue

  datatype Entry = Entry(id: Uuid, priority: int)

  // ---------- the simple queue ----------

  predicate HasId(q: seq<Entry>, id: Uuid) {
    exists i :: 0 <= i < |q| && q[i].id == id
  }

  function Arrive(q: seq<Entry>, id: Uuid, p: int): seq<Entry> {
    if ValidPriority(p) && !HasId(q, id) then q + [Entry(id, p)] else q
  }

  /** Where the earliest entry of the highest priority stands. */
  function Front(q: seq<Entry>): (f: nat)
    requires q != []
    ensures f < |q|
    ensures forall k :: 0 <= k < |q| ==> q[k].priority <= q[f].priority
    ensures forall k :: 0 <= k < f ==> q[k].priority < q[f].priority
  {
    var n := |q| - 1;
    if n == 0 then 0
    else
      var f := Front(q[..n]);
      assert forall k :: 0 <= k < n ==> q[..n][k] == q[k];
      if q[n].priority > q[f].priority then n else f
  }

  function Without(q: seq<Entry>, k: nat): seq<Entry>
    requires k < |q|
  {
    q[..k] + q[k + 1..]
  }

  function Leave(q: seq<Entry>): seq<Entry> {
    if q == [] then q else Without(q, Front(q))
  }

  function Taken(q: seq<Entry>): Option<Uuid> {
    if q == [] then None else Some(q[Front(q)].id)
  }

  /** The ids of one priority, in arrival order. */
  function IdsAt(q: seq<Entry>, p: int): seq<Uuid> {
    if q == [] then []
    else if q[0].priority == p then [q[0].id] + IdsAt(q[1..], p)
    else IdsAt(q[1..], p)
  }

  lemma {:induction false} IdsAtConcat(a: seq<Entry>, b: seq<Entry>, p: int)
    ensures IdsAt(a + b, p) == IdsAt(a, p) + IdsAt(b, p)
  {
    if a == [] {
      assert a + b == b;
    } else {
      assert (a + b)[1..] == a[1..] + b;
      IdsAtConcat(a[1..], b, p);
    }
  }

  lemma {:induction false} IdsAtMembers(q: seq<Entry>, p: int, id: Uuid)
    ensures id in IdsAt(q, p) <==> exists i :: 0 <= i < |q| && q[i] == Entry(id, p)
  {
    if q != [] {
      IdsAtMembers(q[1..], p, id);
      if id in IdsAt(q[1..], p) {
        var i :| 0 <= i < |q[1..]| && q[1..][i] == Entry(id, p);
        assert q[i + 1] == Entry(id, p);
      }
      if i :| 0 <= i < |q| && q[i] == Entry(id, p) {
        assert i > 0 ==> q[1..][i - 1] == Entry(id, p);
      }
    }
  }

  lemma IdsAtEmpty(q: seq<Entry>, p: int)
    ensures IdsAt(q, p) == [] <==> forall i :: 0 <= i < |q| ==> q[i].priority != p
  {
    if IdsAt(q, p) == [] {
      forall i | 0 <= i < |q| ensures q[i].priority != p {
        IdsAtMembers(q, p, q[i].id);
      }
    } else {
      IdsAtMembers(q, p, IdsAt(q, p)[0]);
    }
  }

  // ---------- the simulation ----------

  ghost predicate DistinctIds(q: seq<Entry>) {
    forall i, k :: 0 <= i < k < |q| ==> q[i].id != q[k].id
  }

  /** The Redis keys `r` hold exactly the entries of `q`, tier by tier in arrival order. */
  ghost predicate Simulates(r: Redis, q: seq<Entry>) {
    && DistinctIds(q)
    && MembersMatch(r, q)
    && TiersMatch(r, q)
  }

  ghost predicate TiersMatch(r: Redis, q: seq<Entry>) {
    forall p :: Tier(r, p) == IdsAt(q, p) && (p in r.index <==> IdsAt(q, p) != [])
  }

  ghost predicate MembersMatch(r: Redis, q: seq<Entry>) {
    forall id :: id in r.members <==> HasId(q, id)
  }

  lemma HasIdSnoc(q: seq<Entry>, e: Entry, id: Uuid)
    ensures HasId(q + [e], id) <==> HasId(q, id) || e.id == id
  {
    if HasId(q, id) {
      var i :| 0 <= i < |q| && q[i].id == id;
      assert (q + [e])[i].id == id;
    }
    assert (q + [e])[|q|] == e;
  }

  lemma EnqueueTiers(r: Redis, q: seq<Entry>, id: Uuid, p: int)
    requires TiersMatch(r, q) && id !in r.members
    ensures TiersMatch(EnqueueScript(r, id, p), q + [Entry(id, p)])
  {
    var r', e := EnqueueScript(r, id, p), [Entry(id, p)];
    forall x ensures Tier(r', x) == IdsAt(q + e, x) && (x in r'.index <==> IdsAt(q + e, x) != []) {
      IdsAtConcat(q, e, x);
      assert e[1..] == [];
      assert Tier(r, x) == IdsAt(q, x);
    }
  }

  lemma EnqueueSimulates(r: Redis, q: seq<Entry>, id: Uuid, p: int)
    requires Simulates(r, q)
    ensures Simulates(Enqueue(r, id, p), Arrive(q, id, p))
  {
    if ValidPriority(p) && !HasId(q, id) {
      EnqueueTiers(r, q, id, p);
      assert DistinctIds(q + [Entry(id, p)]) by {
        forall i | 0 <= i < |q| ensures q[i].id != id {
        }
      }
      forall x ensures x in EnqueueScript(r, id, p).members <==> HasId(q + [Entry(id, p)], x) {
        HasIdSnoc(q, Entry(id, p), x);
      }
    }
  }

  lemma LeaveTiers(q: seq<Entry>, p: int)
    requires q != []
    ensures var f := Front(q);
            if p == q[f].priority then IdsAt(q, p) == [q[f].id] + IdsAt(Leave(q), p)
            else IdsAt(Leave(q), p) == IdsAt(q, p)
  {
    var f := Front(q);
    var a, e, b := q[..f], [q[f]], q[f + 1..];
    assert q == a + e + b;
    assert e[1..] == [];
    IdsAtConcat(a + e, b, p);
    IdsAtConcat(a, e, p);
    IdsAtConcat(a, b, p);
    if p == q[f].priority {
      IdsAtEmpty(a, p);
    }
  }

  /** Removing position `f` keeps every other position, one place earlier behind `f`. */
  lemma WithoutAt(q: seq<Entry>, f: nat, i: nat)
    requires f < |q|
    requires i < |q| - 1
    ensures |Without(q, f)| == |q| - 1
    ensures Without(q, f)[i] == q[if i < f then i else i + 1]
  {
  }

  lemma LeaveDistinct(q: seq<Entry>)
    requires q != [] && DistinctIds(q)
    ensures DistinctIds(Leave(q))
  {
    var f, l := Front(q), Leave(q);
    forall i, k | 0 <= i < k < |l| ensures l[i].id != l[k].id {
      WithoutAt(q, f, i);
      WithoutAt(q, f, k);
    }
  }

  lemma LeaveIds(q: seq<Entry>, id: Uuid)
    requires q != [] && DistinctIds(q)
    ensures HasId(Leave(q), id) <==> HasId(q, id) && id != q[Front(q)].id
  {
    var f, l := Front(q), Leave(q);
    if HasId(q, id) && id != q[f].id {
      var i :| 0 <= i < |q| && q[i].id == id;
      var k := if i < f then i else i - 1;
      WithoutAt(q, f, k);
      assert l[k].id == id;
    }
    if HasId(l, id) {
      var i :| 0 <= i < |l| && l[i].id == id;
      WithoutAt(q, f, i);
    }
  }

  /** With the top tier known, the pop script acts on that tier alone. */
  lemma PopTop(r: Redis, q: seq<Entry>)
    requires Simulates(r, q) && q != []
    ensures r.index != {} && TopTier(r.index) == q[Front(q)].priority
    ensures Tier(r, q[Front(q)].priority) != [] && Tier(r, q[Front(q)].priority)[0] == q[Front(q)].id
  {
    var top := q[Front(q)].priority;
    IdsAtEmpty(q, top);
    assert top in r.index;
    forall x | x in r.index ensures x <= top {
      assert IdsAt(q, x) != [];
      IdsAtEmpty(q, x);
    }
    LeaveTiers(q, top);
  }

  lemma PopTiers(r: Redis, q: seq<Entry>)
    requires TiersMatch(r, q) && q != []
    requires r.index != {} && TopTier(r.index) == q[Front(q)].priority
    ensures TiersMatch(PopScript(r), Leave(q))
  {
    var r', q' := PopScript(r), Leave(q);
    var top := q[Front(q)].priority;
    LeaveTiers(q, top);
    assert Tier(r, top) == IdsAt(q, top);
    forall p ensures Tier(r', p) == IdsAt(q', p) && (p in r'.index <==> IdsAt(q', p) != []) {
      LeaveTiers(q, p);
      assert Tier(r, p) == IdsAt(q, p);
    }
  }

  lemma PopSimulates(r: Redis, q: seq<Entry>)
    requires Simulates(r, q)
    ensures PopResult(r) == Taken(q)
    ensures Simulates(PopScript(r), Leave(q))
  {
    if q == [] {
      if r.index != {} {
        var p := SomeElement(r.index);
        assert false;
      }
    } else {
      PopTop(r, q);
      PopTiers(r, q);
      LeaveDistinct(q);
      forall id ensures id in PopScript(r).members <==> HasId(Leave(q), id) {
        LeaveIds(q, id);
      }
    }
  }

  // ---------- every sequence of operations ----------

  datatype Op = Push(id: Uuid, priority: int) | Pop

  ghost function RunRedis(ops: seq<Op>): Redis {
    if ops == [] then EMPTY_QUEUE
    else
      var r := RunRedis(ops[..|ops| - 1]);
      match ops[|ops| - 1]
      case Push(id, p) => Enqueue(r, id, p)
      case Pop => PopScript(r)
  }

  function RunSimple(ops: seq<Op>): seq<Entry> {
    if ops == [] then []
    else
      var q := RunSimple(ops[..|ops| - 1]);
      match ops[|ops| - 1]
      case Push(id, p) => Arrive(q, id, p)
      case Pop => Leave(q)
  }

  /** Every pop of every run returns what the simple queue returns at that moment. */
  lemma {:induction false} QueueRefinesSimpleQueue(ops: seq<Op>)
    ensures Simulates(RunRedis(ops), RunSimple(ops))
    ensures PopResult(RunRedis(ops)) == Taken(RunSimple(ops))
  {
    if ops != [] {
      var before := ops[..|ops| - 1];
      QueueRefinesSimpleQueue(before);
      match ops[|ops| - 1]
      case Push(id, p) => EnqueueSimulates(RunRedis(before), RunSimple(before), id, p);
      case Pop => PopSimulates(RunRedis(before), RunSimple(before));
    }
    PopSimulates(RunRedis(ops), RunSimple(ops));
  }

  /** The three structures agree with one another. */
  ghost predicate RepOk(r: Redis) {
    && (forall id :: id in r.members <==> exists p :: id in Tier(r, p))
    && (forall p, i, x, k :: 0 <= i < |Tier(r, p)| && 0 <= k < |Tier(r, x)| && Tier(r, p)[i] == Tier(r, x)[k] ==>
          p == x && i == k)
    && (forall p :: p in r.index <==> Tier(r, p) != [])
  }

  lemma {:induction false} IdsAtNoRepeat(q: seq<Entry>, p: int, i: nat, k: nat)
    requires DistinctIds(q) && i < k < |IdsAt(q, p)|
    ensures IdsAt(q, p)[i] != IdsAt(q, p)[k]
  {
    var rest := q[1..];
    if q[0].priority == p {
      if i == 0 {
        var id := IdsAt(rest, p)[k - 1];
        IdsAtMembers(rest, p, id);
      } else {
        IdsAtNoRepeat(rest, p, i - 1, k - 1);
      }
    } else {
      IdsAtNoRepeat(rest, p, i, k);
    }
  }

  lemma SimulatedRepOk(r: Redis, q: seq<Entry>)
    requires Simulates(r, q)
    ensures RepOk(r)
  {
    forall id ensures id in r.members <==> exists p :: id in Tier(r, p) {
      if HasId(q, id) {
        var i :| 0 <= i < |q| && q[i].id == id;
        IdsAtMembers(q, q[i].priority, id);
        assert id in Tier(r, q[i].priority);
      }
      if p :| id in Tier(r, p) {
        IdsAtMembers(q, p, id);
      }
    }
    forall p, i, x, k | 0 <= i < |Tier(r, p)| && 0 <= k < |Tier(r, x)| && Tier(r, p)[i] == Tier(r, x)[k]
      ensures p == x && i == k
    {
      var id := Tier(r, p)[i];
      IdsAtMembers(q, p, id);
      IdsAtMembers(q, x, id);
      if i < k {
        IdsAtNoRepeat(q, p, i, k);
      } else if k < i {
        IdsAtNoRepeat(q, p, k, i);
      }
    }
  }

  /**
   After every sequence of operations the membership set is the disjoint union of the tier
   lists, no job is listed twice, and a tier is indexed exactly when its list is nonempty; the
   branch of the pop script for an indexed but empty tier is never taken.
   */
  lemma QueueRepresentation(ops: seq<Op>)
    ensures RepOk(RunRedis(ops))
    ensures RunRedis(ops).index != {} ==> Tier(RunRedis(ops), TopTier(RunRedis(ops).index)) != []
  {
    QueueRefinesSimpleQueue(ops);
    SimulatedRepOk(RunRedis(ops), RunSimple(ops));
  }

  // ---------- draining ----------

  /** The ids that popping until empty delivers, in order. */
  ghost function DrainRedis(r: Redis, pops: nat): seq<Uuid>
    decreases pops
  {
    if pops == 0 || PopResult(r) == None then []
    else [PopResult(r).value] + DrainRedis(PopScript(r), pops - 1)
  }

  function Drain(q: seq<Entry>): seq<Entry>
    decreases |q|
  {
    if q == [] then [] else [q[Front(q)]] + Drain(Leave(q))
  }

  function Ids(q: seq<Entry>): seq<Uuid> {
    if q == [] then [] else [q[0].id] + Ids(q[1..])
  }

  /** One pop and then the rest. */
  lemma DrainGlue(r: Redis, e: Entry, d: seq<Entry>, pops: nat)
    requires PopResult(r) == Some(e.id) && DrainRedis(PopScript(r), pops) == Ids(d)
    ensures DrainRedis(r, pops + 1) == Ids([e] + d)
  {
    assert ([e] + d)[1..] == d;
  }

  /** The next `n` pops, and the one after them, return the same on both sides. */
  ghost predicate PopsAgree(r: Redis, q: seq<Entry>, n: nat)
    decreases n
  {
    PopResult(r) == Taken(q) && (n > 0 ==> PopsAgree(PopScript(r), Leave(q), n - 1))
  }

  lemma {:induction false} SimulatedPopsAgree(r: Redis, q: seq<Entry>, n: nat)
    requires Simulates(r, q)
    ensures PopsAgree(r, q, n)
    decreases n
  {
    PopSimulates(r, q);
    if n > 0 {
      SimulatedPopsAgree(PopScript(r), Leave(q), n - 1);
    }
  }

  lemma DrainStep(r: Redis, q: seq<Entry>, pops: nat)
    requires q != [] && PopResult(r) == Taken(q) && DrainRedis(PopScript(r), pops) == Ids(Drain(Leave(q)))
    ensures DrainRedis(r, pops + 1) == Ids(Drain(q))
  {
    DrainGlue(r, q[Front(q)], Drain(Leave(q)), pops);
  }

  lemma LeaveShortens(q: seq<Entry>)
    requires q != []
    ensures |Leave(q)| == |q| - 1
  {
  }

  lemma {:induction false} DrainsAgree(r: Redis, q: seq<Entry>, pops: nat)
    requires PopsAgree(r, q, pops) && pops >= |q|
    ensures DrainRedis(r, pops) == Ids(Drain(q))
    decreases pops
  {
    if q != [] {
      LeaveShortens(q);
      DrainsAgree(PopScript(r), Leave(q), pops - 1);
      DrainStep(r, q, pops - 1);
    }
  }

  ghost predicate Descending(s: seq<Entry>) {
    forall i, k :: 0 <= i < k < |s| ==> s[i].priority >= s[k].priority
  }

  /** `s` is `q` sorted by descending priority, equal priorities keeping their order. */
  ghost predicate IsStableSort(q: seq<Entry>, s: seq<Entry>) {
    Descending(s) && |s| == |q| && forall p :: IdsAt(s, p) == IdsAt(q, p)
  }

  lemma IdsAtCons(e: Entry, q: seq<Entry>, p: int)
    ensures IdsAt([e] + q, p) == if e.priority == p then [e.id] + IdsAt(q, p) else IdsAt(q, p)
  {
    assert ([e] + q)[1..] == q;
  }

  lemma {:induction false} DrainKeepsTiers(q: seq<Entry>, p: int)
    ensures IdsAt(Drain(q), p) == IdsAt(q, p)
    ensures |Drain(q)| == |q|
    decreases |q|
  {
    if q != [] {
      DrainKeepsTiers(Leave(q), p);
      LeaveTiers(q, p);
      IdsAtCons(q[Front(q)], Drain(Leave(q)), p);
    }
  }

  /** Whatever is drained was there. */
  lemma DrainedWasThere(q: seq<Entry>, k: nat)
    requires k < |Drain(q)|
    ensures exists i :: 0 <= i < |q| && q[i] == Drain(q)[k]
  {
    var e := Drain(q)[k];
    DrainKeepsTiers(q, e.priority);
    IdsAtMembers(Drain(q), e.priority, e.id);
    IdsAtMembers(q, e.priority, e.id);
  }

  lemma {:induction false} DrainDescends(q: seq<Entry>)
    ensures Descending(Drain(q))
    decreases |q|
  {
    if q != [] {
      var f, rest := Front(q), Leave(q);
      var d := Drain(rest);
      DrainDescends(rest);
      forall k | 0 <= k < |d| ensures q[f].priority >= d[k].priority {
        DrainedWasThere(rest, k);
        var i :| 0 <= i < |rest| && rest[i] == d[k];
        WithoutAt(q, f, i);
      }
      assert Drain(q) == [q[f]] + d;
    }
  }

  lemma DrainIsStableSort(q: seq<Entry>)
    ensures IsStableSort(q, Drain(q))
  {
    DrainDescends(q);
    forall p ensures IdsAt(Drain(q), p) == IdsAt(q, p) {
      DrainKeepsTiers(q, p);
    }
    DrainKeepsTiers(q, 0);
  }

  /** There is only one stable sort, so the predicate pins the order down completely. */
  lemma {:induction false} StableSortIsUnique(q: seq<Entry>, s: seq<Entry>, t: seq<Entry>)
    requires IsStableSort(q, s) && IsStableSort(q, t)
    ensures s == t
    decreases |q|
  {
    if q != [] {
      var p, x := s[0].priority, t[0].priority;
      IdsAtEmpty(s, p);
      IdsAtEmpty(t, p);
      IdsAtEmpty(s, x);
      IdsAtEmpty(t, x);
      assert p == x;
      assert IdsAt(s, p)[0] == s[0].id && IdsAt(t, p)[0] == t[0].id;
      assert s[0] == t[0];
      forall y ensures IdsAt(s[1..], y) == IdsAt(t[1..], y) {
        assert IdsAt(s, y) == IdsAt(q, y) == IdsAt(t, y);
        if y == p {
          assert IdsAt(s[1..], y) == IdsAt(s, y)[1..] && IdsAt(t[1..], y) == IdsAt(t, y)[1..];
        }
      }
      assert IsStableSort(s[1..], s[1..]) && IsStableSort(s[1..], t[1..]);
      StableSortIsUnique(s[1..], s[1..], t[1..]);
      assert s == [s[0]] + s[1..] && t == [t[0]] + t[1..];
    }
  }

  /** The enqueues whose priority is inside the documented range; the others are refused. */
  function Accepted(xs: seq<Entry>): seq<Entry> {
    if xs == [] then []
    else
      var n := |xs| - 1;
      Accepted(xs[..n]) + if ValidPriority(xs[n].priority) then [xs[n]] else []
  }

  /** The entries whose id did not occur before. */
  function FirstOccurrences(xs: seq<Entry>): seq<Entry> {
    if xs == [] then []
    else
      var n := |xs| - 1;
      FirstOccurrences(xs[..n]) + if HasId(xs[..n], xs[n].id) then [] else [xs[n]]
  }

  function Pushes(xs: seq<Entry>): seq<Op> {
    seq(|xs|, i requires 0 <= i < |xs| => Push(xs[i].id, xs[i].priority))
  }

  lemma {:induction false} FirstOccurrencesKeepIds(xs: seq<Entry>, id: Uuid)
    ensures HasId(FirstOccurrences(xs), id) <==> HasId(xs, id)
    ensures |FirstOccurrences(xs)| <= |xs|
  {
    if xs != [] {
      var n := |xs| - 1;
      var init := xs[..n];
      FirstOccurrencesKeepIds(init, id);
      HasIdSnoc(init, xs[n], id);
      HasIdSnoc(FirstOccurrences(init), xs[n], id);
      assert init + [xs[n]] == xs && FirstOccurrences(init) + [] == FirstOccurrences(init);
    }
  }

  lemma {:induction false} PushesKeepFirst(xs: seq<Entry>)
    ensures RunSimple(Pushes(xs)) == FirstOccurrences(Accepted(xs))
    ensures |Accepted(xs)| <= |xs|
  {
    if xs != [] {
      var n := |xs| - 1;
      var x, before := xs[n], Accepted(xs[..n]);
      PushesKeepFirst(xs[..n]);
      assert Pushes(xs)[..n] == Pushes(xs[..n]);
      FirstOccurrencesKeepIds(before, x.id);
      if ValidPriority(x.priority) {
        assert Accepted(xs) == before + [x] && (before + [x])[..|before|] == before;
      } else {
        assert Accepted(xs) == before;
      }
      assert FirstOccurrences(before) + [] == FirstOccurrences(before);
    }
  }

  /**
   Draining after any sequence of enqueues delivers every accepted job once, highest priority
   first and first-come-first-served within a priority: the stable sort of first occurrences.
   */
  lemma DrainAfterEnqueues(xs: seq<Entry>)
    ensures DrainRedis(RunRedis(Pushes(xs)), |xs|) == Ids(Drain(FirstOccurrences(Accepted(xs))))
    ensures IsStableSort(FirstOccurrences(Accepted(xs)), Drain(FirstOccurrences(Accepted(xs))))
  {
    var first := FirstOccurrences(Accepted(xs));
    QueueRefinesSimpleQueue(Pushes(xs));
    PushesKeepFirst(xs);
    FirstOccurrencesKeepIds(Accepted(xs), 0);
    SimulatedPopsAgree(RunRedis(Pushes(xs)), first, |xs|);
    DrainsAgree(RunRedis(Pushes(xs)), first, |xs|);
    DrainIsStableSort(first);
  }
}
