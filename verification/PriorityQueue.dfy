/**
 The Redis scheduling index: a sorted set of priority tiers, one FIFO list per tier, and the
 membership set. Each Lua script is one atomic function from index to index.
 */
module PriorityQueue {
  import opened Common

  const MIN_PRIORITY: int := -1000
  const MAX_PRIORITY: int := 1000

  predicate ValidPriority(p: int) {
    MIN_PRIORITY <= p <= MAX_PRIORITY
  }

  /** Redis drops a list with its last element, so a missing key is an empty list. */
  datatype Redis = Redis(index: set<int>, lists: map<int, seq<Uuid>>, members: set<Uuid>)

  const EMPTY_QUEUE: Redis := Redis({}, map[], {})

  function Tier(q: Redis, p: int): seq<Uuid> {
    if p in q.lists then q.lists[p] else []
  }

  function WithTier(q: Redis, p: int, list: seq<Uuid>): map<int, seq<Uuid>> {
    if list == [] then q.lists - {p} else q.lists[p := list]
  }

  predicate IsHighest(index: set<int>, p: int) {
    p in index && forall x :: x in index ==> x <= p
  }

  lemma {:induction false} HighestExists(index: set<int>)
    requires index != {}
    ensures exists p :: IsHighest(index, p)
    decreases |index|
  {
    var x := SomeElement(index);
    var rest := index - {x};
    if rest == {} {
      assert index == {x};
      assert IsHighest(index, x);
    } else {
      HighestExists(rest);
      var p :| IsHighest(rest, p);
      assert forall y :: y in index ==> y in rest || y == x;
      assert IsHighest(index, if p <= x then x else p);
    }
  }

  /** ZREVRANGE key 0 0, when there is a tier at all. */
  ghost function TopTier(index: set<int>): (p: int)
    requires index != {}
    ensures IsHighest(index, p)
  {
    HighestExists(index);
    var p :| IsHighest(index, p);
    p
  }

  /** The enqueue script, on the job id and its validated priority. */
  function EnqueueScript(q: Redis, id: Uuid, p: int): Redis {
    if id in q.members then q
    else Redis(q.index + {p}, q.lists[p := Tier(q, p) + [id]], q.members + {id})
  }

  /** `Enqueue` runs the script only for a priority inside the documented range. */
  function Enqueue(q: Redis, id: Uuid, p: int): Redis {
    if ValidPriority(p) then EnqueueScript(q, id, p) else q
  }

  /** What the pop script returns. */
  ghost function PopResult(q: Redis): Option<Uuid> {
    if q.index == {} || Tier(q, TopTier(q.index)) == [] then None
    else Some(Tier(q, TopTier(q.index))[0])
  }

  /** What the pop script leaves behind. */
  ghost function PopScript(q: Redis): Redis {
    if q.index == {} then q
    else
      var tier := TopTier(q.index);
      var list := Tier(q, tier);
      if list == [] then q.(index := q.index - {tier})
      else
        Redis(if list[1..] == [] then q.index - {tier} else q.index,
              WithTier(q, tier, list[1..]),
              q.members - {list[0]})
  }

  /** ZREVRANGE 0 0 as a search over the tiers. */
  method HighestTier(index: set<int>) returns (p: int)
    requires index != {}
    ensures p == TopTier(index)
  {
    var todo := index;
    p := Any(todo);
    todo := todo - {p};
    while todo != {}
      invariant todo <= index && p in index
      invariant forall x :: x in index && x !in todo ==> x <= p
      decreases |todo|
    {
      var x := Any(todo);
      todo := todo - {x};
      if x > p {
        p := x;
      }
    }
    assert IsHighest(index, p);
  }

  /** The live keys, changed in place by the two scripts. */
  class RedisQueue {
    var index: set<int>
    var lists: map<int, seq<Uuid>>
    var members: set<Uuid>

    ghost function State(): Redis
      reads this
    {
      Redis(index, lists, members)
    }

    constructor ()
      ensures State() == EMPTY_QUEUE
    {
      index, lists, members := {}, map[], {};
    }

    method Push(id: Uuid, priority: int) returns (ok: bool)
      modifies this
      ensures ok <==> -1000 <= priority <= 1000
      ensures State() == Enqueue(old(State()), id, priority)
    {
      ok := ValidPriority(priority);
      if !ok {
        return;
      }
      if id !in members {
        members := members + {id};
        var list := if priority in lists then lists[priority] else [];
        lists := lists[priority := list + [id]];
        index := index + {priority};
      }
    }

    method Pop() returns (job: Option<Uuid>)
      modifies this
      ensures job == PopResult(old(State()))
      ensures State() == PopScript(old(State()))
    {
      job := None;
      if index != {} {
        var tier := HighestTier(index);
        var list := if tier in lists then lists[tier] else [];
        if list == [] {
          index := index - {tier};
        } else {
          job := Some(list[0]);
          members := members - {list[0]};
          if |list| == 1 {
            lists := lists - {tier};
            index := index - {tier};
          } else {
            lists := lists[tier := list[1..]];
          }
        }
      }
    }

    method Contains(id: Uuid) returns (found: bool)
      ensures found <==> id in State().members
    {
      found := id in members;
    }
  }
}
