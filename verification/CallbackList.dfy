/** The intrusive callback list of CancellationState: each callback knows its successor and the link that
    points at it. The list it stands for is a sequence. */
module CallbackList {
  import opened Options
  import opened Cancellation

  /** What prevNext_ points at: the list head, the next_ field of another callback, or nothing. */
  datatype Link = AtHead | AtNext(cb: CbId) | Nowhere

  ghost predicate Distinct(s: seq<CbId>) {
    forall i, j :: 0 <= i < j < |s| ==> s[i] != s[j]
  }

  class CallbackQueue {
    var head: Option<CbId>
    var next: map<CbId, Option<CbId>>
    var prevNext: map<CbId, Link>
    ghost var order: seq<CbId>

    /** Forward links, backward links and membership all agree with one sequence. */
    ghost predicate Valid()
      reads this
    {
      && Distinct(order)
      && head == (if order == [] then None else Some(order[0]))
      && (forall i :: 0 <= i < |order| ==> LinkedAt(order, next, prevNext, i))
      && (forall cb :: cb in prevNext && cb !in order ==> prevNext[cb] == Nowhere)
    }

    constructor ()
      ensures Valid() && order == []
    {
      head, next, prevNext, order := None, map[], map[], [];
    }

    /** tryAddCallback under the lock: the new callback becomes the head. */
    method Push(cb: CbId)
      requires Valid() && cb !in order
      modifies this
      ensures Valid() && order == [cb] + old(order)
    {
      if head.Some? {
        prevNext := prevNext[head.value := AtNext(cb)];
      }
      next := next[cb := head];
      prevNext := prevNext[cb := AtHead];
      head := Some(cb);
      order := [cb] + order;
      forall i | 0 <= i < |order| ensures LinkedAt(order, next, prevNext, i) {
        if i > 0 { assert LinkedAt(old(order), old(next), old(prevNext), i - 1); }
      }
    }

    /** removeCallback under the lock: if still linked, the links around the callback are joined. */
    method Unlink(cb: CbId) returns (linked: bool)
      requires Valid() && cb in prevNext
      modifies this
      ensures Valid() && (linked <==> cb in old(order)) && order == Without(old(order), cb)
    {
      linked := prevNext[cb] != Nowhere;
      ghost var was := order;
      if linked {
        ghost var k: nat :| k < |order| && order[k] == cb;
        assert LinkedAt(order, next, prevNext, k);
        var after := next[cb];
        if prevNext[cb] == AtHead {
          head := after;
        } else {
          next := next[prevNext[cb].cb := after];
        }
        if after.Some? {
          prevNext := prevNext[after.value := prevNext[cb]];
        }
        order := order[..k] + order[k + 1..];
        prevNext := prevNext[cb := Nowhere];
        WithoutAt(was, cb, k);
        Joined(was, old(next), next, old(prevNext), prevNext, k);
      } else {
        forall k | 0 <= k < |order| ensures order[k] != cb {
          assert LinkedAt(order, next, prevNext, k);
        }
        WithoutAbsent(order, cb);
      }
    }

    /** requestCancellation under the lock: the head is taken off and marked as no longer linked. */
    method Dequeue() returns (cb: CbId, anyMore: bool)
      requires Valid() && order != []
      modifies this
      ensures Valid() && [cb] + order == old(order) && (anyMore <==> order != [])
      ensures cb in prevNext && prevNext[cb] == Nowhere
    {
      assert LinkedAt(order, next, prevNext, 0);
      cb := head.value;
      head := next[cb];
      anyMore := head.Some?;
      if anyMore {
        assert LinkedAt(order, next, prevNext, 1);
        prevNext := prevNext[head.value := AtHead];
      }
      prevNext := prevNext[cb := Nowhere];
      order := order[1..];
      forall i | 0 <= i < |order| ensures LinkedAt(order, next, prevNext, i) {
        assert LinkedAt(old(order), old(next), old(prevNext), i + 1);
      }
    }
  }

  ghost predicate LinkedAt(order: seq<CbId>, next: map<CbId, Option<CbId>>, prevNext: map<CbId, Link>, i: nat)
    requires i < |order|
  {
    && order[i] in next && next[order[i]] == (if i + 1 < |order| then Some(order[i + 1]) else None)
    && order[i] in prevNext && prevNext[order[i]] == (if i == 0 then AtHead else AtNext(order[i - 1]))
  }

  lemma {:induction false} WithoutAt(order: seq<CbId>, cb: CbId, k: nat)
    requires k < |order| && order[k] == cb && Distinct(order)
    ensures Without(order, cb) == order[..k] + order[k + 1..]
  {
    if k > 0 {
      assert order[0] != order[k];
      WithoutAt(order[1..], cb, k - 1);
      Regroup(order, k);
    }
  }

  lemma Regroup(order: seq<CbId>, k: nat)
    requires 0 < k < |order|
    ensures order[..k] + order[k + 1..] == [order[0]] + (order[1..][..k - 1] + order[1..][k - 1 + 1..])
  {}

  lemma {:induction false} WithoutAbsent(order: seq<CbId>, cb: CbId)
    requires cb !in order
    ensures Without(order, cb) == order
  {
    if order != [] {
      assert order[0] in order;
      WithoutAbsent(order[1..], cb);
    }
  }

  /** Joining the neighbours of position k leaves every other position linked as before. */
  lemma Joined(order: seq<CbId>, next: map<CbId, Option<CbId>>, next': map<CbId, Option<CbId>>,
               prev: map<CbId, Link>, prev': map<CbId, Link>, k: nat)
    requires Distinct(order) && k < |order| && forall i :: 0 <= i < |order| ==> LinkedAt(order, next, prev, i)
    requires order[k] in next && order[k] in prev
    requires next' == if k == 0 then next else next[order[k - 1] := next[order[k]]]
    requires prev' == (if k + 1 < |order| then prev[order[k + 1] := prev[order[k]]] else prev)[order[k] := Nowhere]
    ensures var joined := order[..k] + order[k + 1..];
      && Distinct(joined) && (forall i :: 0 <= i < |joined| ==> LinkedAt(joined, next', prev', i)) &&
          order[k] !in joined
  {
    var joined := order[..k] + order[k + 1..];
    forall i | 0 <= i < |joined| ensures LinkedAt(joined, next', prev', i) {
      var j := if i < k then i else i + 1;
      assert joined[i] == order[j] && LinkedAt(order, next, prev, j) && LinkedAt(order, next, prev, k);
      if i > 0 { assert joined[i - 1] == order[if i - 1 < k then i - 1 else i]; }
    }
  }
}
