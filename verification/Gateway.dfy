/** The gateway's call loop: follow redirects, fail over, back off, give up at the deadline. */
module Gateway {
  import opened Wrappers
  import opened Redirects

  /** How one attempt ends; a refusal carries the server's error message. */
  datatype Reply = Answered(response: string) | Refused(message: string) | Unreachable | OtherError

  predicate Retryable(r: Reply) {
    r.Unreachable? || (r.Refused? && IsRedirect(r.message))
  }

  // --------------------------------------------------------- which node is next

  /** Where the loop stands: the node to contact, the nodes that failed, the redirects followed in a row. */
  datatype Route = Route(node: nat, unreachable: set<nat>, redirects: nat)

  /** The node `step` places after `node`. */
  function After(n: nat, node: nat, step: nat): (v: nat)
    requires n > 0
    ensures v < n
  {
    (node + step) % n
  }

  /** The nearest node at least `step` places after `node` that has not failed; None after a full round. */
  function Candidate(n: nat, node: nat, unreachable: set<nat>, step: nat): (c: Option<nat>)
    requires node < n
    ensures c.Some? ==> c.value < n && c.value !in unreachable
    decreases n - step
  {
    if step > n then None
    else if After(n, node, step) !in unreachable then Some(After(n, node, step))
    else Candidate(n, node, unreachable, step + 1)
  }

  function NextNode(n: nat, node: nat, unreachable: set<nat>): (r: (nat, set<nat>))
    requires node < n
    ensures r.0 < n && r.0 !in r.1
  {
    var c := Candidate(n, node, unreachable, 1);
    if c.Some? then (c.value, unreachable) else (After(n, node, 1), {})
  }

  predicate Follows(addresses: seq<string>, route: Route, message: string) {
    var target := RedirectTarget(addresses, message);
    target.Some? && target.value != route.node && target.value !in route.unreachable && route.redirects < 3
  }

  /** The route after a retryable reply. */
  function Advance(addresses: seq<string>, route: Route, r: Reply): (route': Route)
    requires route.node < |addresses|
    ensures route'.node < |addresses|
  {
    if r.Refused? && Follows(addresses, route, r.message)
    then route.(node := RedirectTarget(addresses, r.message).value, redirects := route.redirects + 1)
    else
      var failed := if r.Unreachable? then route.unreachable + {route.node} else route.unreachable;
      var next := NextNode(|addresses|, route.node, failed);
      Route(next.0, next.1, 0)
  }

  /** At most three redirects are followed in a row; anything else starts the count again. */
  lemma RedirectsCounted(addresses: seq<string>, route: Route, r: Reply)
    requires route.node < |addresses|
    ensures Advance(addresses, route, r).redirects
         == if r.Refused? && Follows(addresses, route, r.message) then route.redirects + 1 else 0
    ensures r.Refused? && Follows(addresses, route, r.message) ==> route.redirects < 3
  {
  }

  /**
   A redirect to a node that is neither the one just asked nor marked as failed is followed: by its address, or by its
   id where the server that redirects has no address for it.
   */
  lemma RedirectTaken(addresses: seq<string>, route: Route, id: nat, k: nat)
    requires route.node < |addresses| && k < |addresses| && route.redirects < 3
    requires forall i, j :: 0 <= i < j < |addresses| ==> addresses[i] != addresses[j]
    requires k != route.node && k !in route.unreachable
    ensures var byAddress := Message(Some(id), Some(addresses[k]));
            && Follows(addresses, route, byAddress)
            && Advance(addresses, route, Refused(byAddress)) == Route(k, route.unreachable, route.redirects + 1)
    ensures var byId := Message(Some(k), None);
            "" !in addresses ==>
              && Follows(addresses, route, byId)
              && Advance(addresses, route, Refused(byId)) == Route(k, route.unreachable, route.redirects + 1)
  {
    hide RedirectTarget, Message, NextNode;
    RedirectFollowed(addresses, Some(id), Some(addresses[k]));
    ByAddressExact(addresses, k);
    RedirectFollowed(addresses, Some(k), None);
    ByAddressFinds(addresses, "");
  }

  /**
   After any other retryable reply the next node is the nearest one, in order, that has not failed; if all have, the
   failures are forgotten and it is the very next.
   */
  lemma FailsOver(addresses: seq<string>, route: Route, r: Reply)
    requires route.node < |addresses| && !(r.Refused? && Follows(addresses, route, r.message))
    ensures var n, next := |addresses|, Advance(addresses, route, r);
            var failed := if r.Unreachable? then route.unreachable + {route.node} else route.unreachable;
            if forall v: nat :: v < n ==> v in failed
            then next.node == (route.node + 1) % n && next.unreachable == {}
            else
              && next.unreachable == failed && next.node !in failed
              && exists s: nat :: 1 <= s <= n && next.node == After(n, route.node, s)
                   && forall t: nat :: 1 <= t < s ==> After(n, route.node, t) in failed
  {
    var failed := if r.Unreachable? then route.unreachable + {route.node} else route.unreachable;
    CandidateIsNearest(|addresses|, route.node, failed, 1);
    ClearedWhenAllFailed(|addresses|, route.node, failed);
  }

  /** The route of attempt `k` when the earlier attempts ended as `replies` says. */
  function RouteAt(addresses: seq<string>, first: nat, replies: nat -> Reply, k: nat): (route: Route)
    requires first < |addresses|
    ensures route.node < |addresses|
  {
    if k == 0 then Route(first, {}, 0)
    else Advance(addresses, RouteAt(addresses, first, replies, k - 1), replies(k - 1))
  }

  /** Attempt `k` ends with a redirect that the next one follows; otherwise the call pauses first, or ends. */
  predicate FollowedAt(addresses: seq<string>, first: nat, replies: nat -> Reply, k: nat)
    requires first < |addresses|
  {
    replies(k).Refused? && Follows(addresses, RouteAt(addresses, first, replies, k), replies(k).message)
  }

  /** The counter is the length of the run of followed redirects right before attempt `k`. */
  lemma {:induction false} RedirectRun(addresses: seq<string>, first: nat, replies: nat -> Reply, k: nat)
    requires first < |addresses|
    ensures var n := RouteAt(addresses, first, replies, k).redirects;
            && n <= k && n <= 3
            && (forall i: nat :: k - n <= i < k ==> FollowedAt(addresses, first, replies, i))
            && (n < k ==> !FollowedAt(addresses, first, replies, k - n - 1))
  {
    hide Follows, NextNode, RedirectTarget;
    if k > 0 {
      RedirectRun(addresses, first, replies, k - 1);
      RedirectsCounted(addresses, RouteAt(addresses, first, replies, k - 1), replies(k - 1));
    }
  }

  /** Of any four attempts in a row, not all end with a redirect that is followed. */
  lemma NoFourRedirects(addresses: seq<string>, first: nat, replies: nat -> Reply, k: nat)
    requires first < |addresses|
    ensures exists i: nat :: k <= i < k + 4 && !FollowedAt(addresses, first, replies, i)
  {
    hide FollowedAt;
    RedirectRun(addresses, first, replies, k + 4);
    assert !FollowedAt(addresses, first, replies, k + 4 - RouteAt(addresses, first, replies, k + 4).redirects - 1);
  }

  /** Some attempt before attempt `k` failed in transport. */
  ghost predicate SomeFailed(replies: nat -> Reply, k: nat) {
    exists i: nat :: i < k && replies(i).Unreachable?
  }

  lemma NoneFailedYet(replies: nat -> Reply)
    ensures !SomeFailed(replies, 0)
  {
  }

  lemma SomeFailedNext(replies: nat -> Reply, k: nat)
    ensures SomeFailed(replies, k + 1) <==> SomeFailed(replies, k) || replies(k).Unreachable?
  {
  }

  /** A node is skipped only if every node on the way to it has failed. */
  lemma {:induction false} CandidateIsNearest(n: nat, node: nat, unreachable: set<nat>, step: nat)
    requires node < n
    ensures match Candidate(n, node, unreachable, step)
            case None => forall s: nat :: step <= s <= n ==> After(n, node, s) in unreachable
            case Some(c) => exists s: nat :: step <= s <= n && c == After(n, node, s)
                              && forall t: nat :: step <= t < s ==> After(n, node, t) in unreachable
    decreases n - step
  {
    hide After;
    if step <= n && After(n, node, step) in unreachable {
      CandidateIsNearest(n, node, unreachable, step + 1);
    }
  }

  /** The set of failed nodes is emptied exactly when it holds every node. */
  lemma ClearedWhenAllFailed(n: nat, node: nat, unreachable: set<nat>)
    requires node < n
    ensures Candidate(n, node, unreachable, 1) == None <==> forall v: nat :: v < n ==> v in unreachable
  {
    CandidateIsNearest(n, node, unreachable, 1);
    if Candidate(n, node, unreachable, 1) == None {
      forall v: nat | v < n
        ensures v in unreachable
      {
        var s := if v > node then v - node else v + n - node;
        RoundTrip(n, node, v, s);
      }
    }
  }

  lemma RoundTrip(n: nat, node: nat, v: nat, s: nat)
    requires node < n && v < n && (node + s == v || node + s == v + n)
    ensures After(n, node, s) == v
  {
    assert node + s == v ==> v / n == 0;
  }

  // --------------------------------------------- no failed node is contacted again

  /** The nodes that failed since the last time all of them had. */
  function FailedSince(addresses: seq<string>, first: nat, replies: nat -> Reply, k: nat): set<nat>
    requires first < |addresses|
  {
    if k == 0 then {}
    else
      var before := FailedSince(addresses, first, replies, k - 1);
      var now := if replies(k - 1).Unreachable?
                 then before + {RouteAt(addresses, first, replies, k - 1).node} else before;
      if forall v: nat :: v < |addresses| ==> v in now then {} else now
  }

  lemma {:induction false} NeverRecontacted(addresses: seq<string>, first: nat, replies: nat -> Reply, k: nat)
    requires first < |addresses|
    ensures var route := RouteAt(addresses, first, replies, k);
            && route.unreachable == FailedSince(addresses, first, replies, k)
            && route.node !in FailedSince(addresses, first, replies, k)
  {
    if k > 0 {
      NeverRecontacted(addresses, first, replies, k - 1);
      var route := RouteAt(addresses, first, replies, k - 1);
      var failed := if replies(k - 1).Unreachable? then route.unreachable + {route.node} else route.unreachable;
      ClearedWhenAllFailed(|addresses|, route.node, failed);
    }
  }

  /** The last time up to `k` at which no node counted as failed: the start, or a clear. */
  function LastClear(addresses: seq<string>, first: nat, replies: nat -> Reply, k: nat): (c: nat)
    requires first < |addresses|
    ensures c <= k && FailedSince(addresses, first, replies, c) == {}
  {
    if FailedSince(addresses, first, replies, k) == {} then k else LastClear(addresses, first, replies, k - 1)
  }

  /** Node `v` failed in transport at one of the attempts `from` to `last`. */
  ghost predicate FailedIn(addresses: seq<string>, first: nat, replies: nat -> Reply, from: nat, last: nat, v: nat)
    requires first < |addresses|
  {
    exists k: nat :: from <= k <= last && replies(k).Unreachable? && RouteAt(addresses, first, replies, k).node == v
  }

  /**
   A node whose attempt `i` failed in transport is contacted again at `j` only if some attempt `m` in between
   completed a round: every node failed between the last clear before `m` and `m`.
   */
  lemma {:induction false} AllFailedBetween(addresses: seq<string>, first: nat, replies: nat -> Reply, i: nat, j: nat)
    returns (m: nat)
    requires first < |addresses| && i < j && replies(i).Unreachable?
    requires RouteAt(addresses, first, replies, i).node == RouteAt(addresses, first, replies, j).node
    ensures i <= m < j && FailedSince(addresses, first, replies, m + 1) == {}
    ensures forall v: nat :: v < |addresses| ==>
              FailedIn(addresses, first, replies, LastClear(addresses, first, replies, m), m, v)
  {
    hide RouteAt, FailedSince, LastClear;
    NeverRecontacted(addresses, first, replies, j);
    m := ClearedBetween(addresses, first, replies, i, j);
    forall v: nat | v < |addresses|
      ensures FailedIn(addresses, first, replies, LastClear(addresses, first, replies, m), m, v)
    {
      var k := FailedAt(addresses, first, replies, m, v);
    }
  }

  /** A node that has failed stays marked until a clear. */
  lemma {:induction false} ClearedBetween(addresses: seq<string>, first: nat, replies: nat -> Reply, i: nat, j: nat)
    returns (m: nat)
    requires first < |addresses| && i < j && replies(i).Unreachable?
    requires RouteAt(addresses, first, replies, i).node !in FailedSince(addresses, first, replies, j)
    ensures i <= m < j && FailedSince(addresses, first, replies, m + 1) == {}
    ensures forall v: nat :: v < |addresses| ==>
              v in FailedSince(addresses, first, replies, m)
              || (replies(m).Unreachable? && v == RouteAt(addresses, first, replies, m).node)
    decreases j
  {
    m := j - 1;
    var u := RouteAt(addresses, first, replies, i).node;
    var before := FailedSince(addresses, first, replies, m);
    var now := if replies(m).Unreachable? then before + {RouteAt(addresses, first, replies, m).node} else before;
    if !(forall v: nat :: v < |addresses| ==> v in now) {
      assert u !in now;
      m := ClearedBetween(addresses, first, replies, i, j - 1);
    }
  }

  /** A marked node has failed since the last clear. */
  lemma {:induction false} FailedAt(addresses: seq<string>, first: nat, replies: nat -> Reply, m: nat, v: nat)
    returns (k: nat)
    requires first < |addresses|
    requires v in FailedSince(addresses, first, replies, m)
          || (replies(m).Unreachable? && v == RouteAt(addresses, first, replies, m).node)
    ensures LastClear(addresses, first, replies, m) <= k <= m
    ensures replies(k).Unreachable? && RouteAt(addresses, first, replies, k).node == v
  {
    k := m;
    if v in FailedSince(addresses, first, replies, m) {
      k := FailedAt(addresses, first, replies, m - 1, v);
    }
  }

  // ------------------------------------------------------------ how many attempts

  const INITIAL_BACKOFF: real := 0.05
  const MAX_BACKOFF: real := 0.5
  const LEAST_JITTER: real := 0.5

  function Doubled(backoff: real): real {
    if backoff * 2.0 < MAX_BACKOFF then backoff * 2.0 else MAX_BACKOFF
  }

  type Backoff = b: real | INITIAL_BACKOFF <= b <= MAX_BACKOFF witness INITIAL_BACKOFF

  /** How many pauses of least length fit strictly into `left` seconds, the backoff doubling up to its cap. */
  function Pauses(left: real, backoff: Backoff): nat
    decreases (if left <= 0.0 then 0.0 else left * 40.0).Floor
  {
    if left <= backoff * LEAST_JITTER then 0
    else
      ShorterBy(left, backoff);
      1 + Pauses(left - backoff * LEAST_JITTER, Doubled(backoff))
  }

  lemma ShorterBy(left: real, backoff: Backoff)
    requires left > backoff * LEAST_JITTER
    ensures ((left - backoff * LEAST_JITTER) * 40.0).Floor < (left * 40.0).Floor
  {
    assert (left - backoff * LEAST_JITTER) * 40.0 <= left * 40.0 - 1.0;
  }

  lemma {:induction false} PausesMonotone(left: real, more: real, backoff: Backoff)
    requires left <= more
    ensures Pauses(left, backoff) <= Pauses(more, backoff)
    decreases Pauses(left, backoff)
  {
    if left > backoff * LEAST_JITTER {
      PausesMonotone(left - backoff * LEAST_JITTER, more - backoff * LEAST_JITTER, Doubled(backoff));
    }
  }

  /** A pause of at least the least length leaves room for at least one pause less. */
  lemma AfterPause(left: real, left': real, backoff: Backoff)
    requires left > backoff * LEAST_JITTER && left' <= left - backoff * LEAST_JITTER
    ensures Pauses(left', Doubled(backoff)) + 1 <= Pauses(left, backoff)
  {
    PausesMonotone(left', left - backoff * LEAST_JITTER, Doubled(backoff));
  }

  /** At the cap, one pause fits per quarter second. */
  lemma {:induction false} CappedPauses(left: real, n: nat)
    requires n as real * 0.25 < left <= (n + 1) as real * 0.25
    ensures Pauses(left, MAX_BACKOFF) == n
    decreases n
  {
    if n > 0 {
      CappedPauses(left - 0.25, n - 1);
    }
  }

  /**
   How the bound grows with the deadline: four pauses while the backoff doubles, then one per quarter second.
   A deadline of 12 seconds leaves room for 50 pauses, so for 204 attempts.
   */
  lemma PausesByDeadline(deadline: real, n: nat)
    requires 0.375 + n as real * 0.25 < deadline <= 0.375 + (n + 1) as real * 0.25
    ensures Pauses(deadline, INITIAL_BACKOFF) == n + 4
  {
    CappedPauses(deadline - 0.375, n);
    assert Pauses(deadline - 0.175, 0.4) == n + 1;
    assert Pauses(deadline - 0.075, 0.2) == n + 2;
    assert Pauses(deadline - 0.025, 0.1) == n + 3;
  }
}
