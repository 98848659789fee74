/** The gateway's client object: one call, as the loop that makes it. */
module GatewayClient {
  import opened Wrappers
  import opened Redirects
  import opened Gateway

  type Delay = d: real | d >= 0.0 witness 0.0

  type Jitter = r: real | LEAST_JITTER <= r <= 1.0 witness 1.0

  /** A monotonic clock: time passes by an arbitrary amount before every reading. */
  class Clock {
    var time: real
    var readings: nat
    const delays: nat -> Delay

    constructor (delays: nat -> Delay)
      ensures this.delays == delays
    {
      this.delays := delays;
      time, readings := 0.0, 0;
    }

    method Monotonic() returns (now: real)
      modifies this
      ensures now == time == old(time) + delays(old(readings)) && readings == old(readings) + 1
    {
      time := time + delays(readings);
      readings := readings + 1;
      now := time;
    }

    method Sleep(seconds: real)
      modifies this
      ensures time == old(time) + delays(old(readings)) + seconds && readings == old(readings) + 1
    {
      var ignored := Monotonic();
      time := time + seconds;
    }
  }

  lemma ScalesUp(b: real, x: real, y: real)
    requires b >= 0.0 && x <= y
    ensures b * x <= b * y
  {
    assert b * (y - x) >= 0.0;
    assert b * (y - x) == b * y - b * x;
  }

  function PauseLength(backoff: Backoff, jitter: Jitter): (seconds: real)
    ensures backoff * LEAST_JITTER <= seconds <= backoff
  {
    ScalesUp(backoff, LEAST_JITTER, jitter);
    ScalesUp(backoff, jitter, 1.0);
    backoff * jitter
  }

  /** The jitter spreads the pauses evenly from half the backoff to all of it. */
  lemma PausesSpread(backoff: Backoff, i: Jitter, j: Jitter)
    ensures PauseLength(backoff, 0.5) == backoff / 2.0 && PauseLength(backoff, 1.0) == backoff
    ensures PauseLength(backoff, j) - PauseLength(backoff, i) == backoff * (j - i)
  {
  }

  /** What a call comes to; the two give-up results tell whether the write may still have been applied. */
  datatype Outcome = Done(response: string) | StoreError | OutcomeUnknown | Unavailable

  class RaftCluster {
    const addresses: seq<string>
    const rpcTimeout: real
    const requestDeadline: real
    var leader: nat

    ghost predicate Valid()
      reads this
    {
      leader < |addresses|
    }

    constructor (addresses: seq<string>, rpcTimeout: real, requestDeadline: real)
      requires addresses != []
      ensures Valid() && leader == 0
      ensures this.addresses == addresses && this.rpcTimeout == rpcTimeout && this.requestDeadline == requestDeadline
    {
      this.addresses, this.rpcTimeout, this.requestDeadline := addresses, rpcTimeout, requestDeadline;
      leader := 0;
    }

    /** The next node after `node` that has not failed; when all have, forget the failures. */
    method NextNode(node: nat, unreachable: set<nat>) returns (next: nat, unreachable': set<nat>)
      requires node < |addresses|
      ensures (next, unreachable') == Gateway.NextNode(|addresses|, node, unreachable)
    {
      var step := 1;
      while step <= |addresses|
        invariant 1 <= step <= |addresses| + 1
        invariant Candidate(|addresses|, node, unreachable, step) == Candidate(|addresses|, node, unreachable, 1)
      {
        if After(|addresses|, node, step) !in unreachable {
          return After(|addresses|, node, step), unreachable;
        }
        step := step + 1;
      }
      return After(|addresses|, node, 1), {};
    }

    /** What is left for one RPC. */
    method Timeout(deadline: real, ghost backoff: Backoff, clock: Clock) returns (timeout: real)
      modifies clock
      ensures timeout == if rpcTimeout < deadline - clock.time then rpcTimeout else deadline - clock.time
      ensures clock.time >= old(clock.time)
      ensures Pauses(deadline - clock.time, backoff) <= Pauses(deadline - old(clock.time), backoff)
    {
      var now := clock.Monotonic();
      PausesMonotone(deadline - now, deadline - old(clock.time), backoff);
      timeout := if rpcTimeout < deadline - now then rpcTimeout else deadline - now;
    }

    /** Pause before the next attempt, unless the deadline comes first; each pause uses up one of those that fit. */
    method Pause(deadline: real, backoff: Backoff, jitter: Jitter, clock: Clock) returns (slept: bool)
      modifies clock
      ensures slept <==> old(clock.time) + clock.delays(old(clock.readings)) + PauseLength(backoff, jitter) < deadline
      ensures !slept ==> clock.time + PauseLength(backoff, jitter) >= deadline
      ensures slept ==> clock.time == old(clock.time) + clock.delays(old(clock.readings))
                                      + PauseLength(backoff, jitter) + clock.delays(old(clock.readings) + 1)
      ensures slept ==> Pauses(deadline - clock.time, Doubled(backoff)) + 1 <= Pauses(deadline - old(clock.time), backoff)
    {
      var pause := PauseLength(backoff, jitter);
      var now := clock.Monotonic();
      if now + pause >= deadline {
        return false;
      }
      clock.Sleep(pause);
      PausesMonotone(deadline - now, deadline - old(clock.time), backoff);
      AfterPause(deadline - now, deadline - clock.time, backoff);
      slept := true;
    }

    /** Where to try next after a reply worth retrying; a followed redirect needs no pause. */
    method Reroute(route: Route, reply: Reply) returns (route': Route, followed: bool)
      requires route.node < |addresses| && Retryable(reply)
      ensures route' == Advance(addresses, route, reply)
      ensures followed <==> reply.Refused? && Follows(addresses, route, reply.message)
    {
      hide RedirectTarget, Gateway.NextNode, IsRedirect;
      var node, unreachable := route.node, route.unreachable;
      if reply.Unreachable? {
        unreachable := unreachable + {node};
      } else {
        var target := RedirectTarget(addresses, reply.message);
        if target.Some? && target.value != node && target.value !in unreachable && route.redirects < 3 {
          return Route(target.value, unreachable, route.redirects + 1), true;
        }
      }
      node, unreachable := NextNode(node, unreachable);
      return Route(node, unreachable, 0), false;
    }

    /**
     Send a request until it is answered.  Attempt `k` gets `replies(k)` and would pause with jitter `jitter(k)`;
     `attempts` counts the attempts made.
     */
    method Call(write: bool, replies: nat -> Reply, jitter: nat -> Jitter, clock: Clock)
      returns (outcome: Outcome, ghost attempts: nat)
      requires Valid()
      modifies this`leader, clock
      ensures Valid()
      // however long replies take, the deadline bounds how often the nodes are bothered
      ensures attempts <= 4 * (Pauses(requestDeadline, INITIAL_BACKOFF) + 1)
      // and it gives up only when there is no time left for another pause, or for an RPC at all
      ensures outcome.OutcomeUnknown? || outcome.Unavailable? ==>
                rpcTimeout <= 0.0 || clock.time + MAX_BACKOFF >= old(clock.time) + requestDeadline
      // only a final reply ends the call early
      ensures forall k :: 0 <= k < attempts - 1 ==> Retryable(replies(k))
      ensures outcome.Done? <==> attempts > 0 && replies(attempts - 1).Answered?
      ensures outcome.Done? ==> outcome.response == replies(attempts - 1).response
      ensures outcome.StoreError? <==>
                attempts > 0 && !replies(attempts - 1).Answered? && !Retryable(replies(attempts - 1))
      // a write with an attempt that failed in transport is never reported as not applied
      ensures outcome.OutcomeUnknown? || outcome.Unavailable? ==>
                (outcome.OutcomeUnknown? <==> write && SomeFailed(replies, attempts))
      // the hint moves only to a node that answered
      ensures leader == if outcome.Done? then RouteAt(addresses, old(leader), replies, attempts - 1).node
                        else old(leader)
    {
      hide Pauses, SomeFailed, Follows, IsRedirect, Advance;
      assert !SomeFailed(replies, 0) by {
        NoneFailedYet(replies);
      }
      var now := clock.Monotonic();
      var deadline := now + requestDeadline;
      var backoff: Backoff := INITIAL_BACKOFF;
      var route := Route(leader, {}, 0);
      var maybeApplied := false;
      ghost var pauses: nat := 0;
      var k: nat := 0;
      while true
        invariant leader == old(leader) && Valid() && deadline >= old(clock.time) + requestDeadline
        invariant route == RouteAt(addresses, leader, replies, k) && route.redirects <= 3
        invariant forall i :: 0 <= i < k ==> Retryable(replies(i))
        invariant maybeApplied <==> write && SomeFailed(replies, k)
        invariant k <= 4 * pauses + route.redirects
        invariant pauses + Pauses(deadline - clock.time, backoff) <= Pauses(requestDeadline, INITIAL_BACKOFF)
        decreases Pauses(deadline - clock.time, backoff), 3 - route.redirects
      {
        var timeout := Timeout(deadline, backoff, clock);
        if timeout <= 0.0 {
          attempts := k;
          break;
        }
        var reply := replies(k);
        if reply.Answered? {
          leader := route.node;
          return Done(reply.response), k + 1;
        }
        if reply.OtherError? || (reply.Refused? && !IsRedirect(reply.message)) {
          return StoreError, k + 1;
        }
        if reply.Unreachable? {
          maybeApplied := maybeApplied || write;
        }
        SomeFailedNext(replies, k);
        RedirectsCounted(addresses, route, reply);
        var followed;
        route, followed := Reroute(route, reply);
        k := k + 1;
        if followed {
          continue;
        }
        var slept := Pause(deadline, backoff, jitter(k - 1), clock);
        if !slept {
          attempts := k;
          break;
        }
        pauses := pauses + 1;
        backoff := Doubled(backoff);
      }
      outcome := if maybeApplied then OutcomeUnknown else Unavailable;
    }
  }
}
