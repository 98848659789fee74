/** The text a server answers when it does not lead, and how the gateway reads it back. */
module Redirects {
  import opened Wrappers

  const PREFIX: string := "NOT_LEADER"

  // ----------------------------------------------------------- the server's side

  function Decimal(n: nat): (s: string)
    ensures s != [] && Digits(s)
  {
    var last := ['0' + (n % 10) as char];
    if n < 10 then last else Decimal(n / 10) + last
  }

  predicate Digits(s: string) {
    forall k :: 0 <= k < |s| ==> '0' <= s[k] <= '9'
  }

  /** "NOT_LEADER:<id>:<host:port>", or "NOT_LEADER:None:" from a node that knows no leader. */
  function Message(leader: Option<nat>, address: Option<string>): string {
    PREFIX + ":" + (if leader.Some? then Decimal(leader.value) else "None")
    + ":" + if address.Some? then address.value else ""
  }

  // ---------------------------------------------------------- the gateway's side

  /** The part of `s` before its first colon; all of it if there is none. */
  function Head(s: string): (h: string)
    ensures |h| <= |s|
  {
    if s == [] || s[0] == ':' then [] else [s[0]] + Head(s[1..])
  }

  /** Split at the first `max` colons. */
  function Split(s: string, max: nat): (parts: seq<string>)
    ensures |parts| >= 1
  {
    var head := Head(s);
    if max == 0 || |head| == |s| then [s] else [head] + Split(s[|head| + 1..], max - 1)
  }

  function Number(s: string): nat
    requires Digits(s)
  {
    if s == [] then 0 else 10 * Number(s[..|s| - 1]) + (s[|s| - 1] - '0') as nat
  }

  /** The node with this address; of several, the last. */
  function ByAddress(addresses: seq<string>, address: string): (node: Option<nat>)
    ensures node.Some? ==> node.value < |addresses|
  {
    if addresses == [] then None
    else if addresses[|addresses| - 1] == address then Some(|addresses| - 1)
    else ByAddress(addresses[..|addresses| - 1], address)
  }

  function RedirectTarget(addresses: seq<string>, message: string): (node: Option<nat>)
    ensures node.Some? ==> node.value < |addresses|
  {
    var parts := Split(message, 2) + ["", ""];
    var named := ByAddress(addresses, parts[2]);
    if named.Some? then named
    else if parts[1] != [] && Digits(parts[1]) && Number(parts[1]) < |addresses| then Some(Number(parts[1]))
    else None
  }

  predicate IsRedirect(message: string) {
    PREFIX + ":" <= message
  }

  // ---------------------------------------------------------------- round trip

  lemma {:induction false} NumberDecimal(n: nat)
    ensures Number(Decimal(n)) == n
  {
    if n >= 10 {
      NumberDecimal(n / 10);
      assert Decimal(n)[..|Decimal(n)| - 1] == Decimal(n / 10);
    }
  }

  lemma {:induction false} HeadStops(a: string, b: string)
    requires ':' !in a
    ensures Head(a + ":" + b) == a
  {
    if a == [] {
      assert a + ":" + b == ":" + b;
    } else {
      HeadStops(a[1..], b);
      assert (a + ":" + b)[1..] == a[1..] + ":" + b;
    }
  }

  lemma SplitOff(a: string, b: string, max: nat)
    requires ':' !in a && max > 0
    ensures Split(a + ":" + b, max) == [a] + Split(b, max - 1)
  {
    HeadStops(a, b);
    assert (a + ":" + b)[|a| + 1..] == b;
  }

  lemma SplitNone(s: string)
    ensures Split(s, 0) == [s]
  {
  }

  /** Colons inside the address survive: exactly the three fields come back. */
  lemma MessageSplits(leader: Option<nat>, address: Option<string>)
    ensures Split(Message(leader, address), 2)
         == [PREFIX, if leader.Some? then Decimal(leader.value) else "None",
             if address.Some? then address.value else ""]
  {
    hide Split, Decimal;
    var id := if leader.Some? then Decimal(leader.value) else "None";
    assert ':' !in id;
    var rest := if address.Some? then address.value else "";
    assert Message(leader, address) == PREFIX + ":" + (id + ":" + rest);
    SplitOff(PREFIX, id + ":" + rest, 2);
    SplitOff(id, rest, 1);
    SplitNone(rest);
  }

  /** The gateway goes where the server points: by address if it knows that, else by id if that is in range. */
  lemma RedirectFollowed(addresses: seq<string>, leader: Option<nat>, address: Option<string>)
    ensures IsRedirect(Message(leader, address))
    ensures var named := ByAddress(addresses, if address.Some? then address.value else "");
            RedirectTarget(addresses, Message(leader, address))
            == if named.Some? then named else if leader.Some? && leader.value < |addresses| then leader else None
  {
    hide Split, Decimal, Number, ByAddress;
    MessageSplits(leader, address);
    assert Message(leader, address)[..|PREFIX + ":"|] == PREFIX + ":";
    if leader.Some? {
      NumberDecimal(leader.value);
    } else {
      assert "None"[0] == 'N';
    }
  }

  /** A refusal is a redirect exactly if its first field, before a colon, says so. */
  lemma RedirectByField(message: string)
    ensures IsRedirect(message) <==> ':' in message && Split(message, 1)[0] == PREFIX
  {
    var head := Head(message);
    HeadPrefix(message);
    assert ':' in message && head == PREFIX ==> message[..|head| + 1] == PREFIX + ":";
    if IsRedirect(message) {
      HeadStops(PREFIX, message[|PREFIX| + 1..]);
      assert message == PREFIX + ":" + message[|PREFIX| + 1..];
    }
  }

  lemma {:induction false} HeadPrefix(s: string)
    ensures Head(s) <= s && (':' in s <==> |Head(s)| < |s|) && (':' in s ==> s[|Head(s)|] == ':')
  {
    if s != [] && s[0] != ':' {
      HeadPrefix(s[1..]);
      assert s == [s[0]] + s[1..];
    }
  }

  /** Only an address of some node is found. */
  lemma {:induction false} ByAddressFinds(addresses: seq<string>, address: string)
    ensures match ByAddress(addresses, address)
            case Some(k) => addresses[k] == address
            case None => address !in addresses
  {
    if addresses != [] && addresses[|addresses| - 1] != address {
      ByAddressFinds(addresses[..|addresses| - 1], address);
    }
  }

  /** Address lookup is exact when addresses are distinct. */
  lemma {:induction false} ByAddressExact(addresses: seq<string>, k: nat)
    requires k < |addresses| && forall i, j :: 0 <= i < j < |addresses| ==> addresses[i] != addresses[j]
    ensures ByAddress(addresses, addresses[k]) == Some(k)
  {
    if k < |addresses| - 1 {
      ByAddressExact(addresses[..|addresses| - 1], k);
    }
  }
}
