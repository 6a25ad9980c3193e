/**
 * What the chat server does to its clients, stated on values: the identity a
 * new client gets, who its partner is, and how relay, broadcast and shutdown
 * change the clients in the handler list. The classes in module ChatServer
 * are proved to have exactly these effects.
 */
module Relay {
  import opened Wire

  /**
   * What can be observed of one client handler: its identity, whether its
   * session has started (its writer exists), whether its socket is still
   * open, and every line written to it so far.
   */
  datatype Client = Client(id: int, started: bool, open: bool, outbox: seq<string>)

  // ---------------------------------------------------------------------------
  // The join counter and the identity rule
  // ---------------------------------------------------------------------------

  const Int32Min: int := -0x8000_0000
  const Int32Max: int := 0x7fff_ffff

  predicate IsInt32(x: int) { Int32Min <= x <= Int32Max }

  /** `x += 1` on a Java `int`: the largest value wraps around to the smallest. */
  function Increment32(x: int): (r: int)
    requires IsInt32(x)
    ensures IsInt32(r)
    ensures x < Int32Max ==> r == x + 1
  {
    if x == Int32Max then Int32Min else x + 1
  }

  /** The join counter after `n` accepts, starting from 0. */
  function PositionAfter(n: nat): (p: int)
    ensures IsInt32(p)
  {
    if n == 0 then 0 else Increment32(PositionAfter(n - 1))
  }

  /** The identity a handler gets when it is built while the counter holds `position`. */
  function IdFor(position: int): (id: int)
    ensures id == 1 || id == 2
    ensures id == 1 <==> position == 0
  {
    if position == 0 then 1 else 2
  }

  /**
   * During the first 2^32 accepts the counter climbs to the largest `int`,
   * wraps to the smallest, and climbs back to 0.
   */
  lemma {:induction false} CounterFirstLap(n: nat)
    requires n <= 2 * (Int32Max + 1)
    ensures PositionAfter(n) == if n <= Int32Max then n else n - 2 * (Int32Max + 1)
  {
    if n > 0 {
      CounterFirstLap(n - 1);
    }
  }

  /**
   * The first handler ever built gets identity 1 and every later one gets 2,
   * until the counter has wrapped all the way round: the handler built after
   * 2^32 accepts is given identity 1 again.
   */
  lemma IdentityOfNthJoiner(n: nat)
    ensures n == 0 ==> IdFor(PositionAfter(n)) == 1
    ensures 0 < n < 2 * (Int32Max + 1) ==> IdFor(PositionAfter(n)) == 2
    ensures IdFor(PositionAfter(2 * (Int32Max + 1))) == 1
  {
    if n <= 2 * (Int32Max + 1) {
      CounterFirstLap(n);
    }
    CounterFirstLap(2 * (Int32Max + 1));
  }

  /** The partner of a client: 2 for identity 1, and 1 for every other identity. */
  function PartnerId(id: int): (p: int)
    ensures p == 1 || p == 2
    ensures p == 2 <==> id == 1
  {
    if id == 1 then 2 else 1
  }

  /** On the two identities the server hands out, partnering swaps them and has no fixed point. */
  lemma PartnerIsInvolution(id: int)
    requires id == 1 || id == 2
    ensures PartnerId(id) != id
    ensures PartnerId(PartnerId(id)) == id
  {
  }

  // ---------------------------------------------------------------------------
  // Effects on the listed clients
  // ---------------------------------------------------------------------------

  /**
   * A handler asked to deliver `msg` addressed to identity `pid`: it writes
   * the line only if it holds that identity and its writer exists.
   */
  function Notify(c: Client, msg: string, pid: int): (d: Client)
    ensures d.id == c.id && d.started == c.started && d.open == c.open
    ensures c.id == pid && c.started ==> d.outbox == c.outbox + [msg]
    ensures !(c.id == pid && c.started) ==> d == c
  {
    if c.id == pid && c.started then c.(outbox := c.outbox + [msg]) else c
  }

  /** Every listed handler asked in turn to deliver `msg` to identity `pid`. */
  function Deliver(cs: seq<Client>, msg: string, pid: int): (r: seq<Client>)
    ensures |r| == |cs|
    ensures forall k :: 0 <= k < |cs| ==>
      r[k].id == cs[k].id && r[k].started == cs[k].started && r[k].open == cs[k].open
    ensures forall k :: 0 <= k < |cs| ==>
      r[k].outbox == if cs[k].id == pid && cs[k].started then cs[k].outbox + [msg] else cs[k].outbox
  {
    seq(|cs|, k requires 0 <= k < |cs| => Notify(cs[k], msg, pid))
  }

  /**
   * A relayed line reaches exactly the started clients holding the partner
   * identity, unmodified; every other client, whether of the sender's own
   * identity (the sender included) or a partner not yet started, is left as
   * it was, and no client's identity, started bit or open bit changes.
   */
  lemma RelayReachesPartnersOnly(cs: seq<Client>, msg: string, senderId: int, k: nat)
    requires senderId == 1 || senderId == 2
    requires k < |cs|
    ensures var d := Deliver(cs, msg, PartnerId(senderId))[k];
      && (d.outbox == cs[k].outbox + [msg] <==> cs[k].id == PartnerId(senderId) && cs[k].started)
      && (!(cs[k].id == PartnerId(senderId) && cs[k].started) ==> d == cs[k])
      && d.id == cs[k].id && d.started == cs[k].started && d.open == cs[k].open
      && (cs[k].id == senderId ==> d == cs[k])
  {
  }

  /** The lines a client has relayed, one after the other, each delivered to `pid`. */
  function RelayAll(cs: seq<Client>, lines: seq<string>, pid: int): (r: seq<Client>)
    ensures |r| == |cs|
    ensures forall k :: 0 <= k < |cs| ==>
      r[k].id == cs[k].id && r[k].started == cs[k].started && r[k].open == cs[k].open
    decreases |lines|
  {
    if lines == [] then cs else RelayAll(Deliver(cs, lines[0], pid), lines[1..], pid)
  }

  /**
   * Relay keeps order and content: a started client holding the partner
   * identity receives exactly the relayed lines, in the order sent; every
   * other client receives none of them.
   */
  lemma {:induction false} RelayKeepsOrder(cs: seq<Client>, lines: seq<string>, pid: int, k: nat)
    requires k < |cs|
    ensures var d := RelayAll(cs, lines, pid)[k];
      && d.outbox == (if cs[k].id == pid && cs[k].started then cs[k].outbox + lines else cs[k].outbox)
      && d.id == cs[k].id && d.started == cs[k].started && d.open == cs[k].open
    decreases |lines|
  {
    if lines != [] {
      var next := Deliver(cs, lines[0], pid);
      assert next[k] == Notify(cs[k], lines[0], pid);
      RelayKeepsOrder(next, lines[1..], pid, k);
      assert RelayAll(cs, lines, pid) == RelayAll(next, lines[1..], pid);
      if cs[k].id == pid && cs[k].started {
        assert lines == [lines[0]] + lines[1..];
        assert cs[k].outbox + [lines[0]] + lines[1..] == cs[k].outbox + lines;
      }
    }
  }

  /** Relaying one more line extends the relay of the earlier ones by one delivery. */
  lemma {:induction false} RelayAllSnoc(cs: seq<Client>, lines: seq<string>, line: string, pid: int)
    ensures RelayAll(cs, lines + [line], pid) == Deliver(RelayAll(cs, lines, pid), line, pid)
    decreases |lines|
  {
    if lines != [] {
      assert (lines + [line])[1..] == lines[1..] + [line];
      RelayAllSnoc(Deliver(cs, lines[0], pid), lines[1..], line, pid);
    }
  }

  /** One client reached by an operator broadcast: it writes `msg` if its writer exists. */
  function Hear(c: Client, msg: string): (d: Client)
    ensures d.id == c.id && d.started == c.started && d.open == c.open
    ensures c.started ==> d.outbox == c.outbox + [msg]
    ensures !c.started ==> d == c
  {
    if c.started then c.(outbox := c.outbox + [msg]) else c
  }

  /** An operator broadcast: every started client receives `msg`, whatever its identity. */
  function Broadcast(cs: seq<Client>, msg: string): (r: seq<Client>)
    ensures |r| == |cs|
    ensures forall k :: 0 <= k < |cs| ==>
      r[k].id == cs[k].id && r[k].started == cs[k].started && r[k].open == cs[k].open
    ensures forall k :: 0 <= k < |cs| ==>
      r[k].outbox == if cs[k].started then cs[k].outbox + [msg] else cs[k].outbox
  {
    seq(|cs|, k requires 0 <= k < |cs| => Hear(cs[k], msg))
  }

  /**
   * A broadcast line reaches exactly the started clients, whatever their
   * identity, unmodified; nothing else about any client changes.
   */
  lemma BroadcastReachesStartedOnly(cs: seq<Client>, msg: string, k: nat)
    requires k < |cs|
    ensures var d := Broadcast(cs, msg)[k];
      && (d.outbox == cs[k].outbox + [msg] <==> cs[k].started)
      && (!cs[k].started ==> d == cs[k])
      && d.id == cs[k].id && d.started == cs[k].started && d.open == cs[k].open
  {
  }

  /** One client at shutdown: notified if its writer exists, and its socket closed. */
  function CloseWithNotice(c: Client): (d: Client)
    ensures d.id == c.id && d.started == c.started && !d.open
    ensures c.started ==> d.outbox == c.outbox + [ShuttingDown]
    ensures !c.started ==> d.outbox == c.outbox
  {
    Client(c.id, c.started, false, if c.started then c.outbox + [ShuttingDown] else c.outbox)
  }

  /** Every listed client notified and closed. */
  function CloseAll(cs: seq<Client>): (r: seq<Client>)
    ensures |r| == |cs|
    ensures forall k :: 0 <= k < |cs| ==>
      r[k].id == cs[k].id && r[k].started == cs[k].started && !r[k].open
    ensures forall k :: 0 <= k < |cs| ==>
      r[k].outbox == if cs[k].started then cs[k].outbox + [ShuttingDown] else cs[k].outbox
  {
    seq(|cs|, k requires 0 <= k < |cs| => CloseWithNotice(cs[k]))
  }

  /**
   * After shutdown every client is closed; the shutdown notice is the last
   * line of exactly the started ones, and nothing else was written.
   */
  lemma ShutdownClosesEveryone(cs: seq<Client>, k: nat)
    requires k < |cs|
    ensures var d := CloseAll(cs)[k];
      && !d.open && d.id == cs[k].id && d.started == cs[k].started
      && (d.outbox == cs[k].outbox + [ShuttingDown] <==> cs[k].started)
      && (!cs[k].started ==> d.outbox == cs[k].outbox)
  {
  }
}
