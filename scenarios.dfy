/**
 * Whole conversations driven through the server's events, each ending in
 * what every client has been sent.
 */
module Scenarios {
  import opened Wire
  import opened Relay
  import opened ChatServer

  /** A connection is accepted and its session starts straight away. */
  method JoinAndStart(server: Server) returns (c: Handler)
    requires server.Valid() && server.running
    modifies server
    ensures server.Valid() && server.running && fresh(c)
    ensures server.handlers == old(server.handlers) + [c]
    ensures server.clientPosition == Increment32(old(server.clientPosition))
    ensures c.View() == Client(IdFor(old(server.clientPosition)), true, true, [Welcome(IdFor(old(server.clientPosition)))])
  {
    c := server.Accept();
    server.Start(c);
  }

  /** Two clients have joined a fresh server and both sessions have started. */
  method StartedPair() returns (server: Server, c1: Handler, c2: Handler)
    ensures fresh(server) && fresh(c1) && fresh(c2)
    ensures server.Valid() && server.running && server.clientPosition == 2
    ensures server.handlers == [c1, c2]
    ensures c1.View() == Client(1, true, true, [Welcome(1)])
    ensures c2.View() == Client(2, true, true, [Welcome(2)])
  {
    server := new Server();
    c1 := JoinAndStart(server);
    c2 := JoinAndStart(server);
  }

  /**
   * Two clients join and start; the first says "hi", the second quits. The
   * second is told goodbye after the relayed line, the first that its partner
   * left; the second is closed and off the list.
   */
  method TwoClientChat() returns (first: seq<string>, second: seq<string>, secondOpen: bool, listed: nat)
    ensures first == [Welcome(1), PartnerLeft]
    ensures second == [Welcome(2), "hi", QuitNotice]
    ensures !secondOpen && listed == 1
  {
    var server, c1, c2 := StartedPair();
    ghost var before := States(server.handlers);
    assert !IsQuit("hi");
    var reading := server.ReceiveLine(c1, "hi");
    ghost var after := States(server.handlers);
    assert after == Deliver(before, "hi", 2);
    assert c1.View() == after[0] == before[0];
    assert c2.View() == after[1] == Notify(before[1], "hi", 2);
    assert c2.outbox == [Welcome(2)] + ["hi"];

    assert IsQuit("quit");
    reading := server.ReceiveLine(c2, "quit");
    assert server.handlers == [c1] by {
      assert c1 != c2 && c2 !in [c1, c2][..1];
      HandlerList.RemoveFirstAt([c1, c2], c2, 1);
    }
    first, second, secondOpen, listed := c1.outbox, c2.outbox, c2.open, |server.handlers|;
  }

  /**
   * A third joiner is also given identity 2, so a line from the first client
   * reaches both later clients.
   */
  method ThirdJoinerSharesIdentity() returns (ids: seq<int>, second: seq<string>, third: seq<string>)
    ensures ids == [1, 2, 2]
    ensures second == [Welcome(2), "hello"] && third == [Welcome(2), "hello"]
  {
    var server, c1, c2 := StartedPair();
    var c3 := JoinAndStart(server);
    assert c3.View() == Client(2, true, true, [Welcome(2)]);
    assert server.handlers == [c1, c2, c3];
    ghost var before := States(server.handlers);
    assert before[1] == c2.View() && before[2] == c3.View();
    assert !IsQuit("hello");
    var reading := server.ReceiveLine(c1, "hello");
    ghost var after := States(server.handlers);
    assert after == Deliver(before, "hello", 2);
    assert c2.View() == after[1] == Notify(before[1], "hello", 2);
    assert c3.View() == after[2] == Notify(before[2], "hello", 2);
    ids, second, third := [c1.id, c2.id, c3.id], c2.outbox, c3.outbox;
  }

  /** A line relayed to a client whose session has not started yet is lost. */
  method UnstartedClientMissesLines() returns (late: seq<string>)
    ensures late == [Welcome(2)]
  {
    var server := new Server();
    var c1 := JoinAndStart(server);
    var c2 := server.Accept();
    ghost var before := States(server.handlers);
    assert before == [c1.View(), c2.View()];
    assert !IsQuit("early");
    var reading := server.ReceiveLine(c1, "early");
    ghost var after := States(server.handlers);
    assert after == Deliver(before, "early", 2);
    assert c2.View() == after[1] == before[1];
    server.Start(c2);
    late := c2.outbox;
  }

  /** One client has joined a fresh server and started; then the operator broadcasts "hello". */
  method OperatorGreetsOne() returns (server: Server, c1: Handler)
    ensures fresh(server) && fresh(c1)
    ensures server.Valid() && server.running && server.handlers == [c1]
    ensures c1.View() == Client(1, true, true, [Welcome(1), OperatorPrefix + "hello"])
  {
    server := new Server();
    c1 := JoinAndStart(server);
    ghost var before := States(server.handlers);
    assert before == [c1.View()];
    assert !IsQuit("hello");
    var reading := server.OperatorLine("hello");
    ghost var after := States(server.handlers);
    assert after == Broadcast(before, OperatorPrefix + "hello");
    assert c1.View() == after[0];
    assert c1.outbox == [Welcome(1)] + [OperatorPrefix + "hello"];
  }

  /**
   * The operator broadcasts a line, then types QUIT; a second shutdown
   * afterwards changes nothing.
   */
  method OperatorBroadcastThenShutdownTwice() returns (first: seq<string>, firstOpen: bool, running: bool, listed: nat)
    ensures first == [Welcome(1), OperatorPrefix + "hello", ShuttingDown]
    ensures !firstOpen && !running && listed == 0
  {
    var server, c1 := OperatorGreetsOne();
    ghost var before := States(server.handlers);
    assert IsQuit("QUIT");
    var reading := server.OperatorLine("QUIT");
    assert States([c1]) == CloseAll(before);
    assert c1.View() == States([c1])[0] == CloseWithNotice(before[0]);
    assert c1.outbox == [Welcome(1), OperatorPrefix + "hello"] + [ShuttingDown];
    server.Shutdown();
    first, firstOpen, running, listed := c1.outbox, c1.open, server.running, |server.handlers|;
  }

  /**
   * A client has joined and started when the accept loop fails with an I/O
   * error, as written: the server stops, but the client is never told, its
   * socket stays open and it stays listed, even after the operator types quit.
   */
  method AcceptFailureStrandsClient() returns (told: seq<string>, stillOpen: bool, running: bool, listed: nat)
    ensures told == [Welcome(1)] && stillOpen && !running && listed == 1
  {
    var server := new Server();
    var c1 := JoinAndStart(server);
    ghost var before := States(server.handlers);
    assert before == [c1.View()];
    server.AcceptFailsAsWritten();
    assert c1.View() == States(server.handlers)[0] == before[0];
    // the operator's quit cannot release it: the shutdown finds the flag clear
    assert IsQuit("quit");
    var reading := server.OperatorLine("quit");
    told, stillOpen, running, listed := c1.outbox, c1.open, server.running, |server.handlers|;
  }

  /** Two clients have joined and started when the accept loop fails as written. */
  method StrandedPair() returns (server: Server, c1: Handler, c2: Handler)
    ensures fresh(server) && fresh(c1) && fresh(c2)
    ensures server.WellFormed() && !server.running && server.handlers == [c1, c2]
    ensures c1.View() == Client(1, true, true, [Welcome(1)])
    ensures c2.View() == Client(2, true, true, [Welcome(2)])
  {
    server, c1, c2 := StartedPair();
    ghost var before := States(server.handlers);
    server.AcceptFailsAsWritten();
    assert c1.View() == States(server.handlers)[0] == before[0];
    assert c2.View() == States(server.handlers)[1] == before[1];
  }

  /** Stranded clients go on chatting: a line from the first still reaches the second. */
  method StrandedClientsStillChat() returns (first: seq<string>, second: seq<string>, running: bool, listed: nat)
    ensures first == [Welcome(1)] && second == [Welcome(2), "hi"]
    ensures !running && listed == 2
  {
    var server, c1, c2 := StrandedPair();
    ghost var before := States(server.handlers);
    assert !IsQuit("hi");
    var reading := server.ReceiveLine(c1, "hi");
    ghost var after := States(server.handlers);
    assert after == Deliver(before, "hi", 2);
    assert c1.View() == after[0] == before[0];
    assert c2.View() == after[1] == Notify(before[1], "hi", 2);
    assert c2.outbox == [Welcome(2)] + ["hi"];
    first, second, running, listed := c1.outbox, c2.outbox, server.running, |server.handlers|;
  }

  /** The operator's broadcasts still reach stranded clients. */
  method StrandedClientsHearOperator() returns (first: seq<string>, second: seq<string>, running: bool, listed: nat)
    ensures first == [Welcome(1), OperatorPrefix + "hello"]
    ensures second == [Welcome(2), OperatorPrefix + "hello"]
    ensures !running && listed == 2
  {
    var server, c1, c2 := StrandedPair();
    ghost var before := States(server.handlers);
    assert !IsQuit("hello");
    var reading := server.OperatorLine("hello");
    ghost var after := States(server.handlers);
    assert after == Broadcast(before, OperatorPrefix + "hello");
    assert c1.View() == after[0] == Hear(before[0], OperatorPrefix + "hello");
    assert c2.View() == after[1] == Hear(before[1], OperatorPrefix + "hello");
    assert c1.outbox == [Welcome(1)] + [OperatorPrefix + "hello"];
    assert c2.outbox == [Welcome(2)] + [OperatorPrefix + "hello"];
    first, second, running, listed := c1.outbox, c2.outbox, server.running, |server.handlers|;
  }

  /** A stranded client can still quit: it is told goodbye and closed, its partner told it left. */
  method StrandedClientQuits() returns (first: seq<string>, second: seq<string>, secondOpen: bool, listed: nat)
    ensures first == [Welcome(1), PartnerLeft] && second == [Welcome(2), QuitNotice]
    ensures !secondOpen && listed == 1
  {
    var server, c1, c2 := StrandedPair();
    assert IsQuit("quit");
    var reading := server.ReceiveLine(c2, "quit");
    assert server.handlers == [c1] by {
      assert c1 != c2 && c2 !in [c1, c2][..1];
      HandlerList.RemoveFirstAt([c1, c2], c2, 1);
    }
    first, second, secondOpen, listed := c1.outbox, c2.outbox, c2.open, |server.handlers|;
  }

  /** The same failure with the cleanup left to do its work: the client is told and closed. */
  method AcceptFailureReleasesClient() returns (told: seq<string>, stillOpen: bool, running: bool, listed: nat)
    ensures told == [Welcome(1), ShuttingDown] && !stillOpen && !running && listed == 0
  {
    var server := new Server();
    var c1 := JoinAndStart(server);
    ghost var before := States(server.handlers);
    assert before == [c1.View()];
    server.AcceptFails();
    assert c1.View() == States([c1])[0] == CloseWithNotice(before[0]);
    assert c1.outbox == [Welcome(1)] + [ShuttingDown];
    told, stillOpen, running, listed := c1.outbox, c1.open, server.running, |server.handlers|;
  }

  /**
   * Cleanup is idempotent: disconnecting a client a second time leaves it
   * closed and leaves the other client listed.
   */
  method DisconnectTwice() returns (firstOpen: bool, secondOpen: bool, firstListed: bool, listed: nat)
    ensures firstOpen && !secondOpen && firstListed && listed == 1
  {
    var server, c1, c2 := StartedPair();
    server.Disconnect(c2);
    assert server.handlers == [c1] by {
      assert c1 != c2 && c2 !in [c1, c2][..1];
      HandlerList.RemoveFirstAt([c1, c2], c2, 1);
    }
    server.Disconnect(c2);
    firstOpen, secondOpen, firstListed, listed := c1.open, c2.open, c1 in server.handlers, |server.handlers|;
  }
}
