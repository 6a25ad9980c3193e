/**
 * The chat server as a sequential state machine: the running flag, the join
 * counter and the ordered list of client handlers, changed in place by the
 * events of the accept loop, of each client's read loop and of the operator
 * console. Sockets are reduced to an open bit, a handler's writer to a
 * started bit, and everything a writer prints to the handler's outbox.
 */
module ChatServer {
  import opened Wire
  import opened Relay
  import opened HandlerList

  /** One connected client: the server's RequestHandler. */
  class Handler {
    /** Fixed when the handler is built; 1 for the first joiner, 2 for every later one until the join counter wraps back to 0. */
    const id: int
    /** The writer to the client exists: the handler's session has started. */
    var started: bool
    /** The client socket has not been closed. */
    var open: bool
    /** Every line written to the client, in order. */
    var outbox: seq<string>

    /** A handler for a fresh connection, built while the join counter holds `position`. */
    constructor (position: int)
      ensures id == IdFor(position) && !started && open && outbox == []
    {
      id := IdFor(position);
      started := false;
      open := true;
      outbox := [];
    }

    function View(): Client
      reads this
    {
      Client(id, started, open, outbox)
    }

    /** Write `message` to this client if it holds identity `partnerId` and its writer exists. */
    method SendMessageToClient(message: string, partnerId: int)
      modifies this
      ensures View() == Notify(old(View()), message, partnerId)
    {
      if id == partnerId && started {
        outbox := outbox + [message];
      }
    }

    /** Write `msg` to this client if its writer exists, whatever its identity. */
    method WriteIfStarted(msg: string)
      modifies this
      ensures View() == Hear(old(View()), msg)
    {
      if started {
        outbox := outbox + [msg];
      }
    }

    /**
     * This handler's part in a shutdown: the notice is written only if the
     * writer exists, and a socket still open is closed, so it ends closed.
     */
    method CloseForShutdown()
      modifies this
      ensures View() == CloseWithNotice(old(View()))
    {
      if started {
        outbox := outbox + [ShuttingDown];
      }
      if open {
        open := false;
      }
    }
  }

  /** The observable states of a list of handlers, in list order. */
  ghost function States(hs: seq<Handler>): (cs: seq<Client>)
    reads set h | h in hs
    ensures |cs| == |hs|
    ensures forall k :: 0 <= k < |hs| ==> cs[k] == hs[k].View()
  {
    seq(|hs|, k requires 0 <= k < |hs| reads set h | h in hs => hs[k].View())
  }

  class Server {
    /** Cleared once, by shutdown; the accept loop runs while it is set. */
    var running: bool
    /** The join counter: a Java `int`, incremented after every accept and never decremented. */
    var clientPosition: int
    /** The handlers of the clients currently registered, in join order. */
    var handlers: seq<Handler>

    /**
     * The shape of the state: a handler is listed at most once, and every
     * listed handler's socket is open and its identity is 1 or 2.
     */
    ghost predicate WellFormed()
      reads this, set h | h in handlers
    {
      && IsInt32(clientPosition)
      && Distinct(handlers)
      && (forall h :: h in handlers ==> h.open && (h.id == 1 || h.id == 2))
    }

    /** The server's invariant: well formed, and once shut down no handler is listed. */
    ghost predicate Valid()
      reads this, set h | h in handlers
    {
      WellFormed() && (!running ==> handlers == [])
    }

    /** A server started in a fresh process: running, no client yet, counter at 0. */
    constructor ()
      ensures Valid() && running && clientPosition == 0 && handlers == []
    {
      running := true;
      clientPosition := 0;
      handlers := [];
    }

    /**
     * One turn of the accept loop: build a handler for the new connection,
     * its identity taken from the counter, list it, then advance the counter.
     */
    method Accept() returns (h: Handler)
      requires Valid() && running
      modifies this
      ensures Valid() && fresh(h) && running
      ensures h.View() == Client(IdFor(old(clientPosition)), false, true, [])
      ensures handlers == old(handlers) + [h]
      ensures clientPosition == Increment32(old(clientPosition))
    {
      h := new Handler(clientPosition);
      handlers := handlers + [h];
      clientPosition := Increment32(clientPosition);
    }

    /** A handler's session starts: its writer is created and it sends the welcome line. */
    method Start(h: Handler)
      requires WellFormed() && h in handlers && !h.started
      modifies h
      ensures WellFormed() && (old(Valid()) ==> Valid())
      ensures h.View() == old(h.View()).(started := true, outbox := old(h.outbox) + [Welcome(h.id)])
    {
      h.started := true;
      h.outbox := h.outbox + [Welcome(h.id)];
    }

    /** Forward `message` to every listed handler; those holding identity `partnerId` and started write it. */
    method SendMessageToClient(message: string, partnerId: int)
      requires WellFormed()
      modifies set h | h in handlers
      ensures WellFormed() && (old(Valid()) ==> Valid())
      ensures States(handlers) == Deliver(old(States(handlers)), message, partnerId)
    {
      var i := 0;
      while i < |handlers|
        modifies set h | h in handlers
        invariant 0 <= i <= |handlers|
        invariant forall k :: 0 <= k < i ==>
          handlers[k].View() == Notify(old(handlers[k].View()), message, partnerId)
        invariant forall k :: i <= k < |handlers| ==> handlers[k].View() == old(handlers[k].View())
      {
        handlers[i].SendMessageToClient(message, partnerId);
        i := i + 1;
      }
    }

    /** Write `msg` to every listed handler whose writer exists, whatever its identity. */
    method SendToAll(msg: string)
      requires WellFormed()
      modifies set h | h in handlers
      ensures WellFormed() && (old(Valid()) ==> Valid())
      ensures States(handlers) == Broadcast(old(States(handlers)), msg)
    {
      var i := 0;
      while i < |handlers|
        modifies set h | h in handlers
        invariant 0 <= i <= |handlers|
        invariant forall k :: 0 <= k < i ==> handlers[k].View() == Hear(old(handlers[k].View()), msg)
        invariant forall k :: i <= k < |handlers| ==> handlers[k].View() == old(handlers[k].View())
      {
        handlers[i].WriteIfStarted(msg);
        i := i + 1;
      }
    }

    /**
     * The end of a handler's read loop, whatever ended it: close its socket
     * (closing a closed socket does nothing) and take it off the list (taking
     * off a handler that is not listed does nothing).
     */
    method Disconnect(h: Handler)
      requires WellFormed()
      modifies this, h
      ensures WellFormed() && (old(Valid()) ==> Valid())
      ensures running == old(running) && clientPosition == old(clientPosition)
      ensures h.View() == old(h.View()).(open := false)
      ensures handlers == RemoveFirst(old(handlers), h) && h !in handlers
      ensures forall x :: x in old(handlers) && x != h ==> x in handlers && x.View() == old(x.View())
    {
      var rest := RemoveFirst(handlers, h);
      RemoveFirstDistinct(handlers, h);
      h.open := false;
      handlers := rest;
    }

    /**
     * One line read by a started handler. `quit`, in any case, sends the
     * client its goodbye and its partner the partner-left notice, then ends
     * the read loop and so disconnects the handler; any other line is
     * forwarded to the partner identity. `reading` tells whether the read
     * loop goes on.
     */
    method ReceiveLine(h: Handler, line: string) returns (reading: bool)
      requires WellFormed() && h in handlers && h.started
      modifies this, set x | x in handlers
      ensures WellFormed() && (old(Valid()) ==> Valid())
      ensures running == old(running) && clientPosition == old(clientPosition)
      ensures reading == !IsQuit(line)
      ensures reading ==> (handlers == old(handlers) &&
        States(handlers) == Deliver(old(States(handlers)), line, PartnerId(h.id)))
      ensures !reading ==> handlers == RemoveFirst(old(handlers), h) && h !in handlers
      ensures !reading ==>
        h.View() == old(h.View()).(open := false, outbox := old(h.outbox) + [QuitNotice])
      ensures !reading ==> forall x :: x in old(handlers) && x != h ==>
        x.View() == Notify(old(x.View()), PartnerLeft, PartnerId(h.id))
    {
      if IsQuit(line) {
        h.SendMessageToClient(QuitNotice, h.id);
        SendMessageToClient(PartnerLeft, PartnerId(h.id));
        Disconnect(h);
        reading := false;
      } else {
        SendMessageToClient(line, PartnerId(h.id));
        reading := true;
      }
    }

    /** Tell every started listed handler that the server is shutting down, and close every listed socket. */
    method NotifyAndCloseAll()
      requires WellFormed()
      modifies set h | h in handlers
      ensures States(handlers) == CloseAll(old(States(handlers)))
    {
      var i := 0;
      while i < |handlers|
        modifies set h | h in handlers
        invariant 0 <= i <= |handlers|
        invariant forall k :: 0 <= k < i ==> handlers[k].View() == CloseWithNotice(old(handlers[k].View()))
        invariant forall k :: i <= k < |handlers| ==> handlers[k].View() == old(handlers[k].View())
      {
        handlers[i].CloseForShutdown();
        i := i + 1;
      }
    }

    /**
     * The read loop of a started handler over a run of lines none of which is
     * quit: each is forwarded in turn to the partner identity, so the relay
     * of the whole run is the lines delivered one after the other.
     */
    method ReceiveLines(h: Handler, lines: seq<string>)
      requires WellFormed() && h in handlers && h.started
      requires forall i :: 0 <= i < |lines| ==> !IsQuit(lines[i])
      modifies this, set x | x in handlers
      ensures WellFormed() && (old(Valid()) ==> Valid()) && handlers == old(handlers)
      ensures running == old(running) && clientPosition == old(clientPosition)
      ensures States(handlers) == RelayAll(old(States(handlers)), lines, PartnerId(h.id))
    {
      ghost var j :| 0 <= j < |handlers| && handlers[j] == h;
      ghost var pid := PartnerId(h.id);
      ghost var target := RelayAll(States(handlers), lines, pid);
      var unread := lines;
      while unread != []
        invariant forall i :: 0 <= i < |unread| ==> !IsQuit(unread[i])
        invariant WellFormed() && handlers == old(handlers) && handlers[j] == h && h.started && PartnerId(h.id) == pid
        invariant running == old(running) && clientPosition == old(clientPosition)
        invariant RelayAll(States(handlers), unread, pid) == target
      {
        ghost var before := States(handlers);
        assert !IsQuit(unread[0]);
        var reading := ReceiveLine(h, unread[0]);
        assert States(handlers) == Deliver(before, unread[0], pid);
        assert States(handlers)[j].started == before[j].started;
        unread := unread[1..];
      }
    }

    /**
     * Stop the server, once: clear the running flag, tell every started
     * handler that the server is shutting down, close every listed socket
     * and empty the list. When the flag is already clear nothing happens.
     */
    method Shutdown()
      requires WellFormed()
      modifies this, set h | h in handlers
      ensures WellFormed() && !running && clientPosition == old(clientPosition)
      ensures !old(running) ==> unchanged(this) && unchanged(set h | h in handlers)
      ensures old(running) ==> Valid() && handlers == []
      ensures old(running) ==> States(old(handlers)) == CloseAll(old(States(handlers)))
    {
      if !running {
        return;
      }
      running := false;
      NotifyAndCloseAll();
      handlers := [];
    }

    /**
     * One line typed by the operator: `quit`, in any case, shuts the server
     * down and ends the console loop; any other line is broadcast to every
     * started client behind the "[SERVER] " prefix.
     */
    method OperatorLine(line: string) returns (reading: bool)
      requires WellFormed()
      modifies this, set h | h in handlers
      ensures WellFormed() && (old(Valid()) ==> Valid())
      ensures clientPosition == old(clientPosition)
      ensures reading == !IsQuit(line)
      ensures reading ==> (running == old(running) && handlers == old(handlers) &&
        States(handlers) == Broadcast(old(States(handlers)), OperatorPrefix + line))
      ensures !reading ==> !running
      ensures !reading && old(running) ==> handlers == [] && States(old(handlers)) == CloseAll(old(States(handlers)))
      ensures !reading && !old(running) ==> unchanged(this) && unchanged(set h | h in handlers)
    {
      if IsQuit(line) {
        Shutdown();
        reading := false;
      } else {
        SendToAll(OperatorPrefix + line);
        reading := true;
      }
    }

    /**
     * The accept loop ends on an I/O failure, as written: the flag is cleared
     * first, so the cleanup that follows finds it clear and does nothing.
     */
    method AcceptFailsAsWritten()
      requires Valid() && running
      modifies this, set h | h in handlers
      ensures WellFormed() && !running
      ensures handlers == old(handlers) && clientPosition == old(clientPosition)
      ensures States(handlers) == old(States(handlers))
    {
      running := false;
      Shutdown();
    }

    /**
     * The accept loop ends on an I/O failure with the flag left to the
     * cleanup: every client is notified and closed and the list emptied.
     */
    method AcceptFails()
      requires Valid() && running
      modifies this, set h | h in handlers
      ensures Valid() && !running && handlers == [] && clientPosition == old(clientPosition)
      ensures States(old(handlers)) == CloseAll(old(States(handlers)))
    {
      Shutdown();
    }
  }
}
