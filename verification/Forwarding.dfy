/** A forwarded loopback port, its connections, and their channels. */
module Forwarding {

  /** A report differs from the one before, or from none open, by one. */
  ghost predicate ByOne(reports: seq<int>, i: nat)
    requires i < |reports|
  {
    var before := LastReport(reports[..i]);
    reports[i] >= 0 && (reports[i] == before + 1 || reports[i] == before - 1)
  }

  ghost predicate OneByOne(reports: seq<int>) {
    forall i :: 0 <= i < |reports| ==> ByOne(reports, i)
  }

  lemma ReportMore(reports: seq<int>, report: int)
    requires OneByOne(reports) && report >= 0
    requires report == LastReport(reports) + 1 || report == LastReport(reports) - 1
    ensures OneByOne(reports + [report])
  {
    var all := reports + [report];
    forall i | 0 <= i < |all|
      ensures ByOne(all, i)
    {
      assert all[..i] == reports[..i];
      assert i < |reports| ==> ByOne(reports, i);
      assert reports[..|reports|] == reports;
    }
  }

  function LastReport(reports: seq<int>): int {
    if reports == [] then 0 else reports[|reports| - 1]
  }

  /** `ForwardedPort` */
  class ForwardedPort {
    var listening: bool
    var connections: int
    // The forwarders whose channel is being opened.
    var channelsOpening: set<Forwarder>
    // What `on_connections` was told.
    ghost var reports: seq<int>
    // The connections made, and of those, the ones not closed.
    ghost var made: set<Forwarder>
    ghost var open: set<Forwarder>

    ghost predicate Counted()
      reads this
    {
      && open <= made && connections == |open|
      && connections == LastReport(reports) && OneByOne(reports)
    }

    ghost predicate Valid()
      reads this, made
    {
      && Counted() && channelsOpening <= made
      && forall f <- made :: Has(f)
    }

    ghost predicate Has(f: Forwarder)
      reads this, f
    {
      && f.forwarded == this && f.Valid()
      && (f in open <==> !f.closed) && (f in channelsOpening <==> f.opening)
    }

    constructor ()
      ensures Valid() && made == {} && listening && fresh(this)
    {
      listening, connections, channelsOpening, reports, made, open := true, 0, {}, [], {}, {};
    }

    /** Later connections are turned away, and those made before go on. */
    method Close()
      requires Valid()
      modifies this`listening
      ensures Valid() && !listening
    {
      listening := false;
    }

    /** `connection_opened`, and `start_opening`. */
    method ConnectionOpened(f: Forwarder)
      requires Counted() && f !in made
      modifies this`made, this`open, this`channelsOpening, this`connections, this`reports
      ensures Counted() && made == old(made) + {f} && open == old(open) + {f}
      ensures channelsOpening == old(channelsOpening) + {f}
      ensures connections == old(connections) + 1
    {
      made, open, channelsOpening := made + {f}, open + {f}, channelsOpening + {f};
      Count(1);
    }

    /** `connection_closed` */
    method ConnectionClosed(f: Forwarder)
      requires Counted() && f in open
      modifies this`open, this`connections, this`reports
      ensures Counted() && open == old(open) - {f} && connections == old(connections) - 1
    {
      open := open - {f};
      Count(-1);
    }

    method Count(change: int)
      requires change == 1 || change == -1
      requires OneByOne(reports) && connections == LastReport(reports) && connections + change >= 0
      modifies this`connections, this`reports
      ensures connections == old(connections) + change && reports == old(reports) + [connections]
      ensures OneByOne(reports)
    {
      connections := connections + change;
      ReportMore(reports, connections);
      reports := reports + [connections];
    }
  }

  /** `_Forwarder`, with its channel's end, an `SSHForwarder` too. */
  class Forwarder {
    const forwarded: ForwardedPort
    var closed: bool
    // The client's socket, and whether it is read.
    var clientUp: bool
    var reading: bool
    // `_open_channel` has not ended.
    var opening: bool
    // The channel's end was made; has been connected; and is still.
    var channelMade: bool
    var channelConnected: bool
    var channelUp: bool
    // Each end's `_peer`, for the other.
    var peer: bool
    var channelPeer: bool

    /** Once the opening is over, both ends are open and exchange data, or both are closed. */
    ghost predicate Settled()
      reads this
    {
      !opening ==> if closed then !clientUp && !channelUp else clientUp && channelUp && peer && reading
    }

    ghost predicate Valid()
      reads this
    {
      && peer == channelPeer && (peer ==> channelMade) && (channelMade && !closed ==> peer)
      && (closed ==> !clientUp) && (!closed ==> clientUp)
      && (channelConnected ==> channelMade) && (channelUp ==> channelConnected)
      && (channelConnected && !closed ==> channelUp)
      && (opening ==> !reading)
      && Settled()
    }

    constructor (forwarded: ForwardedPort)
      ensures this.forwarded == forwarded && !closed && !channelMade
    {
      this.forwarded := forwarded;
      closed, clientUp, reading, opening := false, false, false, false;
      channelMade, channelConnected, channelUp, peer, channelPeer := false, false, false, false, false;
    }

    /** `connection_made` */
    method ConnectionMade()
      requires forwarded.Valid() && this !in forwarded.made
      requires !closed && !channelMade
      modifies this, forwarded
      ensures forwarded.Valid() && forwarded.made == old(forwarded.made) + {this}
      ensures forwarded.connections == old(forwarded.connections) + 1 && opening && !closed && !reading
    {
      ghost var before := forwarded.made;
      clientUp, reading, opening := true, false, true;
      channelConnected, channelUp, peer, channelPeer := false, false, false, false;
      forwarded.ConnectionOpened(this);
      forall f <- forwarded.made
        ensures forwarded.Has(f)
      {
        if f != this {
          assert f in before && old(forwarded.Has(f));
        }
      }
    }

    /** Whichever way it is closed, it is counted out once. */
    method CountOut()
      requires forwarded.Counted() && this in forwarded.made
      requires this in forwarded.open <==> !closed
      modifies this`closed, forwarded`connections, forwarded`reports, forwarded`open
      ensures forwarded.Counted() && forwarded.open == old(forwarded.open) - {this} && closed
    {
      if !closed {
        closed := true;
        forwarded.ConnectionClosed(this);
      }
    }

    /** What `close` comes to, for this end and the channel's. */
    method Close()
      requires forwarded.Counted() && this in forwarded.made
      requires this in forwarded.open <==> !closed
      modifies this, forwarded`connections, forwarded`reports, forwarded`open
      ensures forwarded.Counted() && forwarded.open == old(forwarded.open) - {this}
      ensures closed && !clientUp && !peer
      ensures if old(peer) then !channelUp && !channelPeer
              else channelUp == old(channelUp) && channelPeer == old(channelPeer)
      ensures reading == old(reading) && opening == old(opening)
      ensures channelMade == old(channelMade) && channelConnected == old(channelConnected)
      decreases (if peer then 1 else 0) + (if channelPeer then 1 else 0), 1
    {
      CountOut();
      // `SSHForwarder.close`
      clientUp := false;
      if peer {
        peer := false;
        CloseChannelEnd();
      }
    }

    method CloseChannelEnd()
      requires forwarded.Counted() && this in forwarded.made
      requires this in forwarded.open <==> !closed
      modifies this, forwarded`connections, forwarded`reports, forwarded`open
      ensures forwarded.Counted() && !channelUp && !channelPeer
      ensures if old(channelPeer) then forwarded.open == old(forwarded.open) - {this} && closed && !clientUp && !peer
              else forwarded.open == old(forwarded.open) && closed == old(closed) && clientUp == old(clientUp) && peer == old(peer)
      ensures reading == old(reading) && opening == old(opening)
      ensures channelMade == old(channelMade) && channelConnected == old(channelConnected)
      decreases (if peer then 1 else 0) + (if channelPeer then 1 else 0), 0
    {
      channelUp := false;
      if channelPeer {
        channelPeer := false;
        Close();
      }
    }

    /** `connection_lost`: the client hung up. */
    method ClientLost()
      requires forwarded.Valid() && this in forwarded.made
      modifies this, forwarded`connections, forwarded`reports, forwarded`open
      ensures forwarded.Valid() && closed
      ensures forwarded.connections == old(forwarded.connections) - (if old(closed) then 0 else 1)
    {
      Close();
    }

    /** The channel's end's `connection_lost`. */
    method ChannelLost()
      requires forwarded.Valid() && this in forwarded.made && channelConnected
      modifies this, forwarded`connections, forwarded`reports, forwarded`open
      ensures forwarded.Valid() && closed && !channelUp
      ensures forwarded.connections == old(forwarded.connections) - (if old(closed) then 0 else 1)
    {
      CloseChannelEnd();
    }

    /** `session_factory` */
    method SessionFactory()
      requires forwarded.Valid() && this in forwarded.made && opening && !channelMade
      modifies this
      ensures forwarded.Valid() && channelMade && closed == old(closed)
    {
      channelMade, peer, channelPeer := true, true, true;
    }

    /** The channel's end's `connection_made`. */
    method ChannelMade()
      requires forwarded.Valid() && this in forwarded.made && opening && channelMade && !channelConnected
      modifies this`channelConnected, this`channelUp
      ensures forwarded.Valid() && channelUp
    {
      channelConnected, channelUp := true, true;
    }

    /** The end of `_open_channel`, whether the channel could be opened or not: no channel is left for a client that is gone. */
    method EndOpening(succeeded: bool)
      requires forwarded.Valid() && this in forwarded.made && opening && channelConnected == succeeded
      modifies this, forwarded`connections, forwarded`reports, forwarded`open, forwarded`channelsOpening
      ensures forwarded.Valid() && !opening
      ensures succeeded ==> closed == old(closed) && forwarded.connections == old(forwarded.connections)
      ensures !succeeded ==> closed
      ensures if closed then !channelUp && !clientUp else channelUp && clientUp && reading
    {
      if !succeeded {
        Close();
      } else if !closed {
        reading := true;
      } else if channelMade {
        CloseChannelEnd();
      }
      opening := false;
      forwarded.channelsOpening := forwarded.channelsOpening - {this};
      forall f <- forwarded.made
        ensures forwarded.Has(f)
      {
        assert old(forwarded.Has(f));
      }
    }
  }
}
