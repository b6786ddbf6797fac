/** broadcastToRoom: one packet written to every member of a room's range,
    skipping the excepted socket and sockets that are not connected, and,
    when backlog dropping is asked for, skipping each recipient whose
    outbound backlog exceeds the threshold while telling the sender. */
module Fanout {
  import opened Common
  import opened Records

  /** What the sockets report while the broadcast runs: which are in the
      connected state, and how many bytes each still has to write. */
  datatype Net = Net(connected: set<Sock>, backlog: Sock -> nat)

  predicate Backlogged(net: Net, s: Sock) {
    net.backlog(s) > BacklogDropThreshold
  }

  /** One turn of the loop, for member `s`. */
  function Visit(log: Log<Outgoing>, s: Sock, pkt: Outgoing, except: Option<Sock>,
                 dropIfBacklog: bool, net: Net): Log<Outgoing>
  {
    if except == Some(s) || s !in net.connected then log
    else if dropIfBacklog && Backlogged(net, s) then
      if except.Some? then Append(log, except.value, ServerEvent(Congested(net.backlog(s)))) else log
    else Append(log, s, pkt)
  }

  /** The whole loop over a range, in range order. */
  function Broadcast(log: Log<Outgoing>, members: seq<Sock>, pkt: Outgoing, except: Option<Sock>,
                     dropIfBacklog: bool, net: Net): Log<Outgoing>
    decreases |members|
  {
    if members == [] then log
    else Visit(Broadcast(log, members[..|members| - 1], pkt, except, dropIfBacklog, net),
               members[|members| - 1], pkt, except, dropIfBacklog, net)
  }

  /** A member gets the packet: it is not the excepted socket, it is
      connected, and it is not a backlogged recipient of a dropping broadcast. */
  predicate Receives(r: Sock, except: Option<Sock>, dropIfBacklog: bool, net: Net) {
    except != Some(r) && r in net.connected && !(dropIfBacklog && Backlogged(net, r))
  }

  /** The recipients a broadcast skips for backlog, in range order. */
  function Dropped(members: seq<Sock>, except: Option<Sock>, dropIfBacklog: bool, net: Net): seq<Sock>
    decreases |members|
  {
    if members == [] then []
    else
      var last := members[|members| - 1];
      Dropped(members[..|members| - 1], except, dropIfBacklog, net)
        + (if except != Some(last) && last in net.connected && dropIfBacklog && Backlogged(net, last) then [last] else [])
  }

  /** One "congested" advisory per dropped recipient, carrying its backlog. */
  function Advisories(dropped: seq<Sock>, net: Net): (r: seq<Outgoing>)
    ensures |r| == |dropped|
  {
    seq(|dropped|, i requires 0 <= i < |dropped| => ServerEvent(Congested(net.backlog(dropped[i]))))
  }

  /** Every socket other than the excepted one: a member that receives gets
      the packet exactly once; a member skipped for its state or its backlog,
      and any non-member, gets nothing. */
  lemma {:induction false} RecipientView(log: Log<Outgoing>, members: seq<Sock>, pkt: Outgoing,
                                         except: Option<Sock>, dropIfBacklog: bool, net: Net, r: Sock)
    requires NoDup(members) && except != Some(r)
    ensures Get(Broadcast(log, members, pkt, except, dropIfBacklog, net), r)
         == Get(log, r) + (if r in members && Receives(r, except, dropIfBacklog, net) then [pkt] else [])
    decreases |members|
  {
    if members != [] {
      var init, last := members[..|members| - 1], members[|members| - 1];
      assert members == init + [last];
      NoDupLast(members);
      RecipientView(log, init, pkt, except, dropIfBacklog, net, r);
    }
  }

  /** The excepted sender: it never gets its own packet, and gets one
      advisory per dropped recipient, in range order. */
  lemma {:induction false} SenderView(log: Log<Outgoing>, members: seq<Sock>, pkt: Outgoing,
                                      sender: Sock, dropIfBacklog: bool, net: Net)
    ensures Get(Broadcast(log, members, pkt, Some(sender), dropIfBacklog, net), sender)
         == Get(log, sender) + Advisories(Dropped(members, Some(sender), dropIfBacklog, net), net)
    decreases |members|
  {
    if members != [] {
      var init, last := members[..|members| - 1], members[|members| - 1];
      SenderView(log, init, pkt, sender, dropIfBacklog, net);
      var d0 := Dropped(init, Some(sender), dropIfBacklog, net);
      if last != sender && last in net.connected && dropIfBacklog && Backlogged(net, last) {
        assert Advisories(d0 + [last], net) == Advisories(d0, net) + [ServerEvent(Congested(net.backlog(last)))];
      } else {
        assert d0 + [] == d0;
      }
    }
  }

  /** The dropped recipients are exactly the connected, backlogged members
      other than the excepted socket, and only a dropping broadcast has any. */
  lemma {:induction false} DroppedExactly(members: seq<Sock>, except: Option<Sock>, dropIfBacklog: bool, net: Net, x: Sock)
    ensures x in Dropped(members, except, dropIfBacklog, net)
        <==> x in members && except != Some(x) && x in net.connected && dropIfBacklog && Backlogged(net, x)
    decreases |members|
  {
    if members != [] {
      var init, last := members[..|members| - 1], members[|members| - 1];
      assert members == init + [last];
      DroppedExactly(init, except, dropIfBacklog, net, x);
    }
  }

  /** With the default arguments (no excepted socket, no dropping), as used
      for membership events, every connected member receives the packet,
      including the member whose change it announces. */
  lemma DefaultsReachEveryMember(log: Log<Outgoing>, members: seq<Sock>, pkt: Outgoing, net: Net, r: Sock)
    requires NoDup(members)
    ensures Get(Broadcast(log, members, pkt, None, false, net), r)
         == Get(log, r) + (if r in members && r in net.connected then [pkt] else [])
  {
    RecipientView(log, members, pkt, None, false, net, r);
  }

  /** The threshold comparison is strict: a backlog of exactly 3 MiB still
      gets the frame, one byte more does not. */
  lemma ThresholdIsStrict(log: Log<Outgoing>, members: seq<Sock>, pkt: Outgoing,
                          except: Option<Sock>, net: Net, r: Sock)
    requires NoDup(members) && r in members && except != Some(r) && r in net.connected
    ensures net.backlog(r) == 3 * 1024 * 1024 ==>
      Get(Broadcast(log, members, pkt, except, true, net), r) == Get(log, r) + [pkt]
    ensures net.backlog(r) == 3 * 1024 * 1024 + 1 ==>
      Get(Broadcast(log, members, pkt, except, true, net), r) == Get(log, r)
  {
    RecipientView(log, members, pkt, except, true, net, r);
  }
}
