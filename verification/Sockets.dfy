/** The open WebSockets of each agent, oldest first, and the frame hand-over that walks them. */
module Sockets {
  import opened Wrappers

  const MAX_AGENT_SOCKETS: int := 8
  const MAX_WS_BUFFERED_BYTES: int := 1024 * 1024

  /** `throws` is what a send on this socket will do; it is the environment's choice. */
  datatype Socket = Socket(id: nat, open: bool, buffered: nat, throws: bool)

  /** Open and not backed up: sendToAgent tries it. */
  predicate Tried(s: Socket) { s.open && s.buffered <= MAX_WS_BUFFERED_BYTES }

  predicate Accepts(s: Socket) { Tried(s) && !s.throws }

  /** The sockets that survive when every one of them has been tried and refused. */
  function DropBroken(s: seq<Socket>): seq<Socket> {
    if s == [] then []
    else (if Tried(s[0]) && s[0].throws then [] else [s[0]]) + DropBroken(s[1..])
  }

  lemma {:induction false} DropBrokenKeeps(s: seq<Socket>, x: Socket)
    ensures x in DropBroken(s) <==> x in s && !(Tried(x) && x.throws)
  {
    if s != [] {
      DropBrokenKeeps(s[1..], x);
      assert s == [s[0]] + s[1..];
    }
  }

  /** The newest socket that will take the frame, if there is one. */
  ghost predicate IsNewestAccepting(s: seq<Socket>, k: nat) {
    k < |s| && Accepts(s[k]) && forall i :: k < i < |s| ==> !Accepts(s[i])
  }

  class AgentSockets {
    var sockets: map<string, seq<Socket>>

    predicate Valid()
      reads this
    {
      forall a :: a in sockets ==> 0 < |sockets[a]| <= MAX_AGENT_SOCKETS
    }

    constructor ()
      ensures Valid() && sockets == map[]
    {
      sockets := map[];
    }

    /** The oldest sockets make room; the newcomer is never the victim. */
    method TrackAgentSocket(agent: string, ws: Socket)
      requires Valid()
      modifies this
      ensures Valid() && agent in sockets
      ensures var was := if agent in old(sockets) then old(sockets)[agent] else [];
              sockets == old(sockets)[agent := (if |was| < MAX_AGENT_SOCKETS then was else was[1..]) + [ws]]
    {
      var s := if agent in sockets then sockets[agent] else [];
      ghost var was := s;
      while |s| >= MAX_AGENT_SOCKETS
        invariant s == was || (|was| == MAX_AGENT_SOCKETS && s == was[1..])
        decreases |s|
      {
        s := s[1..];
      }
      sockets := sockets[agent := s + [ws]];
    }

    /**
      Newest first, at most one socket gets the frame.  A socket that throws is dropped; one
      that is closed or backed up is passed over and kept.
     */
    method SendToAgent(agent: string) returns (sentTo: Option<Socket>)
      requires Valid()
      modifies this
      ensures Valid()
      ensures agent !in old(sockets) ==> sentTo == None && sockets == old(sockets)
      ensures agent in old(sockets) ==>
                (sentTo == None <==> forall i :: 0 <= i < |old(sockets)[agent]| ==> !Accepts(old(sockets)[agent][i]))
      ensures sentTo.Some? ==>
                agent in old(sockets) &&
                exists k: nat :: IsNewestAccepting(old(sockets)[agent], k) && sentTo == Some(old(sockets)[agent][k])
                       && sockets == old(sockets)[agent :=
                          old(sockets)[agent][..k + 1] + DropBroken(old(sockets)[agent][k + 1..])]
      ensures agent in old(sockets) && sentTo == None ==>
                var left := DropBroken(old(sockets)[agent]);
                sockets == (if left == [] then old(sockets) - {agent} else old(sockets)[agent := left])
    {
      if agent !in sockets {
        return None;
      }
      var s := sockets[agent];
      var kept: seq<Socket> := [];
      var i := |s|;
      while i > 0
        invariant 0 <= i <= |s|
        invariant kept == DropBroken(s[i..])
        invariant forall j :: i <= j < |s| ==> !Accepts(s[j])
        invariant sockets == old(sockets)
      {
        i := i - 1;
        assert s[i..][0] == s[i] && s[i..][1..] == s[i + 1..];
        if Tried(s[i]) {
          if !s[i].throws {
            DropBrokenShrinks(s[i + 1..]);
            sockets := sockets[agent := s[..i + 1] + kept];
            assert IsNewestAccepting(s, i);
            return Some(s[i]);
          }
        } else {
          kept := [s[i]] + kept;
        }
      }
      assert s[0..] == s;
      DropBrokenShrinks(s);
      sockets := if kept == [] then sockets - {agent} else sockets[agent := kept];
      return None;
    }
  }

  lemma {:induction false} DropBrokenShrinks(s: seq<Socket>)
    ensures |DropBroken(s)| <= |s|
  {
    if s != [] {
      DropBrokenShrinks(s[1..]);
    }
  }
}
