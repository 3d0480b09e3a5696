/**
 * One end of a tcp_mux tunnel as the object the program updates in place: the stream map, the frame channel
 * and the counters, with the operations of `MuxTunnel` and of the two reader loops. Each method is tied to
 * the protocol steps it performs when it is not interrupted.
 */
module MuxTunnel {
  import opened Bytes
  import opened MuxCodec
  import P = MuxProtocol

  class MuxEnd {
    const side: P.Side
    var nextStreamId: u32
    var streams: set<u32>
    var gone: set<u32>
    var relays: set<u32>
    var sent: map<u32, seq<byte>>
    var channels: map<u32, seq<byte>>
    var frames: seq<Frame>
    var running: bool

    constructor (side: P.Side)
      ensures this.side == side
      ensures World([]) == P.INIT
    {
      this.side := side;
      nextStreamId, streams, gone, relays := 1, {}, {}, {};
      sent, channels, frames, running := map[], map[], [], true;
    }

    /** This end beside an idle peer, with `incoming` frames about to arrive. */
    ghost function World(incoming: seq<Frame>): P.State
      reads this
    {
      var e := P.Endpoint(streams, gone, relays, {}, P.Free, running, sent, channels);
      var s := P.INIT.(nextId := nextStreamId);
      P.SetOut(P.SetOut(P.SetEnd(s, side, e), side, P.Link(frames, false)), P.Other(side), P.Link(incoming, false))
    }

    /** Takes the next id, which wraps at 32 bits; until it wraps this is the protocol's opening of a stream. */
    method OpenStream() returns (id: u32)
      requires side.Server?
      modifies this
      ensures id == old(nextStreamId) && nextStreamId == (id + 1) % 0x1_0000_0000
      ensures streams == old(streams) + {id} && frames == old(frames) + [Open(id)]
      ensures nextStreamId != 0 ==> World([]) == P.Next(P.Next(old(World([])), P.Reserve), P.SendOpen(id))
    {
      id, nextStreamId := nextStreamId, (nextStreamId + 1) % 0x1_0000_0000;
      streams := streams + {id};
      frames := frames + [Open(id)];
      relays := relays + {id};
    }

    /** Queues any payload on any id; from a running relay this is the protocol's send. */
    method SendData(id: u32, payload: seq<byte>)
      modifies `sent, `frames
      ensures frames == old(frames) + [Data(id, payload)]
      ensures sent == old(sent)[id := P.History(old(sent), id) + payload]
      ensures id in relays && 1 <= |payload| <= P.RELAY_BUFFER ==>
                World([]) == P.Next(old(World([])), P.Send(side, id, payload))
    {
      sent := sent[id := P.History(sent, id) + payload];
      frames := frames + [Data(id, payload)];
    }

    /** Unregisters any id and queues Close; for a running relay this is the protocol's shutdown of the stream. */
    method CloseStream(id: u32)
      modifies this
      ensures id !in streams && frames == old(frames) + [Close(id)]
      ensures forall other :: other != id ==> (other in streams <==> other in old(streams))
      ensures old(id in relays) ==>
                World([]) == P.Next(P.Next(old(World([])), P.EndOfInput(side, id)), P.EndOfRelay(side, id))
    {
      relays := relays - {id};
      streams := streams - {id};
      frames := frames + [Close(id)];
    }

    method HandleData(id: u32, payload: seq<byte>)
      requires running
      modifies this
      ensures World([]) == P.Settle(P.Next(old(World([Data(id, payload)])), P.Receive(side)), side)
    {
      ghost var taken := P.Next(World([Data(id, payload)]), P.Receive(side));
      if id !in streams {
        P.SettleReply(taken, side);
        frames := frames + [Close(id)];
      } else if id in gone {
        P.SettleGone(taken, side);
        streams := streams - {id};
      } else {
        P.SettleDelivered(taken, side);
        channels := channels[id := P.History(channels, id) + payload];
      }
    }

    /** The body of the reader loop for one frame. */
    method HandleFrame(f: Frame)
      requires running
      modifies this
      ensures World([]) == P.Settle(P.Next(old(World([f])), P.Receive(side)), side)
    {
      match f {
        case Open(id) =>
          if side.Client? {
            streams, gone, relays := streams + {id}, gone - {id}, relays + {id};
          }
        case Data(id, payload) => HandleData(id, payload);
        case Close(id) =>
          streams := streams - {id};
        case Ping =>
          P.SettleReply(P.Next(World([f]), P.Receive(side)), side);
          frames := frames + [Pong];
        case Pong =>
      }
    }
  }
}
