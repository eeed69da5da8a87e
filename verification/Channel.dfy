/** Buffered reading over a channel that delivers its bytes in chunks of any size. */
module Channel {
  import opened Bytes

  datatype ChannelError = StreamClosed | ChannelDown

  /** A service stream: `chunks` will arrive, then the stream ends, or fails if `failing`. It takes
      `room` bytes in all, if there is a limit, before a send fails with `sendError`. */
  class Channel {
    var chunks: seq<Data>
    const failing: bool
    var sent: Data
    const room: Option<nat>
    const sendError: ChannelError
    var closed: bool

    constructor (chunks: seq<Data>, failing: bool, room: Option<nat>, sendError: ChannelError)
      ensures this.chunks == chunks && this.failing == failing && sent == [] && !closed
      ensures this.room == room && this.sendError == sendError
    {
      this.chunks, this.failing, this.room, this.sendError := chunks, failing, room, sendError;
      sent, closed := [], false;
    }

    method Recv() returns (r: Result<Option<Data>, ChannelError>)
      modifies `chunks
      ensures old(chunks) == [] ==> chunks == [] && r == if failing then Err(ChannelDown) else Ok(None)
      ensures old(chunks) != [] ==> chunks == old(chunks)[1..] && r == Ok(Some(old(chunks)[0]))
    {
      if chunks == [] {
        return if failing then Err(ChannelDown) else Ok(None);
      }
      r := Ok(Some(chunks[0]));
      chunks := chunks[1..];
    }

    /** A session stream sends its data chunk by chunk, so what a failing send has sent is a prefix. */
    method Send(data: Data) returns (r: Result<(), ChannelError>)
      modifies `sent
      ensures sent == Capped(old(sent) + data, room)
      ensures r == if Fits(old(sent) + data, room) then Ok(()) else Err(sendError)
    {
      r := if Fits(sent + data, room) then Ok(()) else Err(sendError);
      sent := Capped(sent + data, room);
    }

    method Close()
      modifies `closed
      ensures closed
    {
      closed := true;
    }
  }

  class ChannelReader {
    const channel: Channel
    var buffer: Data

    constructor (channel: Channel)
      ensures this.channel == channel && buffer == []
    {
      this.channel, buffer := channel, [];
    }

    /** All that can still be read. */
    ghost function Remaining(): Data
      reads this, channel
    {
      buffer + Flatten(channel.chunks)
    }

    /** Exactly the next `len` bytes; if there are fewer, an error that takes nothing. */
    method ReadExact(len: nat) returns (r: Result<Data, ChannelError>)
      modifies this, channel`chunks
      ensures |old(Remaining())| >= len ==> r == Ok(old(Remaining())[..len]) && Remaining() == old(Remaining())[len..]
      ensures |old(Remaining())| < len ==>
                r == Err(if channel.failing then ChannelDown else StreamClosed) && Remaining() == old(Remaining())
    {
      ghost var all := Remaining();
      while |buffer| < len
        invariant Remaining() == all
        decreases |channel.chunks|
      {
        var chunk := channel.Recv();
        match chunk {
          case Err(e) => return Err(e);
          case Ok(None) => return Err(StreamClosed);
          case Ok(Some(data)) => buffer := buffer + data;
        }
      }
      r := Ok(buffer[..len]);
      assert all[..len] == buffer[..len] && all[len..] == buffer[len..] + Flatten(channel.chunks);
      buffer := buffer[len..];
    }

    method ReadU32() returns (r: Result<u32, ChannelError>)
      modifies this, channel`chunks
      ensures |old(Remaining())| >= 4 ==>
                r == Ok(U32At(old(Remaining()), 0)) && Remaining() == old(Remaining())[4..]
      ensures |old(Remaining())| < 4 ==>
                r == Err(if channel.failing then ChannelDown else StreamClosed) && Remaining() == old(Remaining())
    {
      var b := ReadExact(4);
      match b {
        case Err(e) => return Err(e);
        case Ok(w) => return Ok(FromLe32(w));
      }
    }

    /** Buffered bytes first; `None` only when nothing is left. */
    method NextChunk() returns (r: Result<Option<Data>, ChannelError>)
      modifies this, channel`chunks
      ensures old(buffer) != [] ==> r == Ok(Some(old(buffer))) && buffer == [] && channel.chunks == old(channel.chunks)
      ensures old(buffer) == [] && old(channel.chunks) != [] ==>
                r == Ok(Some(old(channel.chunks)[0])) && buffer == [] && channel.chunks == old(channel.chunks)[1..]
      ensures old(buffer) == [] && old(channel.chunks) == [] ==>
                r == (if channel.failing then Err(ChannelDown) else Ok(None)) && buffer == [] && channel.chunks == []
    {
      if buffer != [] {
        r := Ok(Some(buffer));
        buffer := [];
        return;
      }
      r := channel.Recv();
    }

    method ReadToEnd() returns (r: Result<Data, ChannelError>)
      modifies this, channel`chunks
      ensures channel.failing ==> r == Err(ChannelDown) && Remaining() == old(Remaining())
      ensures !channel.failing ==> r == Ok(old(Remaining())) && Remaining() == []
    {
      ghost var all := Remaining();
      while true
        invariant Remaining() == all
        decreases |channel.chunks|
      {
        var chunk := channel.Recv();
        match chunk {
          case Err(e) => return Err(e);
          case Ok(None) =>
            assert all == buffer + Flatten([]) && buffer + [] == buffer;
            break;
          case Ok(Some(data)) => buffer := buffer + data;
        }
      }
      r := Ok(buffer);
      buffer := [];
    }
  }
}
