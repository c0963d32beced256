/**
 * `Socket::Connection` of lib/lib/socket.cpp: the libuv stream wrapper used
 * by the C++ operator.  Callbacks are represented by whether they are set;
 * what the data callback receives is recorded in `delivered`, the bytes
 * handed to `uv_write` in `written`, and every `uv_read_start` is counted.
 */
module SocketCpp {
  import opened Text
  import opened Framing

  class Connection {
    var connected: bool
    var dataCallbackSet: bool
    var hasDataCallback: bool
    var hasConnectedCallback: bool
    var buffer: seq<byte>
    /** Payloads passed to the data callback, in order. */
    var delivered: seq<seq<byte>>
    /** Bytes written to the stream, in order. */
    var written: seq<byte>
    /** Number of read loops installed on the stream. */
    var readStarts: nat
    /** Number of times the connected callback ran. */
    var connectedCalls: nat

    /** Between reads the buffer never starts with a complete frame. */
    ghost predicate Valid()
      reads this
    {
      Incomplete(buffer)
    }

    constructor (isConnected: bool)
      ensures Valid()
      ensures connected == isConnected && !dataCallbackSet && !hasDataCallback && !hasConnectedCallback
      ensures buffer == [] && delivered == [] && written == [] && readStarts == 0 && connectedCalls == 0
    {
      connected := isConnected;
      dataCallbackSet := false;
      hasDataCallback := false;
      hasConnectedCallback := false;
      buffer := [];
      delivered := [];
      written := [];
      readStarts := 0;
      connectedCalls := 0;
    }

    /** `write`: the 4-byte length (truncated to 32 bits), then the payload. */
    method Write(data: seq<byte>)
      modifies this`written
      ensures written == old(written) + Frame(data)
    {
      var lenPrefix := EncodeLength(|data|);
      written := written + (lenPrefix + data);
    }

    /** `onData`: store the callback; start reading only once, and only on a connected stream. */
    method OnData()
      modifies this`hasDataCallback, this`dataCallbackSet, this`readStarts
      ensures hasDataCallback
      ensures dataCallbackSet == (old(dataCallbackSet) || connected)
      ensures readStarts == old(readStarts) + (if connected && !old(dataCallbackSet) then 1 else 0)
    {
      hasDataCallback := true;
      if connected && !dataCallbackSet {
        dataCallbackSet := true;
        readStarts := readStarts + 1;
      }
    }

    /** `onConnected`: store the callback and run it at once when already connected. */
    method OnConnected()
      modifies this`hasConnectedCallback, this`connectedCalls
      ensures hasConnectedCallback
      ensures connectedCalls == old(connectedCalls) + (if connected then 1 else 0)
    {
      hasConnectedCallback := true;
      if connected {
        connectedCalls := connectedCalls + 1;
      }
    }

    /**
     * The read callback for `nread > 0` bytes (the same loop serves server
     * connections and `Client::connect`): append the bytes, then cut every
     * complete frame off the front of the buffer.
     */
    method OnRead(chunk: seq<byte>)
      requires Valid()
      modifies this`buffer, this`delivered
      ensures Valid()
      ensures buffer == Deframe(old(buffer) + chunk).rest
      ensures delivered == old(delivered) + (if hasDataCallback then Deframe(old(buffer) + chunk).msgs else [])
    {
      buffer := buffer + chunk;
      ghost var all := buffer;
      while |buffer| >= HEADER_LEN
        invariant Deframe(buffer).rest == Deframe(all).rest
        invariant delivered + (if hasDataCallback then Deframe(buffer).msgs else [])
               == old(delivered) + (if hasDataCallback then Deframe(all).msgs else [])
        decreases |buffer|
      {
        var len := DecodeLength(buffer[..HEADER_LEN]);
        assert len == DecodeLength(buffer);
        if |buffer| >= HEADER_LEN + len {
          ghost var before := delivered;
          var msg := buffer[HEADER_LEN..HEADER_LEN + len];
          if hasDataCallback {
            delivered := delivered + [msg];
          }
          buffer := buffer[HEADER_LEN + len..];
          SnocAppend(before, msg, Deframe(buffer).msgs);
        } else {
          break;
        }
      }
    }

    /** `Client::connect` succeeded: mark connected, run the connected callback, and start reading when a data callback is set. */
    method ConnectSucceeded()
      modifies this`connected, this`connectedCalls, this`readStarts
      ensures connected
      ensures connectedCalls == old(connectedCalls) + (if hasConnectedCallback then 1 else 0)
      ensures readStarts == old(readStarts) + (if hasDataCallback then 1 else 0)
    {
      connected := true;
      if hasConnectedCallback {
        connectedCalls := connectedCalls + 1;
      }
      if hasDataCallback {
        readStarts := readStarts + 1;
      }
    }
  }
}
