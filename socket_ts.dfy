/**
 * `Connection` of socket.ts: the Bun socket wrapper used by the TypeScript
 * operator.  `buffer` is the reassignable `Uint8Array`; a missing socket is
 * `hasSocket == false`.  Callbacks are represented by whether they are set,
 * and what the data callback receives is recorded in `delivered`.
 */
module SocketTs {
  import opened Text
  import opened Framing

  class Connection {
    var hasSocket: bool
    var connected: bool
    var buffer: seq<byte>
    var hasDataCallback: bool
    var hasConnectedCallback: bool
    /** Payloads passed to the data callback, in order. */
    var delivered: seq<seq<byte>>
    /** Bytes passed to `socket.write`, in order. */
    var written: seq<byte>
    /** Number of times the connected callback ran. */
    var connectedCalls: nat

    constructor (socket: bool, isConnected: bool)
      ensures hasSocket == socket && connected == isConnected
      ensures buffer == [] && !hasDataCallback && !hasConnectedCallback
      ensures delivered == [] && written == [] && connectedCalls == 0
    {
      hasSocket := socket;
      connected := isConnected;
      buffer := [];
      hasDataCallback := false;
      hasConnectedCallback := false;
      delivered := [];
      written := [];
      connectedCalls := 0;
    }

    /** `_appendToBuffer`: the old bytes followed by the new ones. */
    method AppendToBuffer(newData: seq<byte>)
      modifies this`buffer
      ensures buffer == old(buffer) + newData
    {
      var combined := buffer + newData;
      buffer := combined;
    }

    /** `_processBuffer`: cut every complete frame off the front, delivering it when a data callback is set. */
    method ProcessBuffer()
      modifies this`buffer, this`delivered
      ensures buffer == Deframe(old(buffer)).rest
      ensures delivered == old(delivered) + (if hasDataCallback then Deframe(old(buffer)).msgs else [])
    {
      while |buffer| >= HEADER_LEN
        invariant Deframe(buffer).rest == Deframe(old(buffer)).rest
        invariant delivered + (if hasDataCallback then Deframe(buffer).msgs else [])
               == old(delivered) + (if hasDataCallback then Deframe(old(buffer)).msgs else [])
        decreases |buffer|
      {
        var len := DecodeLength(buffer[..HEADER_LEN]);
        assert len == DecodeLength(buffer);
        if |buffer| < HEADER_LEN + len {
          break;
        }
        ghost var before := delivered;
        var msg := buffer[HEADER_LEN..HEADER_LEN + len];
        if hasDataCallback {
          delivered := delivered + [msg];
        }
        buffer := buffer[HEADER_LEN + len..];
        SnocAppend(before, msg, Deframe(buffer).msgs);
      }
    }

    /** The socket `data` handler: append the bytes, then process the buffer. */
    method OnSocketData(chunk: seq<byte>)
      modifies this`buffer, this`delivered
      ensures buffer == Deframe(old(buffer) + chunk).rest
      ensures delivered == old(delivered) + (if hasDataCallback then Deframe(old(buffer) + chunk).msgs else [])
    {
      AppendToBuffer(chunk);
      ProcessBuffer();
    }

    /** `write` of bytes: nothing without a socket, else the little-endian length and the payload. */
    method Write(data: seq<byte>)
      modifies this`written
      ensures written == old(written) + (if hasSocket then Frame(data) else [])
    {
      if !hasSocket {
        return;
      }
      var lenBytes := EncodeLength(|data|);
      written := written + (lenBytes + data);
    }

    /** `write` of a string: encoded as UTF-8 first. */
    method WriteText(data: string)
      modifies this`written
      ensures written == old(written) + (if hasSocket then Frame(Utf8(data)) else [])
    {
      Write(Utf8(data));
    }

    /** `onData` only stores the callback; reading is driven by the socket handlers. */
    method OnData()
      modifies this`hasDataCallback
      ensures hasDataCallback
    {
      hasDataCallback := true;
    }

    /** `onConnected`: store the callback and invoke it if and only if already connected. */
    method OnConnected()
      modifies this`hasConnectedCallback, this`connectedCalls
      ensures hasConnectedCallback
      ensures connectedCalls == old(connectedCalls) + (if connected then 1 else 0)
    {
      hasConnectedCallback := true;
      if connected {
        connectedCalls := connectedCalls + 1;
      }
    }

    /** The client socket's `open` handler: mark connected and run the connected callback if set. */
    method OnOpen()
      modifies this`connected, this`connectedCalls
      ensures connected
      ensures connectedCalls == old(connectedCalls) + (if hasConnectedCallback then 1 else 0)
    {
      connected := true;
      if hasConnectedCallback {
        connectedCalls := connectedCalls + 1;
      }
    }
  }
}
