/** The server side of a socket.io socket, as an opaque record: whether it is
    connected, the 'output' messages emitted on it, and how many times the
    bridge asked it to connect() again. */
module SocketChannel {
  datatype Socket = Socket(connected: bool, emitted: seq<string>, connectCalls: nat)

  /** The socket handed to io.on('connection'). */
  function Accepted(): Socket {
    Socket(true, [], 0)
  }

  /** A socket.emit('output', data) that did not throw. */
  function Emit(s: Socket, data: string): Socket {
    s.(emitted := s.emitted + [data])
  }

  /** socket.disconnect(true), and the transport closing the channel. */
  function Disconnected(s: Socket): Socket {
    s.(connected := false)
  }

  /** socket.connect(); what the library does with the request is not modelled. */
  function ConnectRequested(s: Socket): Socket {
    s.(connectCalls := s.connectCalls + 1)
  }
}
