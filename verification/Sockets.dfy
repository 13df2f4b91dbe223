/** A non-blocking socket, as a script of its coming answers. */
module Sockets {
  import opened Text

  type Positive = n: nat | n > 0 witness 1

  /** What the socket answers to one `read` or `write`. */
  datatype Answer = Ready(most: Positive, at: nat) | Blocked | Broken | Ended(at: nat)

  /** A socket: bytes that have arrived, bytes handed to it, the clock, and its coming answers. */
  datatype World = World(inbox: Bytes, out: Bytes, now: nat, script: seq<Answer>)

  /** `io::Result<usize>` with its one distinguished error. */
  datatype Io = Ok(n: nat) | WouldBlock | Failed

  function Least(a: nat, b: nat): (m: nat) ensures m <= a && m <= b && (m == a || m == b) { if a <= b then a else b }

  function WriteCall(w: World, data: Bytes): (r: (Io, World))
    ensures r.0.Ok? ==> r.0.n <= |data| && r.1.out == w.out + data[..r.0.n] && |r.1.script| < |w.script|
    ensures !r.0.Ok? ==> r.1.out == w.out
    ensures r.1.inbox == w.inbox
  {
    if w.script == [] then (WouldBlock, w) else
    var v := w.(script := w.script[1..]);
    match w.script[0]
    case Blocked => (WouldBlock, v)
    case Broken => (Failed, v)
    case Ended(at) => assert data[..0] == []; (Ok(0), v.(now := at))
    case Ready(most, at) => var n := Least(most, |data|); (Ok(n), v.(out := w.out + data[..n], now := at))
  }

  function ReadCall(w: World, room: nat): (r: (Io, Bytes, World))
    ensures r.0.Ok? ==> |r.1| == r.0.n <= room && w.inbox == r.1 + r.2.inbox && |r.2.script| < |w.script|
    ensures !r.0.Ok? ==> r.1 == [] && r.2.inbox == w.inbox
    ensures r.2.out == w.out
  {
    if w.script == [] then (WouldBlock, [], w) else
    var v := w.(script := w.script[1..]);
    match w.script[0]
    case Blocked => (WouldBlock, [], v)
    case Broken => (Failed, [], v)
    case Ended(at) => (Ok(0), [], v.(now := at))
    case Ready(most, at) =>
      if w.inbox == [] && room > 0 then (WouldBlock, [], v)
      else var n := Least(Least(most, room), |w.inbox|); (Ok(n), w.inbox[..n], v.(inbox := w.inbox[n..], now := at))
  }
}
