/** The fixed texts and the printed lines of the measurement protocol. */
module Wire {
  import opened Text

  const MIN_CHUNK: nat := 4096
  const MAX_CHUNK: nat := 4194304

  const UPGRADE: Bytes :=
    B("HTTP/1.1 101 Switching Protocols\r\n") + B("Connection: Upgrade\r\n") + B("Upgrade: RMBT\r\n\r\n")
  const VERSION: Bytes := B("RMBTv1.5.0\n")
  const ACCEPT_TOKEN: Bytes := B("ACCEPT TOKEN QUIT\n")
  const OK: Bytes := B("OK\n")
  const CHUNK_SIZES: Bytes := B("CHUNKSIZE 4096 4096 4194304\n")
  const ACCEPT: Bytes := B("ACCEPT GETCHUNKS GETTIME ") + B("PUT PUTNORESULT PING QUIT\n")
  const PING: Bytes := B("PING\n")
  const PONG: Bytes := B("PONG\n")
  const Q: Byte := 81

  function TokenLine(token: nat): Bytes { B("TOKEN ") + Show(token) + [NL] }

  function ChunksLine(count: nat, size: nat): Bytes { B("GETCHUNKS ") + Show(count) + [SPACE] + Show(size) + [NL] }

  function TimeLine(seconds: nat, size: nat): Bytes { B("GETTIME ") + Show(seconds) + [SPACE] + Show(size) + [NL] }

  function ResultLine(size: nat): Bytes { B("PUTTIMERESULT ") + Show(size) + [NL] }

  /** The answer `TIME t`. */
  function Time(t: nat): Bytes { B("TIME ") + Show(t) + [NL] }

  /** The intermediate answer of PUT, `TIME t BYTES b`. */
  function TimeBytes(t: nat, b: nat): Bytes { B("TIME ") + Show(t) + B(" BYTES ") + Show(b) + [NL] }

  /** A text holds one newline, and holds it last. */
  predicate IsLine(s: Bytes) { |s| > 0 && s[|s| - 1] == NL && forall i | 0 <= i < |s| - 1 :: s[i] != NL }

  lemma LinesAreLines(n: nat, m: nat)
    ensures IsLine(TokenLine(n)) && IsLine(ChunksLine(n, m)) && IsLine(TimeLine(n, m)) && IsLine(ResultLine(n))
        && IsLine(PING)
  {
  }

  predicate Lacks(s: Bytes, b: Byte) { forall i | 0 <= i < |s| :: s[i] != b }

  lemma AcceptMarker()
    ensures |ACCEPT| == 51 && ACCEPT[46] == Q && Q !in ACCEPT[..46]
  {
    var front, back := "ACCEPT GETCHUNKS GETTIME ", "PUT PUTNORESULT PING QUIT\n";
    assert ACCEPT == B(front) + B(back);
    assert forall i | 0 <= i < |front| :: front[i] != 'Q';
    assert forall i | 0 <= i < 21 :: back[i] != 'Q';
    assert back[21] == 'Q';
  }

  lemma TokenMarker()
    ensures |ACCEPT_TOKEN| == 18 && ACCEPT_TOKEN[13] == Q && Q !in ACCEPT_TOKEN[..13] && Lacks(UPGRADE + VERSION, Q)
  {
    var text := "ACCEPT TOKEN QUIT\n";
    assert text[13] == 'Q' && forall i | 0 <= i < 13 :: text[i] != 'Q';
    var u, v := "HTTP/1.1 101 Switching Protocols\r\n", "Connection: Upgrade\r\n";
    var w, x := "Upgrade: RMBT\r\n\r\n", "RMBTv1.5.0\n";
    assert Lacks(B(u), Q) by { assert forall i | 0 <= i < |u| :: u[i] != 'Q'; }
    assert Lacks(B(v), Q) by { assert forall i | 0 <= i < |v| :: v[i] != 'Q'; }
    assert Lacks(B(w), Q) by { assert forall i | 0 <= i < |w| :: w[i] != 'Q'; }
    assert Lacks(B(x), Q) by { assert forall i | 0 <= i < |x| :: x[i] != 'Q'; }
  }

  /** The greeting is complete for the client exactly when all of it is in. */
  lemma GreetingSeen(got: Bytes)
    requires got <= UPGRADE + VERSION + ACCEPT_TOKEN
    ensures EndsWith(got, ACCEPT_TOKEN) <==> got == UPGRADE + VERSION + ACCEPT_TOKEN
  {
    TokenMarker();
    MarkerSeen(UPGRADE + VERSION, ACCEPT_TOKEN, 13, got);
  }

  lemma ResponseSeen(got: Bytes)
    requires got <= OK + CHUNK_SIZES + ACCEPT
    ensures EndsWith(got, ACCEPT) <==> got == OK + CHUNK_SIZES + ACCEPT
  {
    AcceptMarker();
    var v := "CHUNKSIZE 4096 4096 4194304\n";
    assert forall i | 0 <= i < |v| :: v[i] != 'Q';
    MarkerSeen(OK + CHUNK_SIZES, ACCEPT, 46, got);
  }

  lemma TimeSeen(t: nat, got: Bytes)
    requires got <= Time(t) + ACCEPT
    ensures Contains(got, ACCEPT) <==> got == Time(t) + ACCEPT
    ensures EndsWith(got, ACCEPT) <==> got == Time(t) + ACCEPT
  {
    AcceptMarker();
    MarkerSeen(Time(t), ACCEPT, 46, got);
  }
}
