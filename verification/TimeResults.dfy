/** The TIMERESULT line: the server's printer and the client's parser. */
module TimeResults {
  import opened Text
  import opened Wire

  type Sample = (nat, nat)

  const HEAD: Bytes := B("TIMERESULT ")
  const SEP: Bytes := B("; ")
  const OPEN: Byte := 40
  const CLOSE: Byte := 41
  const SEMI: Byte := 59

  // ----- printer

  function Pair(p: Sample): Bytes { [OPEN] + Inner(p) + [CLOSE] }

  function Inner(p: Sample): Bytes { Show(p.0) + [SPACE] + Show(p.1) }

  function JoinPairs(ps: seq<Sample>): Bytes {
    if ps == [] then [] else if |ps| == 1 then Pair(ps[0]) else Pair(ps[0]) + SEP + JoinPairs(ps[1..])
  }

  /** The line `TIMERESULT (t b); (t b); ...`. */
  function TimeResult(ps: seq<Sample>): Bytes { HEAD + JoinPairs(ps) + [NL] }

  // ----- parser

  function Split(s: Bytes): (r: seq<Bytes>)
    ensures |r| >= 1
    decreases |s|
  {
    var i := Find(s, SEP);
    if i.None? then [s] else [s[..i.value]] + Split(s[i.value + 2..])
  }

  function TrimStart(s: Bytes, b: Byte): Bytes { if s != [] && s[0] == b then TrimStart(s[1..], b) else s }

  function TrimEnd(s: Bytes, b: Byte): (r: Bytes)
    ensures r <= s
  {
    if s != [] && s[|s| - 1] == b then TrimEnd(s[..|s| - 1], b) else s
  }

  function ParsePair(piece: Bytes): Option<Sample> {
    var words := Words(TrimEnd(TrimStart(piece, OPEN), CLOSE));
    if |words| != 2 then None else
    var t, b := ParseU64(words[0]), ParseU64(words[1]);
    if t.Some? && b.Some? then Some((t.value, b.value)) else None
  }

  function ParsePairs(pieces: seq<Bytes>): seq<Sample> {
    if pieces == [] then [] else
    var p := ParsePair(pieces[0]);
    (if p.Some? then [p.value] else []) + ParsePairs(pieces[1..])
  }

  /** What the client takes from the collected answer. */
  function ParseTimeResult(text: Bytes): seq<Sample> {
    if HEAD <= text then ParsePairs(Split(text[|HEAD|..])) else []
  }

  predicate AllU64(ps: seq<Sample>) { forall i | 0 <= i < |ps| :: ps[i].0 < U64 && ps[i].1 < U64 }

  // ----- lemmas on the pieces

  lemma NoSep(a: Bytes, t: Bytes)
    requires Lacks(a, SEMI)
    ensures Find(a + t, SEP) == if Find(t, SEP).None? then None else Some(|a| + Find(t, SEP).value)
  {
    var s := a + t;
    forall i: nat ensures At(s, SEP, i) <==> i >= |a| && At(t, SEP, i - |a|) {
      if i + 2 <= |s| {
        assert s[i..i + 2][0] == s[i];
        if i >= |a| {
          assert s[i..i + 2] == t[i - |a|..i - |a| + 2];
        }
      }
    }
    if Find(t, SEP).Some? {
      FindIs(s, SEP, |a| + Find(t, SEP).value);
    } else {
      FindNone(s, SEP);
    }
  }

  /** Text without a semicolon joins the first piece of what follows it. */
  lemma SplitPrefix(a: Bytes, t: Bytes)
    requires Lacks(a, SEMI)
    ensures Split(a + t) == [a + Split(t)[0]] + Split(t)[1..]
  {
    NoSep(a, t);
    var i := Find(t, SEP);
    if i.Some? {
      assert (a + t)[..|a| + i.value] == a + t[..i.value];
      assert (a + t)[|a| + i.value + 2..] == t[i.value + 2..];
    }
  }

  lemma SplitSep(t: Bytes)
    ensures Split(SEP + t) == [[]] + Split(t)
  {
    assert At(SEP + t, SEP, 0);
    FindIs(SEP + t, SEP, 0);
    assert (SEP + t)[2..] == t;
  }

  lemma TrimPair(p: Sample)
    ensures TrimStart(Pair(p), OPEN) == Inner(p) + [CLOSE]
    ensures TrimEnd(Inner(p) + [CLOSE], CLOSE) == Inner(p)
  {
    assert Pair(p)[1..] == Inner(p) + [CLOSE];
    assert IsDigit(Show(p.0)[0]) && IsDigit(Show(p.1)[|Show(p.1)| - 1]);
    assert (Inner(p) + [CLOSE])[..|Inner(p)|] == Inner(p);
  }

  lemma WordsOfPair(p: Sample)
    ensures Words(Inner(p)) == [Show(p.0), Show(p.1)]
  {
    assert Inner(p) == Show(p.0) + ([SPACE] + Show(p.1));
    WordsFirst(Show(p.0), [SPACE] + Show(p.1));
    WordsSpace(SPACE, Show(p.1));
    WordsFirst(Show(p.1), []);
    assert Show(p.1) + [] == Show(p.1);
  }

  /** A printed pair parses back. */
  lemma ParsesPair(p: Sample)
    requires p.0 < U64 && p.1 < U64
    ensures ParsePair(Pair(p)) == Some(p)
  {
    TrimPair(p);
    WordsOfPair(p);
    ParseShow(p.0);
    ParseShow(p.1);
  }

  lemma {:induction false} TrimEndKeeps(a: Bytes, u: Bytes, b: Byte)
    requires a != [] && a[|a| - 1] != b
    ensures a <= TrimEnd(a + u, b)
  {
    var s := a + u;
    if u != [] && s[|s| - 1] == b {
      assert s[..|s| - 1] == a + u[..|u| - 1];
      TrimEndKeeps(a, u[..|u| - 1], b);
    }
  }

  lemma TrimStartOnce(s: Bytes)
    requires s != [] && s[0] != OPEN
    ensures TrimStart([OPEN] + s, OPEN) == s
  {
    assert ([OPEN] + s)[1..] == s;
  }

  lemma SecondWord(first: Bytes, second: Bytes, rest: Bytes)
    requires first != [] && NoSpace(first) && second != [] && NoSpace(second) && rest != [] && IsSpace(rest[0])
    ensures var ws := Words(first + ([SPACE] + (second + rest))); |ws| >= 2 && ws[1] == second
  {
    WordsFirst(first, [SPACE] + (second + rest));
    WordsSpace(SPACE, second + rest);
    WordsFirst(second, rest);
  }

  lemma NotANumber(s: Bytes)
    ensures ParseU64(s + [CLOSE]) == None
  {
    var t := s + [CLOSE];
    var d := if t[0] == '+' as int then t[1..] else t;
    assert d != [] ==> d[|d| - 1] == CLOSE;
  }

  /** A pair that is followed by a newline is dropped, whatever comes after it. */
  lemma DropsPairBeforeNewline(p: Sample, u: Bytes)
    ensures ParsePair(Pair(p) + [NL] + u) == None
  {
    var second := Show(p.1) + [CLOSE];
    var front := Show(p.0) + ([SPACE] + (second + [NL]));
    assert IsDigit(Show(p.0)[0]);
    assert Pair(p) + [NL] + u == [OPEN] + (front + u);
    TrimStartOnce(front + u);
    TrimEndKeeps(front, u, CLOSE);
    var text := TrimEnd(front + u, CLOSE);
    assert text == Show(p.0) + ([SPACE] + (second + ([NL] + text[|front|..])));
    SecondWord(Show(p.0), second, [NL] + text[|front|..]);
    NotANumber(Show(p.1));
  }

  lemma PairLacksSemi(p: Sample)
    ensures Lacks(Pair(p), SEMI)
  {
  }

  lemma SplitPairs(p: Sample, t: Bytes)
    ensures Split(Pair(p) + SEP + t) == [Pair(p)] + Split(t)
  {
    PairLacksSemi(p);
    SplitPrefix(Pair(p), SEP + t);
    SplitSep(t);
    assert Pair(p) + [] == Pair(p);
    assert Pair(p) + SEP + t == Pair(p) + (SEP + t);
  }

  // ----- main results

  lemma ParseLastPair(p: Sample, tail: Bytes)
    ensures ParsePairs(Split(Pair(p) + [NL] + tail)) == ParsePairs(Split(tail)[1..])
  {
    PairLacksSemi(p);
    SplitPrefix(Pair(p) + [NL], tail);
    DropsPairBeforeNewline(p, Split(tail)[0]);
  }

  /** A printed pair in front of a separator is parsed, then the rest. */
  lemma ParseFirstPair(p: Sample, t: Bytes)
    requires p.0 < U64 && p.1 < U64
    ensures ParsePairs(Split(Pair(p) + SEP + t)) == [p] + ParsePairs(Split(t))
  {
    SplitPairs(p, t);
    ParsesPair(p);
    assert ([Pair(p)] + Split(t))[1..] == Split(t);
  }

  lemma JoinedText(a: Bytes, b: Bytes, tail: Bytes)
    ensures a + SEP + b + [NL] + tail == a + SEP + (b + [NL] + tail)
  {
  }

  lemma PrependInit<T>(s: seq<T>, t: seq<T>)
    requires |s| > 1
    ensures [s[0]] + (s[1..][..|s| - 2] + t) == s[..|s| - 1] + t
  {
    assert s[..|s| - 1] == [s[0]] + s[1..][..|s| - 2];
  }

  /** The pairs of a printed line and of any tail: the last printed pair is lost,
      and whatever pieces the tail has after its first separator are parsed too. */
  lemma {:induction false} ParsePrinted(ps: seq<Sample>, tail: Bytes)
    requires ps != [] && AllU64(ps)
    ensures ParsePairs(Split(JoinPairs(ps) + [NL] + tail)) == ps[..|ps| - 1] + ParsePairs(Split(tail)[1..])
  {
    var p := ps[0];
    if |ps| == 1 {
      assert JoinPairs(ps) == Pair(p);
      ParseLastPair(p, tail);
    } else {
      var rest := JoinPairs(ps[1..]) + [NL] + tail;
      JoinedText(Pair(p), JoinPairs(ps[1..]), tail);
      ParseFirstPair(p, rest);
      ParsePrinted(ps[1..], tail);
      PrependInit(ps, ParsePairs(Split(tail)[1..]));
    }
  }

  /** The client recovers all pairs but the last from the server's answer exactly
      when no piece after the first separator of the tail looks like a pair. */
  lemma TimeResultLosesLast(ps: seq<Sample>, tail: Bytes)
    requires ps != [] && AllU64(ps)
    ensures ParseTimeResult(TimeResult(ps) + tail) == ps[..|ps| - 1] + ParsePairs(Split(tail)[1..])
    ensures ParseTimeResult(TimeResult(ps) + tail) == ps[..|ps| - 1] <==> ParsePairs(Split(tail)[1..]) == []
    ensures !Contains(tail, SEP) ==> ParseTimeResult(TimeResult(ps) + tail) == ps[..|ps| - 1]
  {
    var text := TimeResult(ps) + tail;
    assert text[|HEAD|..] == JoinPairs(ps) + [NL] + tail;
    ParsePrinted(ps, tail);
    assert |ps[..|ps| - 1] + ParsePairs(Split(tail)[1..])| == |ps| - 1 + |ParsePairs(Split(tail)[1..])|;
  }

  lemma {:induction false} ParseStripped(ps: seq<Sample>)
    requires ps != [] && AllU64(ps)
    ensures ParsePairs(Split(JoinPairs(ps))) == ps
  {
    var p := ps[0];
    if |ps| == 1 {
      ParsesPair(p);
      PairLacksSemi(p);
      NoSep(Pair(p), []);
      assert Pair(p) + [] == Pair(p);
      assert ParsePairs([Pair(p)][1..]) == [];
    } else {
      ParseFirstPair(p, JoinPairs(ps[1..]));
      ParseStripped(ps[1..]);
    }
  }

  /** Without the newline and the tail the parser returns every pair. */
  lemma TimeResultStripped(ps: seq<Sample>)
    requires ps != [] && AllU64(ps)
    ensures ParseTimeResult(HEAD + JoinPairs(ps)) == ps
  {
    assert (HEAD + JoinPairs(ps))[|HEAD|..] == JoinPairs(ps);
    ParseStripped(ps);
  }

  lemma {:induction false} JoinPairsOneLine(ps: seq<Sample>)
    ensures Lacks(JoinPairs(ps), NL)
  {
    if |ps| > 1 {
      JoinPairsOneLine(ps[1..]);
    }
  }

  lemma TimeResultIsLine(ps: seq<Sample>)
    ensures IsLine(TimeResult(ps))
  {
    JoinPairsOneLine(ps);
  }
}
