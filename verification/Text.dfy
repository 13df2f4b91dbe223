/** Byte strings and the few `str` operations the protocol code uses: decimal
    printing and parsing, whitespace splitting and substring search. */
module Text {

  type Byte = x: int | 0 <= x < 256

  type Bytes = seq<Byte>

  datatype Option<+T> = None | Some(value: T)

  const U64: nat := 0x1_0000_0000_0000_0000

  type Word = n: nat | n < U64

  const NL: Byte := 10
  const SPACE: Byte := 32

  /** The bytes of an ASCII literal. */
  function B(s: string): (b: Bytes)
    ensures |b| == |s|
    ensures forall i {:trigger b[i]} | 0 <= i < |s| :: s[i] as int < 256 ==> b[i] == s[i] as int
  {
    seq(|s|, i requires 0 <= i < |s| => if s[i] as int < 256 then s[i] as int else 63)
  }

  // ----- decimal numbers

  predicate IsDigit(b: Byte) { 48 <= b <= 57 }

  predicate AllDigits(s: Bytes) { forall i | 0 <= i < |s| :: IsDigit(s[i]) }

  function Show(n: nat): (s: Bytes)
    ensures |s| >= 1 && AllDigits(s)
  {
    if n < 10 then [48 + n] else Show(n / 10) + [48 + n % 10]
  }

  function Value(s: Bytes): nat
    requires AllDigits(s)
  {
    if s == [] then 0 else 10 * Value(s[..|s| - 1]) + (s[|s| - 1] - 48)
  }

  /** `str::parse::<u64>`: an optional plus sign, then at least one digit, no overflow. */
  function ParseU64(s: Bytes): Option<nat>
  {
    var d := if |s| > 0 && s[0] == '+' as int then s[1..] else s;
    if d == [] || !AllDigits(d) || Value(d) >= U64 then None else Some(Value(d))
  }

  lemma {:induction false} ValueShow(n: nat)
    ensures Value(Show(n)) == n
  {
    if n >= 10 {
      ValueShow(n / 10);
      assert Show(n)[..|Show(n)| - 1] == Show(n / 10);
    }
  }

  /** Parsing undoes printing on every u64. */
  lemma ParseShow(n: nat)
    ensures ParseU64(Show(n)) == if n < U64 then Some(n) else None
  {
    ValueShow(n);
    assert IsDigit(Show(n)[0]);
  }

  lemma ShowInjective(m: nat, n: nat)
    requires Show(m) == Show(n)
    ensures m == n
  {
    ValueShow(m);
    ValueShow(n);
  }

  function Pow10(k: nat): nat { if k == 0 then 1 else 10 * Pow10(k - 1) }

  lemma {:induction false} ShowLength(n: nat, k: nat)
    requires k >= 1 && n < Pow10(k)
    ensures |Show(n)| <= k
  {
    if n >= 10 {
      ShowLength(n / 10, k - 1);
    }
  }

  lemma ShowLengthU64(n: nat)
    requires n < U64
    ensures |Show(n)| <= 20
  {
    assert Pow10(20) == 100_000_000_000_000_000_000 by {
      assert Pow10(5) == 100_000;
      assert Pow10(10) == 10_000_000_000;
      assert Pow10(15) == 1_000_000_000_000_000;
    }
    ShowLength(n, 20);
  }

  // ----- words

  predicate IsSpace(b: Byte) { b == 32 || 9 <= b <= 13 }

  predicate NoSpace(s: Bytes) { forall i | 0 <= i < |s| :: !IsSpace(s[i]) }

  /** Length of the first word of a string. */
  function WordLen(s: Bytes): (n: nat)
    ensures n <= |s| && forall i | 0 <= i < n :: !IsSpace(s[i])
    ensures n < |s| ==> IsSpace(s[n])
  {
    if s == [] || IsSpace(s[0]) then 0
    else 1 + WordLen(s[1..])
  }

  /** `str::split_whitespace`, collected. */
  function Words(s: Bytes): (ws: seq<Bytes>)
    ensures forall w | w in ws :: w != [] && NoSpace(w)
    decreases |s|
  {
    if s == [] then []
    else if IsSpace(s[0]) then Words(s[1..])
    else [s[..WordLen(s)]] + Words(s[WordLen(s)..])
  }

  lemma WordLenPrefix(w: Bytes, rest: Bytes)
    requires NoSpace(w) && (rest == [] || IsSpace(rest[0]))
    ensures WordLen(w + rest) == |w|
  {
    assert forall i | 0 <= i < |w| :: (w + rest)[i] == w[i];
    assert rest != [] ==> (w + rest)[|w|] == rest[0];
  }

  /** One word at the front, then white space or the end. */
  lemma WordsFirst(w: Bytes, rest: Bytes)
    requires w != [] && NoSpace(w) && (rest == [] || IsSpace(rest[0]))
    ensures Words(w + rest) == [w] + Words(rest)
  {
    WordLenPrefix(w, rest);
    assert (w + rest)[..|w|] == w && (w + rest)[|w|..] == rest;
    assert !IsSpace((w + rest)[0]);
  }

  lemma WordsSpace(b: Byte, rest: Bytes)
    requires IsSpace(b)
    ensures Words([b] + rest) == Words(rest)
  {
    assert ([b] + rest)[1..] == rest;
  }

  lemma WordsTwo(v: Bytes, w: Bytes, b: Byte, c: Byte)
    requires v != [] && NoSpace(v) && w != [] && NoSpace(w) && IsSpace(b) && IsSpace(c)
    ensures Words(v + [b] + w + [c]) == [v, w]
  {
    assert v + [b] + w + [c] == v + ([b] + (w + [c]));
    WordsFirst(v, [b] + (w + [c]));
    WordsSpace(b, w + [c]);
    WordsFirst(w, [c]);
    WordsSpace(c, []);
    assert [c] + [] == [c];
  }

  // ----- substrings

  predicate At(s: Bytes, p: Bytes, i: nat) { i + |p| <= |s| && s[i..i + |p|] == p }

  function FindFrom(s: Bytes, p: Bytes, i: nat): (r: Option<nat>)
    requires i <= |s|
    ensures r.Some? ==> i <= r.value && At(s, p, r.value) && forall j | i <= j < r.value :: !At(s, p, j)
    ensures r.None? ==> forall j | i <= j :: !At(s, p, j)
    decreases |s| - i
  {
    if At(s, p, i) then Some(i) else if i == |s| then None else FindFrom(s, p, i + 1)
  }

  /** `str::find`: the first place a pattern occurs. */
  function Find(s: Bytes, p: Bytes): (r: Option<nat>)
    ensures r.Some? ==> At(s, p, r.value) && forall j: nat | j < r.value :: !At(s, p, j)
    ensures r.None? ==> forall j: nat :: !At(s, p, j)
  {
    FindFrom(s, p, 0)
  }

  predicate Contains(s: Bytes, p: Bytes) { Find(s, p).Some? }

  predicate EndsWith(s: Bytes, p: Bytes) { |p| <= |s| && s[|s| - |p|..] == p }

  lemma FindIs(s: Bytes, p: Bytes, i: nat)
    requires At(s, p, i) && forall j: nat | j < i :: !At(s, p, j)
    ensures Find(s, p) == Some(i)
  {
  }

  lemma FindNone(s: Bytes, p: Bytes)
    requires forall j: nat :: !At(s, p, j)
    ensures Find(s, p) == None
  {
  }

  /** A pattern whose byte k occurs neither earlier in it nor in the text before
      it is seen exactly when all of it has arrived. */
  lemma MarkerSeen(head: Bytes, p: Bytes, k: nat, got: Bytes)
    requires k < |p| && p[k] !in head && p[k] !in p[..k]
    requires got <= head + p
    ensures Contains(got, p) <==> got == head + p
    ensures EndsWith(got, p) <==> got == head + p
  {
    var full := head + p;
    forall m | 0 <= m < |head| + k ensures full[m] != p[k] {
      assert full[m] == if m < |head| then head[m] else p[..k][m - |head|];
    }
    if Contains(got, p) || EndsWith(got, p) {
      var i := if EndsWith(got, p) then |got| - |p| else Find(got, p).value;
      assert At(got, p, i);
      assert got[i..i + |p|][k] == full[i + k];
    }
    if got == head + p {
      assert At(got, p, |head|);
    }
  }

  lemma SameLength<T>(s: seq<T>, t: seq<T>)
    requires multiset(s) == multiset(t)
    ensures |s| == |t|
  {
    assert |s| == |multiset(s)| == |multiset(t)| == |t|;
  }
}
