/** The server's command parser and its inverse relation to the client's printers. */
module Commands {
  import opened Text
  import opened Wire

  /** What one command line makes the server do. */
  datatype Command =
    | GetChunks(count: nat, size: nat)
    | Ping
    | GetTime(seconds: nat, size: nat)
    | PutNoResult(newSize: Option<nat>)  // None keeps the size of the previous command
    | PutTimeResult(size: nat)
    | Put(size: nat)
    | Ignored                            // unknown word: wait for more
    | Invalid                            // the handler returns an error
    | Panics                             // an index or slice is out of range

  const GETCHUNKS: Bytes := B("GETCHUNKS")
  const GETTIME: Bytes := B("GETTIME")
  const PUTNORESULT: Bytes := B("PUTNORESULT")
  const PUTTIMERESULT: Bytes := B("PUTTIMERESULT")
  const PUT: Bytes := B("PUT")

  predicate InRange(size: nat) { MIN_CHUNK <= size <= MAX_CHUNK }

  /** A size word that is in range, if it is one. */
  function ParseSize(word: Bytes): (r: Option<nat>)
    ensures r.Some? ==> InRange(r.value)
  {
    var n := ParseU64(word);
    if n.Some? && InRange(n.value) then n else None
  }

  /** The last piece of `split_terminator('\n')` for a text that ends in a newline. */
  function LastLine(body: Bytes): (l: Bytes)
    ensures NL !in body ==> l == body
    decreases |body|
  {
    if body != [] && NL in body then LastLine(body[1..]) else body
  }

  function CountAndSize(words: seq<Bytes>, chunks: bool): (c: Command)
    ensures c.GetChunks? || c.GetTime? || c.Invalid? || c.Panics?
    ensures c.GetChunks? ==> chunks && InRange(c.size)
    ensures c.GetTime? ==> !chunks && InRange(c.size)
  {
    if words == [] then Panics else
    var n := ParseU64(words[0]);
    if n.None? then Invalid else
    var size := if |words| == 1 then Some(MIN_CHUNK) else ParseSize(words[1]);
    if size.None? then Invalid
    else if chunks then GetChunks(n.value, size.value) else GetTime(n.value, size.value)
  }

  function ParsePutNoResult(words: seq<Bytes>): (c: Command)
    ensures c.PutNoResult? || c.Invalid?
  {
    if |words| > 2 then Invalid
    else if |words| == 2 then PutNoResult(ParseSize(words[1]))
    else PutNoResult(Some(MIN_CHUNK))
  }

  function SizeOrMin(word: Bytes): (n: nat)
    ensures InRange(n)
  {
    var size := ParseSize(word);
    if size.Some? then size.value else MIN_CHUNK
  }

  function ParsePutTimeResult(words: seq<Bytes>): (c: Command)
    ensures c.PutTimeResult? || c.Panics?
  {
    if |words| < 2 then Panics else PutTimeResult(SizeOrMin(words[1]))
  }

  function ParsePut(words: seq<Bytes>): (c: Command)
    ensures c.Put? || c.Invalid?
    ensures c.Put? <==> |words| <= 2
  {
    if |words| > 2 then Invalid
    else if |words| == 2 then Put(SizeOrMin(words[1]))
    else Put(MIN_CHUNK)
  }

  /** The branches of `handle_main_command_receive` on a text that ends in a newline. */
  function ParseCommand(line: Bytes): Command
    requires line != []
  {
    if Contains(line, GETCHUNKS) then
      var last := LastLine(line[..|line| - 1]);
      if |last| < 9 then Panics else CountAndSize(Words(last[9..]), true)
    else if PING <= line then Ping
    else if GETTIME <= line then CountAndSize(Words(line[7..]), false)
    else if PUTNORESULT <= line then ParsePutNoResult(Words(line))
    else if PUTTIMERESULT <= line then ParsePutTimeResult(Words(line))
    else if PUT <= line then ParsePut(Words(line))
    else Ignored
  }

  /** Only a text with a K can hold the word GETCHUNKS. */
  lemma NoChunksWithoutK(s: Bytes)
    requires Lacks(s, 75)
    ensures !Contains(s, GETCHUNKS)
  {
    assert GETCHUNKS[7] == 75;
    forall i: nat ensures !At(s, GETCHUNKS, i) {
      if i + 9 <= |s| {
        assert s[i..i + 9][7] == s[i + 7] != 75;
      }
    }
  }

  /** The plain PUT branch is taken exactly by the lines that start with PUT and
      with neither longer command, hold no GETCHUNKS and have at most two words. */
  lemma PutBranch(line: Bytes)
    requires line != []
    ensures ParseCommand(line).Put? <==>
      PUT <= line && !(PUTNORESULT <= line) && !(PUTTIMERESULT <= line) && !Contains(line, GETCHUNKS)
          && |Words(line)| <= 2
  {
    assert PUT[0] == 80 && PING[1] == 73 && PUT[1] == 85 && GETTIME[0] == 71;
    if PUT <= line {
      assert line[0] == 80 && line[1] == 85;
    }
  }

  // ----- sizes

  function Sized(command: Bytes, word: Bytes): Bytes { command + [SPACE] + word + [NL] }

  /** A word that names a size the server accepts. */
  predicate IsSize(word: Bytes) { ParseU64(word).Some? && 4096 <= ParseU64(word).value <= 4_194_304 }

  lemma SizedWords(command: Bytes, word: Bytes)
    requires command != [] && NoSpace(command) && word != [] && NoSpace(word)
    ensures Words(Sized(command, word)) == [command, word] && command <= Sized(command, word)
  {
    WordsTwo(command, word, SPACE, NL);
  }

  /** The words that tell the commands apart. */
  lemma Keywords()
    ensures |PUT| == 3 && PUT[0] == 80 && PUT[1] == 85 && PUT[2] == 84
    ensures |PUTTIMERESULT| == 13 && PUT <= PUTTIMERESULT && PUTTIMERESULT[3] == 84
    ensures |PUTNORESULT| == 11 && PUT <= PUTNORESULT && PUTNORESULT[3] == 78
    ensures |GETTIME| == 7 && GETTIME[0] == 71 && GETTIME[3] == 84
    ensures |GETCHUNKS| == 9 && GETCHUNKS[0] == 71 && |PING| == 5 && PING[0] == 80 && PING[1] == 73
    ensures NoSpace(PUT) && NoSpace(PUTNORESULT) && NoSpace(PUTTIMERESULT)
    ensures Lacks(PUT, 75) && Lacks(PUTNORESULT, 75) && Lacks(PUTTIMERESULT, 75) && Lacks(GETTIME, 75)
  {
  }

  /** A line that starts with an upload command is parsed by the words behind it. */
  lemma UploadLine(line: Bytes)
    requires line != [] && !Contains(line, GETCHUNKS)
    ensures PUTNORESULT <= line ==> ParseCommand(line) == ParsePutNoResult(Words(line))
    ensures PUTTIMERESULT <= line ==> ParseCommand(line) == ParsePutTimeResult(Words(line))
    ensures PUT <= line && |line| > 3 && IsSpace(line[3]) ==> ParseCommand(line) == ParsePut(Words(line))
  {
    hide Words, Contains, B;
    Keywords();
    if PUT <= line {
      assert line[0] == 80 && line[1] == 85;
    }
  }

  /** Whatever word follows an upload command, a size in range is taken; any other
      word means the least size, but for PUTNORESULT the size of the command before. */
  lemma UploadSizes(word: Bytes)
    requires word != [] && NoSpace(word)
    ensures var line := Sized(PUT, word); !Contains(line, GETCHUNKS) ==>
      ParseCommand(line) == Put(if IsSize(word) then ParseU64(word).value else 4096)
    ensures var line := Sized(PUTTIMERESULT, word); !Contains(line, GETCHUNKS) ==>
      ParseCommand(line) == PutTimeResult(if IsSize(word) then ParseU64(word).value else 4096)
    ensures var line := Sized(PUTNORESULT, word); !Contains(line, GETCHUNKS) ==>
      ParseCommand(line) == PutNoResult(if IsSize(word) then ParseU64(word) else None)
  {
    hide ParseU64, Contains, B, ParseCommand, Words, NoSpace;
    Keywords();
    SizedWords(PUT, word);
    SizedWords(PUTTIMERESULT, word);
    SizedWords(PUTNORESULT, word);
    assert Sized(PUT, word)[3] == SPACE;
    if !Contains(Sized(PUT, word), GETCHUNKS) {
      UploadLine(Sized(PUT, word));
    }
    if !Contains(Sized(PUTTIMERESULT, word), GETCHUNKS) {
      UploadLine(Sized(PUTTIMERESULT, word));
    }
    if !Contains(Sized(PUTNORESULT, word), GETCHUNKS) {
      UploadLine(Sized(PUTNORESULT, word));
    }
  }

  /** Without a word for the size PUT and PUTNORESULT take the least one, and
      PUTTIMERESULT reads a word that is not there. */
  lemma NoSizes()
    ensures ParseCommand(PUT + [NL]) == Put(4096) && ParseCommand(PUTNORESULT + [NL]) == PutNoResult(Some(4096))
    ensures ParseCommand(PUTTIMERESULT + [NL]) == Panics
  {
    hide Contains, B, ParseCommand, Words, NoSpace;
    Keywords();
    NoChunksWithoutK(PUT + [NL]);
    NoChunksWithoutK(PUTNORESULT + [NL]);
    NoChunksWithoutK(PUTTIMERESULT + [NL]);
    OneWord(PUT);
    OneWord(PUTNORESULT);
    OneWord(PUTTIMERESULT);
    UploadLine(PUT + [NL]);
    UploadLine(PUTNORESULT + [NL]);
    UploadLine(PUTTIMERESULT + [NL]);
  }

  lemma OneWord(word: Bytes)
    requires word != [] && NoSpace(word)
    ensures Words(word + [NL]) == [word]
  {
    WordsFirst(word, [NL]);
    assert [NL] == [NL] + [];
    WordsSpace(NL, []);
  }

  function Counted(n: nat, word: Bytes): Bytes { [SPACE] + Show(n) + (if word == [] then [] else [SPACE] + word) }

  /** A number, then white space or the end. */
  lemma NumberFirst(n: nat, rest: Bytes)
    requires rest == [] || IsSpace(rest[0])
    ensures Words([SPACE] + Show(n) + rest) == [Show(n)] + Words(rest)
  {
    WordsFirst(Show(n), rest);
    WordsSpace(SPACE, Show(n) + rest);
    assert [SPACE] + Show(n) + rest == [SPACE] + (Show(n) + rest);
  }

  lemma WordAlone(word: Bytes)
    requires word != [] && NoSpace(word)
    ensures Words([SPACE] + word) == [word] && Words([SPACE] + word + [NL]) == [word]
  {
    WordsFirst(word, []);
    assert word + [] == word;
    WordsSpace(SPACE, word);
    OneWord(word);
    WordsSpace(SPACE, word + [NL]);
    assert [SPACE] + word + [NL] == [SPACE] + (word + [NL]);
  }

  lemma CountedWords(n: nat, word: Bytes)
    requires NoSpace(word)
    ensures var words := if word == [] then [Show(n)] else [Show(n), word];
      Words(Counted(n, word)) == words && Words(Counted(n, word) + [NL]) == words
  {
    hide Show;
    var tail := if word == [] then [] else [SPACE] + word;
    if word == [] {
      WordsSpace(NL, []);
      assert [NL] == [NL] + [] && tail + [NL] == [NL];
    } else {
      WordAlone(word);
    }
    NumberFirst(n, tail);
    NumberFirst(n, tail + [NL]);
    assert Counted(n, word) + [NL] == [SPACE] + Show(n) + (tail + [NL]);
  }

  /** A download command that names a size needs one in range; one that names none
      gets the least size. */
  lemma DownloadSizes(n: nat, word: Bytes)
    requires n < U64 && NoSpace(word)
    ensures ParseCommand(GETCHUNKS + Counted(n, word) + [NL]) ==
      if word == [] then GetChunks(n, 4096) else if IsSize(word) then GetChunks(n, ParseU64(word).value) else Invalid
    ensures var line := GETTIME + Counted(n, word) + [NL]; !Contains(line, GETCHUNKS) ==>
      ParseCommand(line) ==
      if word == [] then GetTime(n, 4096) else if IsSize(word) then GetTime(n, ParseU64(word).value) else Invalid
  {
    hide ParseU64, B, Words, Show;
    Keywords();
    CountedWords(n, word);
    ParseShow(n);
    NoNewline(n, word);
    ChunksTail(Counted(n, word));
    TimeTail(Counted(n, word));
  }

  lemma NoNewline(n: nat, word: Bytes)
    requires NoSpace(word)
    ensures NL !in Counted(n, word)
  {
  }

  lemma ChunksTail(tail: Bytes)
    requires NL !in tail
    ensures ParseCommand(GETCHUNKS + tail + [NL]) == CountAndSize(Words(tail), true)
  {
    hide Words, CountAndSize;
    var line := GETCHUNKS + tail + [NL];
    assert At(line, GETCHUNKS, 0);
    assert line[..|line| - 1] == GETCHUNKS + tail && (GETCHUNKS + tail)[9..] == tail;
  }

  lemma TimeTail(tail: Bytes)
    ensures var line := GETTIME + tail + [NL]; !Contains(line, GETCHUNKS) ==>
      ParseCommand(line) == CountAndSize(Words(tail + [NL]), false)
  {
    hide Words, CountAndSize, Contains, B;
    Keywords();
    var line := GETTIME + tail + [NL];
    assert line[7..] == tail + [NL] && GETTIME <= line && line[0] == 71;
  }

  // ----- all lines

  /** Which lines are unknown, and which are pings: by their start, unless they hold
      GETCHUNKS. An unknown line is left in the buffer. */
  lemma UnknownLines(line: Bytes)
    requires line != []
    ensures ParseCommand(line).Ignored? <==>
      !Contains(line, GETCHUNKS) && !(PING <= line) && !(GETTIME <= line) && !(PUT <= line)
    ensures ParseCommand(line).Ping? <==> !Contains(line, GETCHUNKS) && PING <= line
  {
    hide Words, Contains, B, LastLine;
    Keywords();
    if GETTIME <= line {
      assert line[0] == 71;
    }
    if PUT <= line {
      assert line[0] == 80 && line[1] == 85;
    }
  }

  /** Further words: PUT and PUTNORESULT fail on them, PUTTIMERESULT does not look at them. */
  lemma ManyWords(line: Bytes)
    requires line != [] && !Contains(line, GETCHUNKS) && |Words(line)| > 2
    ensures PUTNORESULT <= line ==> ParseCommand(line) == Invalid
    ensures PUT <= line && |line| > 3 && IsSpace(line[3]) ==> ParseCommand(line) == Invalid
    ensures var word := Words(line)[1]; PUTTIMERESULT <= line ==>
      ParseCommand(line) == PutTimeResult(if IsSize(word) then ParseU64(word).value else 4096)
  {
    hide Words, Contains, B, ParseCommand, ParseU64;
    UploadLine(line);
  }

  /** GETTIME looks at two words: the first must be a number, the second, if there is
      one, a size in range; without a word it panics. */
  lemma TimeWords(line: Bytes)
    requires GETTIME <= line && !Contains(line, GETCHUNKS)
    ensures var ws := Words(line[7..]);
      && (ParseCommand(line).Panics? <==> ws == [])
      && (ParseCommand(line).GetTime? <==> ws != [] && ParseU64(ws[0]).Some? && (|ws| == 1 || IsSize(ws[1])))
      && (ParseCommand(line).Panics? || ParseCommand(line).GetTime? || ParseCommand(line).Invalid?)
  {
    hide Words, Contains, B, ParseU64;
    Keywords();
    assert line[0] == 71;
  }

  lemma {:induction false} LastLineIs(front: Bytes, last: Bytes)
    requires NL !in last && (front != [] ==> front[|front| - 1] == NL)
    ensures LastLine(front + last) == last
    decreases |front|
  {
    if front == [] {
      assert front + last == last;
    } else {
      assert (front + last)[|front| - 1] == NL;
      assert (front + last)[1..] == front[1..] + last;
      LastLineIs(front[1..], last);
    }
  }

  /** A text that holds GETCHUNKS anywhere is read by its last line, from the tenth byte
      on, whatever the first nine are. */
  lemma ChunksAnywhere(front: Bytes, nine: Bytes, n: nat, word: Bytes)
    requires n < U64 && NoSpace(word) && |nine| == 9 && NL !in nine && (front != [] ==> front[|front| - 1] == NL)
    ensures var line := front + nine + Counted(n, word) + [NL]; Contains(line, GETCHUNKS) ==>
      ParseCommand(line) ==
      if word == [] then GetChunks(n, 4096) else if IsSize(word) then GetChunks(n, ParseU64(word).value) else Invalid
  {
    hide ParseU64, B, Words, Show, Contains;
    var (line, last) := (front + nine + Counted(n, word) + [NL], nine + Counted(n, word));
    NoNewline(n, word);
    assert line[..|line| - 1] == front + last;
    LastLineIs(front, last);
    assert last[9..] == Counted(n, word);
    CountedWords(n, word);
    ParseShow(n);
  }

  /** A last line that is too short, or ends there, makes it panic. */
  lemma ShortLastLine(front: Bytes, last: Bytes)
    requires NL !in last && (front != [] ==> front[|front| - 1] == NL)
    ensures var line := front + last + [NL]; Contains(line, GETCHUNKS) ==>
      (ParseCommand(line).Panics? <==> |last| < 9 || Words(last[9..]) == [])
  {
    hide ParseU64, B, Words, Contains;
    var line := front + last + [NL];
    assert line[..|line| - 1] == front + last;
    LastLineIs(front, last);
  }

  // ----- the parser undoes the client's printers

  lemma ParsesGetChunks(n: nat, size: nat)
    requires n < U64 && InRange(size)
    ensures ParseCommand(ChunksLine(n, size)) == GetChunks(n, size)
  {
    hide ParseCommand, Show;
    assert B("GETCHUNKS ") == GETCHUNKS + [SPACE];
    assert ChunksLine(n, size) == GETCHUNKS + Counted(n, Show(size)) + [NL];
    DownloadSizes(n, Show(size));
    ParseShow(size);
  }

  lemma ParsesGetTime(seconds: nat, size: nat)
    requires seconds < U64 && InRange(size)
    ensures ParseCommand(TimeLine(seconds, size)) == GetTime(seconds, size)
  {
    hide ParseCommand, Show;
    NoChunksWithoutK(TimeLine(seconds, size));
    assert B("GETTIME ") == GETTIME + [SPACE];
    assert TimeLine(seconds, size) == GETTIME + Counted(seconds, Show(size)) + [NL];
    DownloadSizes(seconds, Show(size));
    ParseShow(size);
  }

  lemma ParsesPutTimeResult(size: nat)
    requires InRange(size)
    ensures ParseCommand(ResultLine(size)) == PutTimeResult(size)
  {
    hide ParseCommand, Show;
    NoChunksWithoutK(ResultLine(size));
    assert B("PUTTIMERESULT ") == PUTTIMERESULT + [SPACE];
    assert ResultLine(size) == Sized(PUTTIMERESULT, Show(size));
    UploadSizes(Show(size));
    ParseShow(size);
  }

  lemma ParsesPing()
    ensures ParseCommand(PING) == Ping
  {
    NoChunksWithoutK(PING);
  }
}
