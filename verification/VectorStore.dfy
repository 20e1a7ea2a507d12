/** Splitting a text into overlapping chunks of words. */
module VectorStore {
  import opened Text

  /** `str.split()`: the maximal runs without white space. */
  function Words(s: string, word: string): seq<string> {
    if s == "" then (if word == "" then [] else [word])
    else if IsSpace(s[0]) then (if word == "" then [] else [word]) + Words(s[1..], "")
    else Words(s[1..], word + [s[0]])
  }

  predicate IsWord(w: string) {
    w != "" && forall i :: 0 <= i < |w| ==> !IsSpace(w[i])
  }

  /** The start of chunk k. */
  function StartOf(chunkSize: int, overlap: int, k: nat): int {
    k * (chunkSize - overlap)
  }

  /** The words of chunk k, cut at the end of the text. */
  function ChunkWords(words: seq<string>, chunkSize: int, overlap: int, k: nat): seq<string>
    requires 0 <= StartOf(chunkSize, overlap, k) <= |words| && chunkSize >= 0
  {
    var s := StartOf(chunkSize, overlap, k);
    words[s..if s + chunkSize <= |words| then s + chunkSize else |words|]
  }

  /** Every chunk is its window of the words, and the windows reach the end. */
  ghost predicate AreChunks(words: seq<string>, chunks: seq<string>, chunkSize: int, overlap: int)
    requires 0 <= overlap < chunkSize
  {
    var step := chunkSize - overlap;
    && |chunks| * step >= |words| && (chunks != [] ==> (|chunks| - 1) * step < |words|)
    && AreWindows(words, chunks, chunkSize, overlap)
  }

  ghost predicate AreWindows(words: seq<string>, chunks: seq<string>, chunkSize: int, overlap: int)
    requires 0 <= overlap < chunkSize
  {
    forall k :: 0 <= k < |chunks| ==>
      && 0 <= StartOf(chunkSize, overlap, k) < |words|
      && chunks[k] == Join(ChunkWords(words, chunkSize, overlap, k), " ")
  }

  /** The chunks of a text: one for every step of its words, rounded up, and
      together the text. */
  method ChunkText(text: string, chunkSize: int, overlap: int) returns (chunks: seq<string>)
    requires 0 <= overlap < chunkSize
    ensures AreChunks(Words(text, ""), chunks, chunkSize, overlap)
    ensures |chunks| == (|Words(text, "")| + (chunkSize - overlap) - 1) / (chunkSize - overlap)
    ensures Rebuilt(chunks, overlap, |chunks|) == Words(text, "")
  {
    hide Words, Rebuilt, Join, IsSpace, StartOf, ChunkWords;
    chunks := Chunks(text, chunkSize, overlap);
    ChunkCountIsCeiling(|Words(text, "")|, chunkSize - overlap, |chunks|);
    ChunksKeepTheText(text, chunks, chunkSize, overlap);
  }

  /** The windowing loop of `chunk_and_ingest`. */
  method Chunks(text: string, chunkSize: int, overlap: int) returns (chunks: seq<string>)
    requires 0 <= overlap < chunkSize
    ensures AreChunks(Words(text, ""), chunks, chunkSize, overlap)
  {
    hide Join, IsSpace;
    var words := Words(text, "");
    chunks := [];
    var start := 0;
    while start < |words|
      invariant start == StartOf(chunkSize, overlap, |chunks|) && start >= 0
      invariant chunks != [] ==> StartOf(chunkSize, overlap, |chunks| - 1) < |words|
      invariant forall k :: 0 <= k < |chunks| ==>
                  && 0 <= StartOf(chunkSize, overlap, k) < |words|
                  && chunks[k] == Join(ChunkWords(words, chunkSize, overlap, k), " ")
      decreases |words| - start
    {
      var end := start + chunkSize;
      var chunk := Join(words[start..if end <= |words| then end else |words|], " ");
      NextStart(chunkSize, overlap, |chunks|);
      chunks := chunks + [chunk];
      start := end - overlap;
    }
  }

  lemma NextStart(chunkSize: int, overlap: int, k: nat)
    ensures StartOf(chunkSize, overlap, k + 1) == StartOf(chunkSize, overlap, k) + chunkSize - overlap
  {
  }

  /** The number of chunks is the length over the step, rounded up. */
  lemma ChunkCountIsCeiling(n: nat, step: int, count: nat)
    requires step > 0 && count * step >= n && (count > 0 ==> (count - 1) * step < n) && (count == 0 ==> n == 0)
    ensures count == (n + step - 1) / step
  {
    var q := (n + step - 1) / step;
    var r := (n + step - 1) % step;
    assert n + step - 1 == q * step + r;
    assert (q - 1) * step == q * step - step;
    assert q < count ==> q * step <= (count - 1) * step by { if q < count { MulAtMost(q, count - 1, step); } }
    assert count < q ==> count * step <= (q - 1) * step by { if count < q { MulAtMost(count, q - 1, step); } }
  }

  lemma MulAtMost(a: int, b: int, c: int)
    requires a <= b && c >= 0
    ensures a * c <= b * c
  {
  }

  /** The loop never ends when the overlap is not smaller than the chunk: on a
      text with words, its guard holds at every turn exactly then. */
  lemma ChunkingEndsExactlyWhen(n: nat, chunkSize: int, overlap: int)
    requires n > 0
    ensures (forall k: nat :: StartOf(chunkSize, overlap, k) < n) <==> chunkSize <= overlap
  {
    var step := chunkSize - overlap;
    if step <= 0 {
      forall k: nat ensures StartOf(chunkSize, overlap, k) < n {
        MulAtMost(0, k, -step);
        assert k * step == -(k * -step);
      }
    } else {
      MulAtMost(1, step, n);
      assert StartOf(chunkSize, overlap, n) >= n;
    }
  }

  // ---- Reading the words back ---------------------------------------------------

  lemma {:induction false} WordsAfter(w: string, word: string, rest: string)
    requires forall i :: 0 <= i < |w| ==> !IsSpace(w[i])
    ensures Words(w + rest, word) == Words(rest, word + w)
  {
    if w == "" {
      assert w + rest == rest && word + w == word;
    } else {
      assert (w + rest)[1..] == w[1..] + rest;
      WordsAfter(w[1..], word + [w[0]], rest);
      assert word + [w[0]] + w[1..] == word + w;
    }
  }

  /** White space separates words, a text without any is one word, and an empty one has
      none. */
  lemma {:induction false} WordsAtSpace(u: string, word: string, c: char, v: string)
    requires c in {' ', '\t', '\n', '\r', '\U{0b}', '\U{0c}'}
    ensures Words(u + [c] + v, word) == Words(u, word) + Words(v, "")
  {
    if u == "" {
      assert u + [c] + v == [c] + v && ([c] + v)[1..] == v;
      assert WHITESPACE[0] == ' ' && WHITESPACE[1] == '\t' && WHITESPACE[2] == '\n' && WHITESPACE[3] == '\r'
             && WHITESPACE[4] == '\U{0b}' && WHITESPACE[5] == '\U{0c}';
    } else {
      assert (u + [c] + v)[1..] == u[1..] + [c] + v;
      if IsSpace(u[0]) {
        WordsAtSpace(u[1..], "", c, v);
      } else {
        WordsAtSpace(u[1..], word + [u[0]], c, v);
      }
    }
  }

  lemma OneWord(w: string)
    requires forall i :: 0 <= i < |w| ==> w[i] !in {' ', '\t', '\n', '\r', '\U{0b}', '\U{0c}'}
    ensures Words(w, "") == if w == "" then [] else [w]
  {
    WordsAfter(w, "", "");
    assert w + "" == w && "" + w == w;
  }

  /** Splitting at white space undoes joining with blanks. */
  lemma {:induction false} WordsOfJoin(words: seq<string>)
    requires forall i :: 0 <= i < |words| ==> IsWord(words[i])
    ensures Words(Join(words, " "), "") == words
  {
    if |words| == 1 {
      WordsAfter(words[0], "", "");
      assert words[0] + "" == words[0] && "" + words[0] == words[0];
    } else if |words| > 1 {
      var rest := Join(words[1..], " ");
      WordsOfJoin(words[1..]);
      WordsAfter(words[0], "", " " + rest);
      assert Join(words, " ") == words[0] + (" " + rest);
      assert (" " + rest)[1..] == rest;
      assert "" + words[0] == words[0];
      BlankEnds(words[0], rest);
    }
  }

  lemma BlankEnds(word: string, rest: string)
    requires word != ""
    ensures Words(" " + rest, word) == [word] + Words(rest, "")
  {
    assert (" " + rest)[1..] == rest;
    assert (" " + rest)[0] == WHITESPACE[0];
  }

  lemma {:induction false} WordsAreWords(s: string, word: string)
    requires forall i :: 0 <= i < |word| ==> !IsSpace(word[i])
    ensures forall i :: 0 <= i < |Words(s, word)| ==> IsWord(Words(s, word)[i])
  {
    if s != "" {
      if IsSpace(s[0]) {
        WordsAreWords(s[1..], "");
      } else {
        WordsAreWords(s[1..], word + [s[0]]);
      }
    }
  }

  /** A later chunk without its first `overlap` words: nothing, if it is shorter. */
  function Fresh(chunk: seq<string>, overlap: nat): seq<string> {
    if |chunk| <= overlap then [] else chunk[overlap..]
  }

  /** The words of the first n chunks, each but the first without its overlap. */
  function Rebuilt(chunks: seq<string>, overlap: nat, n: nat): seq<string>
    requires n <= |chunks|
  {
    if n == 0 then []
    else if n == 1 then Words(chunks[0], "")
    else Rebuilt(chunks, overlap, n - 1) + Fresh(Words(chunks[n-1], ""), overlap)
  }

  /** How much of the text the first n chunks cover. */
  function Covered(length: nat, chunkSize: int, overlap: int, n: nat): int {
    if n == 0 then 0
    else
      var end := StartOf(chunkSize, overlap, n - 1) + chunkSize;
      if end <= length then end else length
  }

  lemma {:induction false} RebuiltIsPrefix(words: seq<string>, chunks: seq<string>, chunkSize: int, overlap: int,
                                           n: nat)
    requires 0 <= overlap < chunkSize && n <= |chunks|
    requires AreWords(words) && AreWindows(words, chunks, chunkSize, overlap)
    ensures 0 <= Covered(|words|, chunkSize, overlap, n) <= |words|
    ensures Rebuilt(chunks, overlap, n) == words[..Covered(|words|, chunkSize, overlap, n)]
  {
    hide Join, AreWords, AreWindows, Words, Fresh, StartOf;
    if n > 0 {
      var k := n - 1;
      RebuiltIsPrefix(words, chunks, chunkSize, overlap, k);
      WindowWords(words, chunks, chunkSize, overlap, k);
      var chunk := ChunkWords(words, chunkSize, overlap, k);
      FirstStart(chunkSize, overlap);
      if k > 0 {
        WindowWords(words, chunks, chunkSize, overlap, k - 1);
        NextStart(chunkSize, overlap, k - 1);
        var (s, before) := (StartOf(chunkSize, overlap, k), Covered(|words|, chunkSize, overlap, k));
        Extend(words, s, s + |chunk|, before, overlap);
      }
    }
  }

  predicate AreWords(words: seq<string>) {
    forall i :: 0 <= i < |words| ==> IsWord(words[i])
  }

  /** Splitting chunk k gives back its window. */
  lemma WindowWords(words: seq<string>, chunks: seq<string>, chunkSize: int, overlap: int, k: nat)
    requires 0 <= overlap < chunkSize && k < |chunks|
    requires AreWords(words) && AreWindows(words, chunks, chunkSize, overlap)
    ensures 0 <= StartOf(chunkSize, overlap, k) < |words|
    ensures Words(chunks[k], "") == ChunkWords(words, chunkSize, overlap, k)
  {
    hide Join, IsWord, Words, StartOf;
    WordsOfJoin(ChunkWords(words, chunkSize, overlap, k));
  }

  lemma FirstStart(chunkSize: int, overlap: int)
    ensures StartOf(chunkSize, overlap, 0) == 0
  {
  }

  /** A window that starts `overlap` words before what is covered adds what it
      has beyond. */
  lemma Extend(words: seq<string>, s: int, e: int, covered: int, overlap: nat)
    requires 0 <= s <= e <= |words| && 0 <= covered <= |words|
    requires covered == (if s + overlap <= |words| then s + overlap else |words|)
    ensures words[..covered] + Fresh(words[s..e], overlap) == words[..if e > covered then e else covered]
  {
    if e - s > overlap {
      assert words[s..e][overlap..] == words[covered..e];
      assert words[..covered] + words[covered..e] == words[..e];
    } else {
      assert words[..covered] + [] == words[..covered];
    }
  }

  /** Main result: the first chunk followed by every later chunk without its
      first `overlap` words is the text, word for word. */
  lemma ChunksKeepTheText(text: string, chunks: seq<string>, chunkSize: int, overlap: int)
    requires 0 <= overlap < chunkSize
    requires AreChunks(Words(text, ""), chunks, chunkSize, overlap)
    ensures Rebuilt(chunks, overlap, |chunks|) == Words(text, "")
  {
    hide Join, IsSpace, Rebuilt, AreWindows;
    var words := Words(text, "");
    WordsAreWords(text, "");
    RebuiltIsPrefix(words, chunks, chunkSize, overlap, |chunks|);
    if |chunks| > 0 {
      NextStart(chunkSize, overlap, |chunks| - 1);
      assert StartOf(chunkSize, overlap, |chunks|) >= |words|;
    }
    assert words[..|words|] == words;
  }
}
