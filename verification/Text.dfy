/** The Python string operations the modelled code uses.  Case folding is
    ASCII, and white space is the ASCII white space characters. */
module Text {
  import opened Wrappers

  const WHITESPACE := " \t\n\r\U{0b}\U{0c}"

  predicate IsSpace(c: char) {
    c in WHITESPACE
  }

  function LStrip(s: string): (r: string)
    ensures |r| <= |s|
    ensures r != "" ==> !IsSpace(r[0])
  {
    if s != "" && IsSpace(s[0]) then LStrip(s[1..]) else s
  }

  function RStrip(s: string): (r: string)
    ensures |r| <= |s|
    ensures r <= s
    ensures r != "" ==> !IsSpace(r[|r|-1])
  {
    if s != "" && IsSpace(s[|s|-1]) then RStrip(s[..|s|-1]) else s
  }

  function Strip(s: string): (r: string)
    ensures |r| <= |s|
    ensures r != "" ==> !IsSpace(r[0]) && !IsSpace(r[|r|-1])
  {
    RStrip(LStrip(s))
  }

  function LowerChar(c: char): char {
    if 'A' <= c <= 'Z' then c - 'A' + 'a' else c
  }

  function Lower(s: string): (r: string)
    ensures |r| == |s|
    ensures forall i :: 0 <= i < |s| ==> r[i] == LowerChar(s[i])
  {
    if s == "" then "" else [LowerChar(s[0])] + Lower(s[1..])
  }

  /** Where `sep` first occurs in `s`. */
  function Find(s: string, sep: string): (r: Option<nat>)
    ensures r.Some? ==> r.value + |sep| <= |s| && s[r.value..][..|sep|] == sep
    ensures r.Some? ==> forall i :: 0 <= i < r.value ==> !(sep <= s[i..])
    ensures r.None? ==> forall i :: 0 <= i <= |s| ==> !(sep <= s[i..])
  {
    if sep <= s then Some(0)
    else if s == "" then None
    else
      TailsShift(s);
      match Find(s[1..], sep)
      case None => None
      case Some(i) => Some(i + 1)
  }

  lemma TailsShift(s: string)
    requires s != ""
    ensures forall i :: 1 <= i <= |s| ==> s[i..] == s[1..][i-1..]
  {
  }

  predicate Contains(s: string, sep: string) {
    Find(s, sep).Some?
  }

  function Split(s: string, sep: string): (parts: seq<string>)
    requires sep != ""
    ensures |parts| >= 1
    ensures forall p <- parts :: |p| <= |s|
    ensures Contains(s, sep) ==> forall p <- parts :: |p| < |s|
    decreases |s|
  {
    match Find(s, sep)
    case None => [s]
    case Some(i) => [s[..i]] + Split(s[i + |sep|..], sep)
  }

  function Join(parts: seq<string>, sep: string): string {
    if parts == [] then ""
    else if |parts| == 1 then parts[0]
    else parts[0] + sep + Join(parts[1..], sep)
  }

  // ---- Splitting ---------------------------------------------------------------

  /** Reading `p` and then `sep`, the first `sep` is that one. */
  predicate FreeOf(p: string, sep: string) {
    Find(p + sep, sep) == Some(|p|)
  }

  /** No occurrence starts before `n`. */
  ghost predicate NoneBefore(s: string, sep: string, n: nat) {
    forall i :: 0 <= i < n && i <= |s| ==> !(sep <= s[i..])
  }

  lemma FindIs(s: string, sep: string, n: nat)
    requires n <= |s| && sep <= s[n..]
    requires NoneBefore(s, sep, n)
    ensures Find(s, sep) == Some(n)
  {
    hide Find;
    var r := Find(s, sep);
    assert r.Some? ==> sep <= s[r.value..];
  }

  lemma SameWindow(a: string, i: nat, b: string, j: nat, sep: string)
    requires i + |sep| <= |a| && j + |sep| <= |b| && a[i..i+|sep|] == b[j..j+|sep|]
    ensures sep <= a[i..] <==> sep <= b[j..]
  {
    assert a[i..][..|sep|] == a[i..i+|sep|] == b[j..j+|sep|] == b[j..][..|sep|];
  }

  lemma FindAfter(p: string, sep: string, rest: string)
    requires sep != "" && FreeOf(p, sep)
    ensures Find(p + sep + rest, sep) == Some(|p|)
  {
    var (s, t) := (p + sep + rest, p + sep);
    forall i | 0 <= i < |p| ensures !(sep <= s[i..]) {
      assert s == t + rest;
      SameWindow(s, i, t, i, sep);
    }
    assert s[|p|..] == sep + rest;
    FindIs(s, sep, |p|);
  }

  lemma FreeHasNone(p: string, sep: string)
    requires sep != "" && FreeOf(p, sep)
    ensures !Contains(p, sep)
  {
    var r := Find(p, sep);
    if r.Some? {
      SameWindow(p, r.value, p + sep, r.value, sep);
    }
  }

  lemma {:induction false} SplitAt(s: string, sep: string, i: nat)
    requires sep != "" && Find(s, sep) == Some(i)
    ensures Split(s, sep) == [s[..i]] + Split(s[i + |sep|..], sep)
  {
    hide Find;
  }

  lemma SplitNowhere(s: string, sep: string)
    requires sep != "" && !Contains(s, sep)
    ensures Split(s, sep) == [s]
  {
  }

  /** Splitting undoes joining. */
  lemma {:induction false} SplitJoin(parts: seq<string>, sep: string)
    requires sep != "" && parts != []
    requires forall i :: 0 <= i < |parts| ==> FreeOf(parts[i], sep)
    ensures Split(Join(parts, sep), sep) == parts
    ensures Contains(Join(parts, sep), sep) <==> |parts| > 1
  {
    hide Find, FreeOf, Split;
    if |parts| == 1 {
      FreeHasNone(parts[0], sep);
      SplitNowhere(parts[0], sep);
      assert parts == [parts[0]];
    } else {
      var rest := Join(parts[1..], sep);
      FindAfter(parts[0], sep, rest);
      SplitJoin(parts[1..], sep);
      var s := parts[0] + sep + rest;
      SplitAt(s, sep, |parts[0]|);
      assert s[..|parts[0]|] == parts[0];
      assert s[|parts[0]| + |sep|..] == rest;
      assert parts == [parts[0]] + parts[1..];
    }
  }

  lemma CharIsFree(p: string, c: char)
    requires c !in p
    ensures FreeOf(p, [c])
  {
    var t := p + [c];
    forall i | 0 <= i < |p| ensures !([c] <= t[i..]) {
      assert t[i..][0] == p[i] && p[i] in p;
    }
    assert t[|p|..] == [c];
    FindIs(t, [c], |p|);
  }

  lemma JoinOfOne(part: string, sep: string)
    ensures Join([part], sep) == part
  {
  }

  // ---- What the operations do ---------------------------------------------------

  /** Stripping cuts white space off both ends and nothing else. */
  lemma {:induction false} StripCuts(s: string) returns (i: nat, j: nat)
    ensures i <= j <= |s| && Strip(s) == s[i..j]
    ensures forall k :: 0 <= k < i || j <= k < |s| ==> s[k] in {' ', '\t', '\n', '\r', '\U{0b}', '\U{0c}'}
    ensures i < j ==> s[i] !in WHITESPACE && s[j-1] !in WHITESPACE
  {
    i := LStripCuts(s);
    var t := s[i..];
    var n := RStripCuts(t);
    j := i + n;
  }

  lemma {:induction false} LStripCuts(s: string) returns (i: nat)
    ensures i <= |s| && LStrip(s) == s[i..]
    ensures forall k :: 0 <= k < i ==> IsSpace(s[k])
  {
    if s != "" && IsSpace(s[0]) {
      var n := LStripCuts(s[1..]);
      i := n + 1;
      forall k | 0 <= k < i ensures IsSpace(s[k]) {
        assert k > 0 ==> s[k] == s[1..][k-1];
      }
    } else {
      i := 0;
    }
  }

  lemma {:induction false} RStripCuts(s: string) returns (j: nat)
    ensures j <= |s| && RStrip(s) == s[..j]
    ensures forall k :: j <= k < |s| ==> IsSpace(s[k])
  {
    if s != "" && IsSpace(s[|s|-1]) {
      j := RStripCuts(s[..|s|-1]);
      assert s[..|s|-1][..j] == s[..j];
    } else {
      j := |s|;
    }
  }

  /** Lower case folds the ASCII letters and nothing else. */
  lemma LowerFolds(s: string, i: nat)
    requires i < |s|
    ensures |Lower(s)| == |s|
    ensures 'A' <= s[i] <= 'Z' ==> Lower(s)[i] as int == s[i] as int + 32
    ensures !('A' <= s[i] <= 'Z') ==> Lower(s)[i] == s[i]
  {
  }

  /** A text contains another exactly when it has it somewhere. */
  lemma ContainsSomewhere(s: string, part: string)
    ensures Contains(s, part) <==> exists i, j :: 0 <= i <= j <= |s| && s[i..j] == part
  {
    var r := Find(s, part);
    if r.Some? {
      assert s[r.value..r.value+|part|] == s[r.value..][..|part|];
    }
    if i, j :| 0 <= i <= j <= |s| && s[i..j] == part {
      assert s[i..][..|part|] == part;
    }
  }

  lemma StripKeeps(s: string)
    requires s != "" ==> !IsSpace(s[0]) && !IsSpace(s[|s|-1])
    ensures Strip(s) == s
  {
  }
}
