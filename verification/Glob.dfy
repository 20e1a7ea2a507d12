/** Wildcard patterns as the indexer matches them: `*` is any text, `?` any one
    character, and every other character itself. */
module Glob {

  predicate Like(p: string, s: string)
    decreases |p| + |s|
  {
    if p == "" then s == ""
    else if p[0] == '*' then Like(p[1..], s) || (s != "" && Like(p, s[1..]))
    else s != "" && (p[0] == '?' || p[0] == s[0]) && Like(p[1..], s[1..])
  }

  predicate LikeParts(p: string, q: string, s: string, i: nat) {
    i <= |s| && Like(p, s[..i]) && Like(q, s[i..])
  }

  /** A concatenated pattern matches exactly the concatenated matches. */
  lemma {:induction false} LikeConcat(p: string, q: string, s: string)
    ensures Like(p + q, s) <==> exists i: nat :: LikeParts(p, q, s, i)
    decreases |p| + |s|
  {
    if p == "" {
      assert p + q == q;
      assert s[0..] == s;
      if Like(q, s) { assert LikeParts(p, q, s, 0); }
    } else {
      assert (p + q)[1..] == p[1..] + q;
      if p[0] == '*' {
        LikeConcat(p[1..], q, s);
        if s != "" { LikeConcat(p, q, s[1..]); }
        StarConcat(p, q, s);
      } else if s != "" {
        LikeConcat(p[1..], q, s[1..]);
        StepConcat(p, q, s);
      }
    }
  }

  lemma StarConcat(p: string, q: string, s: string)
    requires p != "" && p[0] == '*'
    ensures (exists i: nat :: LikeParts(p, q, s, i)) <==>
            (exists i: nat :: LikeParts(p[1..], q, s, i)) || (s != "" && exists i: nat :: LikeParts(p, q, s[1..], i))
  {
    forall i: nat | LikeParts(p, q, s, i)
      ensures LikeParts(p[1..], q, s, i) || (i > 0 && LikeParts(p, q, s[1..], i - 1))
    {
      if i > 0 { Shift(s, i - 1); }
    }
    forall i: nat | LikeParts(p[1..], q, s, i) ensures LikeParts(p, q, s, i) {
    }
    if s != "" {
      forall i: nat | LikeParts(p, q, s[1..], i) ensures LikeParts(p, q, s, i + 1) {
        Shift(s, i);
      }
    }
  }

  lemma StepConcat(p: string, q: string, s: string)
    requires p != "" && p[0] != '*' && s != ""
    ensures (exists i: nat :: LikeParts(p, q, s, i)) <==>
            (p[0] == '?' || p[0] == s[0]) && exists i: nat :: LikeParts(p[1..], q, s[1..], i)
  {
    forall i: nat | LikeParts(p, q, s, i)
      ensures i > 0 && (p[0] == '?' || p[0] == s[0]) && LikeParts(p[1..], q, s[1..], i - 1)
    {
      Shift(s, i - 1);
    }
    if p[0] == '?' || p[0] == s[0] {
      forall i: nat | LikeParts(p[1..], q, s[1..], i) ensures LikeParts(p, q, s, i + 1) {
        Shift(s, i);
      }
    }
  }

  lemma Shift(s: string, i: nat)
    requires i + 1 <= |s|
    ensures s[..i+1][1..] == s[1..][..i]
    ensures s[i+1..] == s[1..][i..]
  {
  }

  lemma {:induction false} StarMatchesAll(s: string)
    ensures Like("*", s)
  {
    if s != "" { StarMatchesAll(s[1..]); }
  }

  /** The text has a part that the pattern matches. */
  ghost predicate HasPart(p: string, s: string) {
    exists i: nat, j: nat :: i <= j <= |s| && Like(p, s[i..j])
  }

  ghost predicate HasPrefix(p: string, s: string) {
    exists j: nat :: j <= |s| && Like(p, s[..j])
  }

  ghost predicate HasSuffix(p: string, s: string) {
    exists i: nat :: i <= |s| && Like(p, s[i..])
  }

  lemma PrefixPattern(p: string, s: string)
    ensures Like(p + "*", s) <==> HasPrefix(p, s)
  {
    LikeConcat(p, "*", s);
    forall j: nat | j <= |s| && Like(p, s[..j]) ensures LikeParts(p, "*", s, j) {
      StarMatchesAll(s[j..]);
    }
  }

  lemma SuffixPattern(p: string, s: string)
    ensures Like("*" + p, s) <==> HasSuffix(p, s)
  {
    LikeConcat("*", p, s);
    forall i: nat | i <= |s| && Like(p, s[i..]) ensures LikeParts("*", p, s, i) {
      StarMatchesAll(s[..i]);
    }
  }

  lemma PartPattern(p: string, s: string)
    ensures Like("*" + p + "*", s) <==> HasPart(p, s)
  {
    PrefixPattern("*" + p, s);
    forall j: nat | j <= |s| ensures Like("*" + p, s[..j]) <==> HasSuffix(p, s[..j]) {
      SuffixPattern(p, s[..j]);
    }
    forall i: nat, j: nat | i <= j <= |s| ensures s[..j][i..] == s[i..j] {
    }
  }

  /** A pattern without wildcards matches only itself. */
  lemma {:induction false} PlainPattern(p: string, s: string)
    requires '*' !in p && '?' !in p
    ensures Like(p, s) <==> p == s
  {
    if p != "" {
      assert p[0] in p;
      if s != "" {
        forall c | c in p[1..] ensures c in p {}
        PlainPattern(p[1..], s[1..]);
        assert p == [p[0]] + p[1..] && s == [s[0]] + s[1..];
      }
    }
  }
}
