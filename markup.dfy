/**
 * The markup stripping that the ingestion scraper applies to the rendered
 * page body: `replace(/<[^>]*>?/gm, '')`. Scanning left to right, every `<`
 * starts a match that greedily takes every following character other than
 * `>` and then one `>` if there is one; each match is deleted and all other
 * characters are kept. A `<` with no later `>` therefore deletes the rest of
 * the text. The `m` flag has no effect because the pattern has no anchors.
 */
module Markup {
  import opened Seqs

  /** What is left after the tag whose `<` came just before `s`: the text after the first `>`, or nothing. */
  function SkipTag(s: string): (r: string)
    ensures |r| <= |s| && r == s[|s| - |r|..]
  {
    if s == [] then [] else if s[0] == '>' then s[1..] else SkipTag(s[1..])
  }

  /** The text with every match of `<[^>]*>?` removed. */
  function StripTags(s: string): (r: string)
    ensures |r| <= |s|
    decreases |s|
  {
    if s == [] then []
    else if s[0] == '<' then StripTags(SkipTag(s[1..]))
    else [s[0]] + StripTags(s[1..])
  }

  /** The stripped text contains no `<`. */
  lemma {:induction false} StripTagsHasNoOpen(s: string)
    ensures '<' !in StripTags(s)
    decreases |s|
  {
    if s != [] {
      if s[0] == '<' {
        StripTagsHasNoOpen(SkipTag(s[1..]));
      } else {
        StripTagsHasNoOpen(s[1..]);
      }
    }
  }

  /** A prefix without `<` is kept as it is. */
  lemma {:induction false} StripTagsPlainPrefix(p: string, rest: string)
    requires '<' !in p
    ensures StripTags(p + rest) == p + StripTags(rest)
    decreases |p|
  {
    if p != [] {
      assert (p + rest)[0] == p[0] && (p + rest)[1..] == p[1..] + rest;
      StripTagsPlainPrefix(p[1..], rest);
      assert [p[0]] + p[1..] == p;
    } else {
      assert p + rest == rest;
    }
  }

  /** Text without `<` is returned unchanged. */
  lemma {:induction false} StripTagsPlain(s: string)
    requires '<' !in s
    ensures StripTags(s) == s
  {
    StripTagsPlainPrefix(s, []);
    assert s + [] == s;
  }

  /** Stripping twice is the same as stripping once. */
  lemma {:induction false} StripTagsIdempotent(s: string)
    ensures StripTags(StripTags(s)) == StripTags(s)
  {
    StripTagsHasNoOpen(s);
    StripTagsPlain(StripTags(s));
  }

  /** The stripped text is the input with some characters deleted, in the original order. */
  lemma {:induction false} StripTagsIsSubsequence(s: string)
    ensures IsSubsequence(StripTags(s), s)
    decreases |s|
  {
    if s != [] {
      if s[0] == '<' {
        var t := SkipTag(s[1..]);
        StripTagsIsSubsequence(t);
        assert t == s[|s| - |t|..];
        SubsequenceOfSuffix(StripTags(t), s, |s| - |t|);
      } else {
        StripTagsIsSubsequence(s[1..]);
        assert StripTags(s)[0] == s[0] && StripTags(s)[1..] == StripTags(s[1..]);
      }
    }
  }

  lemma {:induction false} SkipTagUnclosed(q: string)
    requires '>' !in q
    ensures SkipTag(q) == []
    decreases |q|
  {
    if q != [] {
      SkipTagUnclosed(q[1..]);
    }
  }

  lemma {:induction false} SkipTagClosed(t: string, rest: string)
    requires '>' !in t
    ensures SkipTag(t + ">" + rest) == rest
    decreases |t|
  {
    if t == [] {
      assert t + ">" + rest == ">" + rest;
    } else {
      assert (t + ">" + rest)[1..] == t[1..] + ">" + rest;
      SkipTagClosed(t[1..], rest);
    }
  }

  /** A `<` that is never closed deletes everything from it to the end. */
  lemma StripTagsUnclosed(p: string, q: string)
    requires '<' !in p && '>' !in q
    ensures StripTags(p + "<" + q) == p
  {
    StripTagsPlainPrefix(p, "<" + q);
    assert p + "<" + q == p + ("<" + q);
    assert ("<" + q)[1..] == q;
    SkipTagUnclosed(q);
  }

  /** A closed tag is deleted with its brackets and the text after it is stripped in turn. */
  lemma StripTagsClosed(p: string, t: string, rest: string)
    requires '<' !in p && '>' !in t
    ensures StripTags(p + "<" + t + ">" + rest) == p + StripTags(rest)
  {
    var tag := "<" + t + ">" + rest;
    assert p + "<" + t + ">" + rest == p + tag;
    StripTagsPlainPrefix(p, tag);
    assert tag[1..] == t + ">" + rest;
    SkipTagClosed(t, rest);
  }
}
