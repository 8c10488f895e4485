/** `parse_links` of retriever.py: every match of the regular expression
    `https://\S+`, scanned left to right the way `re.findall` does, greedy and
    non-overlapping. */
module Retriever {
  import opened Strings

  const SCHEME := "https://"

  /** A match of `https://\S+` starts at the head of `s`: the scheme followed by
      at least one non-whitespace character. */
  predicate StartsLink(s: string) {
    |s| > |SCHEME| && s[..|SCHEME|] == SCHEME && !IsSpace(s[|SCHEME|])
  }

  /** Length of the longest whitespace-free prefix of `s`: how far the greedy
      `\S+` runs. */
  function RunLength(s: string): (n: nat)
    ensures n <= |s|
    ensures forall k :: 0 <= k < n ==> !IsSpace(s[k])
    ensures n < |s| ==> IsSpace(s[n])
  {
    if s == [] || IsSpace(s[0]) then 0 else 1 + RunLength(s[1..])
  }

  /** The first nine characters of a link are free of whitespace, so the greedy
      run covers at least the scheme and one more character. */
  lemma LinkHead(s: string)
    requires StartsLink(s)
    ensures s[0] == 'h' && NoSpace(s[..|SCHEME| + 1])
    ensures RunLength(s) > |SCHEME|
  {
    var head := s[..|SCHEME| + 1];
    assert head == SCHEME + [s[|SCHEME|]];
    SchemeHasNoSpace();
    assert s[0] == head[0] == SCHEME[0];
  }

  lemma SchemeHasNoSpace()
    ensures NoSpace(SCHEME)
  {
    forall k | 0 <= k < |SCHEME| ensures !IsSpace(SCHEME[k]) {
      PrintableNotSpace(SCHEME[k]);
    }
  }

  /** The links found in `content`, in order, duplicates included. */
  function ParseLinks(content: string): (links: seq<string>)
    ensures forall i :: 0 <= i < |links| ==> StartsLink(links[i]) && NoSpace(links[i])
    decreases |content|
  {
    if content == [] then []
    else if StartsLink(content) then
      LinkHead(content);
      var n := RunLength(content);
      assert content[..n][..|SCHEME|] == content[..|SCHEME|];
      [content[..n]] + ParseLinks(content[n..])
    else ParseLinks(content[1..])
  }

  function Shift(p: seq<nat>, d: nat): (r: seq<nat>)
    ensures |r| == |p|
    ensures forall i :: 0 <= i < |p| ==> r[i] == p[i] + d
  {
    seq(|p|, i requires 0 <= i < |p| => p[i] + d)
  }

  /** The positions in `content` at which the links of `ParseLinks(content)` start. */
  function MatchStarts(content: string): (p: seq<nat>)
    ensures |p| == |ParseLinks(content)|
    decreases |content|
  {
    if content == [] then []
    else if StartsLink(content) then
      var n := RunLength(content);
      LinkHead(content);
      [0] + Shift(MatchStarts(content[n..]), n)
    else Shift(MatchStarts(content[1..]), 1)
  }

  /** `link` occurs in `s` at position `p` and cannot be extended: it is followed
      by whitespace or by the end of `s`. */
  predicate MaximalAt(s: string, p: nat, link: string) {
    p + |link| <= |s| && s[p..p + |link|] == link
    && (p + |link| == |s| || IsSpace(s[p + |link|]))
  }

  lemma MaximalAtShift(s: string, d: nat, p: nat, link: string)
    requires d <= |s| && MaximalAt(s[d..], p, link)
    ensures MaximalAt(s, p + d, link)
  {
    assert s[d..][p..p + |link|] == s[p + d..p + d + |link|];
  }

  /** `links` and their start positions `p` describe matches in `content`:
      each link is the text at its position and is maximal there, each
      position starts a link, and the matches come at strictly increasing,
      non-overlapping positions. */
  ghost predicate MatchesIn(content: string, links: seq<string>, p: seq<nat>) {
    && |p| == |links|
    && (forall i :: 0 <= i < |links| ==> MaximalAt(content, p[i], links[i]))
    && (forall i :: 0 <= i < |links| ==> StartsLink(content[p[i]..]))
    && (forall i :: 0 < i < |links| ==> p[i - 1] + |links[i - 1]| < p[i])
  }

  /** The links are found in `content`, maximal, in order and without overlap. */
  lemma {:induction false} LinksAreMatches(content: string)
    ensures MatchesIn(content, ParseLinks(content), MatchStarts(content))
    decreases |content|
  {
    if content == [] {
    } else if StartsLink(content) {
      LinkHead(content);
      var n := RunLength(content);
      LinksAreMatches(content[n..]);
      MatchesAfterLink(content, n, ParseLinks(content[n..]), MatchStarts(content[n..]));
    } else {
      LinksAreMatches(content[1..]);
      MatchesAfterOther(content, ParseLinks(content[1..]), MatchStarts(content[1..]));
    }
  }

  lemma MatchesAfterLink(content: string, n: nat, links': seq<string>, p': seq<nat>)
    requires StartsLink(content) && n == RunLength(content)
    requires MatchesIn(content[n..], links', p')
    ensures MatchesIn(content, [content[..n]] + links', [0] + Shift(p', n))
  {
    var rest := content[n..];
    var links, p := [content[..n]] + links', [0] + Shift(p', n);
    AfterLinkTail(content, n, links, p, links', p');
    assert links[0] == content[..n] && p[0] == 0;
    forall i | 0 <= i < |links|
      ensures MaximalAt(content, p[i], links[i]) && StartsLink(content[p[i]..])
    {
      if i == 0 {
        HeadMatch(content, n);
      }
    }
    if |links'| > 0 {
      AfterLinkGap(rest, p'[0]);
      assert p[0] + |links[0]| < p[1];
    }
  }

  lemma AfterLinkTail(content: string, n: nat, links: seq<string>, p: seq<nat>, links': seq<string>, p': seq<nat>)
    requires n <= |content|
    requires MatchesIn(content[n..], links', p')
    requires |links| == |p| == |links'| + 1
    requires forall i :: 0 < i < |links| ==> links[i] == links'[i - 1] && p[i] == p'[i - 1] + n
    ensures forall i :: 0 < i < |links| ==> MaximalAt(content, p[i], links[i]) && StartsLink(content[p[i]..])
    ensures forall i :: 1 < i < |links| ==> p[i - 1] + |links[i - 1]| < p[i]
  {
    var rest := content[n..];
    forall i | 0 < i < |links| ensures MaximalAt(content, p[i], links[i]) && StartsLink(content[p[i]..]) {
      MaximalAtShift(content, n, p'[i - 1], links'[i - 1]);
      assert content[p[i]..] == rest[p'[i - 1]..];
    }
    forall i | 1 < i < |links| ensures p[i - 1] + |links[i - 1]| < p[i] {
      assert p'[i - 2] + |links'[i - 2]| < p'[i - 1];
    }
  }

  /** The match after a link starts beyond the whitespace that ended it. */
  lemma AfterLinkGap(rest: string, q: nat)
    requires q < |rest| && StartsLink(rest[q..])
    requires rest != [] ==> IsSpace(rest[0])
    ensures q > 0
  {
    LinkHead(rest[q..]);
    assert rest[q] == 'h';
  }

  lemma HeadMatch(content: string, n: nat)
    requires StartsLink(content) && n == RunLength(content)
    ensures MaximalAt(content, 0, content[..n]) && StartsLink(content[0..])
  {
    assert content[0..] == content;
  }

  lemma MatchesAfterOther(content: string, links': seq<string>, p': seq<nat>)
    requires content != []
    requires MatchesIn(content[1..], links', p')
    ensures MatchesIn(content, links', Shift(p', 1))
  {
    var rest := content[1..];
    forall i | 0 <= i < |links'| ensures MaximalAt(content, p'[i] + 1, links'[i]) {
      MaximalAtShift(content, 1, p'[i], links'[i]);
    }
    forall i | 0 <= i < |links'| ensures StartsLink(content[p'[i] + 1..]) {
      assert content[p'[i] + 1..] == rest[p'[i]..];
    }
  }

  /** Position `q` lies inside the `i`-th match. */
  ghost predicate Inside(links: seq<string>, p: seq<nat>, i: int, q: nat) {
    0 <= i < |links| && i < |p| && p[i] <= q < p[i] + |links[i]|
  }

  /** No link is missed: every position at which a link starts lies inside one
      of the returned matches. */
  lemma {:induction false} NoLinkMissed(content: string, q: nat)
    requires q < |content| && StartsLink(content[q..])
    ensures exists i :: Inside(ParseLinks(content), MatchStarts(content), i, q)
    decreases |content|
  {
    if StartsLink(content) {
      LinkHead(content);
      var n := RunLength(content);
      if q < n {
        assert Inside(ParseLinks(content), MatchStarts(content), 0, q);
      } else {
        var rest := content[n..];
        assert rest[q - n..] == content[q..];
        NoLinkMissed(rest, q - n);
        var i :| Inside(ParseLinks(rest), MatchStarts(rest), i, q - n);
        MissedAfterLink(content, n, q, i);
      }
    } else {
      assert q != 0;
      var rest := content[1..];
      assert rest[q - 1..] == content[q..];
      NoLinkMissed(rest, q - 1);
      var i :| Inside(ParseLinks(rest), MatchStarts(rest), i, q - 1);
      MissedAfterOther(content, q, i);
    }
  }

  lemma MissedAfterLink(content: string, n: nat, q: nat, i: int)
    requires StartsLink(content) && n == RunLength(content) && n <= q
    requires Inside(ParseLinks(content[n..]), MatchStarts(content[n..]), i, q - n)
    ensures Inside(ParseLinks(content), MatchStarts(content), i + 1, q)
  {
    var rest := content[n..];
    assert ParseLinks(content) == [content[..n]] + ParseLinks(rest);
    assert MatchStarts(content) == [0] + Shift(MatchStarts(rest), n);
  }

  lemma MissedAfterOther(content: string, q: nat, i: int)
    requires content != [] && !StartsLink(content) && 0 < q
    requires Inside(ParseLinks(content[1..]), MatchStarts(content[1..]), i, q - 1)
    ensures Inside(ParseLinks(content), MatchStarts(content), i, q)
  {
    assert ParseLinks(content) == ParseLinks(content[1..]);
    assert MatchStarts(content) == Shift(MatchStarts(content[1..]), 1);
  }

  /** Content yields no link exactly when no position in it starts one. */
  lemma NoLinksIff(content: string)
    ensures ParseLinks(content) == [] <==> forall q :: 0 <= q < |content| ==> !StartsLink(content[q..])
  {
    if ParseLinks(content) == [] {
      forall q | 0 <= q < |content| ensures !StartsLink(content[q..]) {
        if StartsLink(content[q..]) {
          NoLinkMissed(content, q);
        }
      }
    } else {
      LinksAreMatches(content);
      var p := MatchStarts(content);
      assert StartsLink(content[p[0]..]);
    }
  }

  lemma {:induction false} RunLengthStopsAtSpace(x: string, c: char, y: string)
    requires IsSpace(c)
    ensures RunLength(x + [c] + y) == RunLength(x)
  {
    if x == [] {
    } else {
      assert (x + [c] + y)[1..] == x[1..] + [c] + y;
      RunLengthStopsAtSpace(x[1..], c, y);
    }
  }

  /** Whitespace separates: the links of `x c y`, for a whitespace character `c`,
      are the links of `x` followed by the links of `y`. */
  lemma {:induction false} ParseLinksSplit(x: string, c: char, y: string)
    requires IsSpace(c)
    ensures ParseLinks(x + [c] + y) == ParseLinks(x) + ParseLinks(y)
    decreases |x|
  {
    var s := x + [c] + y;
    if x == [] {
      assert s == [c] + y && s[1..] == y;
      if StartsLink(s) { LinkHead(s); }
    } else if StartsLink(s) {
      var n := SplitAtLink(x, c, y);
      ParseLinksSplit(x[n..], c, y);
    } else {
      assert s[1..] == x[1..] + [c] + y;
      LinkExtends(x, [c] + y);
      assert s == x + ([c] + y);
      ParseLinksSplit(x[1..], c, y);
    }
  }

  /** A link at the head of `x` is still one when text follows `x`. */
  lemma LinkExtends(x: string, z: string)
    ensures StartsLink(x) ==> StartsLink(x + z)
  {
    if StartsLink(x) {
      assert (x + z)[..|SCHEME|] == x[..|SCHEME|];
    }
  }

  /** A link at the head of `x c y` lies within `x`: it is the link at the
      head of `x`, and what follows it is the rest of `x`, then `c y`. */
  lemma SplitAtLink(x: string, c: char, y: string) returns (n: nat)
    requires IsSpace(c) && x != [] && StartsLink(x + [c] + y)
    ensures StartsLink(x) && n == RunLength(x) && n <= |x|
    ensures ParseLinks(x + [c] + y) == [x[..n]] + ParseLinks(x[n..] + [c] + y)
    ensures ParseLinks(x) == [x[..n]] + ParseLinks(x[n..])
  {
    var s := x + [c] + y;
    LinkHead(s);
    assert s[|x|] == c;
    assert x[..|SCHEME|] == s[..|SCHEME|] && x[|SCHEME|] == s[|SCHEME|];
    RunLengthStopsAtSpace(x, c, y);
    n := RunLength(x);
    assert s[..n] == x[..n];
    assert s[n..] == x[n..] + [c] + y;
  }

  /** A whitespace-free link is found whole, as a single entry, even when it
      contains the scheme again further on. */
  lemma SingleLink(link: string)
    requires StartsLink(link) && NoSpace(link)
    ensures ParseLinks(link) == [link]
  {
    LinkHead(link);
    assert RunLength(link) == |link|;
    assert link[..|link|] == link && link[|link|..] == [];
  }

  /** Text shorter than a link holds none. */
  lemma {:induction false} ShortTextHasNoLinks(s: string)
    requires |s| <= |SCHEME|
    ensures ParseLinks(s) == []
  {
    if s != [] {
      ShortTextHasNoLinks(s[1..]);
    }
  }

  lemma EmptyContentHasNoLinks()
    ensures ParseLinks("") == []
  {
  }

  /** The scheme followed by whitespace is not a link. */
  lemma BareSchemeIsNoLink()
    ensures ParseLinks("https:// x") == []
  {
    var a, b := "https://", "x";
    ParseLinksSplit(a, ' ', b);
    ShortTextHasNoLinks(a);
    ShortTextHasNoLinks(b);
    assert a + [' '] + b == "https:// x";
  }

  /** A link containing a second scheme is one link, not two. */
  lemma NestedSchemeIsOneLink()
    ensures ParseLinks("https://a/https://b") == ["https://a/https://b"]
  {
    var link := "https://a/https://b";
    forall k | 0 <= k < |link| ensures !IsSpace(link[k]) {
      PrintableNotSpace(link[k]);
    }
    assert link[..|SCHEME|] == SCHEME;
    SingleLink(link);
  }

  /** The same link twice is reported twice. */
  lemma DuplicatesKept(link: string)
    requires StartsLink(link) && NoSpace(link)
    ensures ParseLinks(link + " " + link) == [link, link]
  {
    ParseLinksSplit(link, ' ', link);
    SingleLink(link);
  }
}
