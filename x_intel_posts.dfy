// The normalized post shapes of the X collector and the text normalisation used to
// compare posts: lower-casing, removal of links and @mentions, punctuation to spaces,
// whitespace collapsed.  Regular expressions are written out as scanners over a
// simplified character class (ASCII, Latin-1 and non-punctuation code points).

module XIntelPosts {
  import opened Common
  import opened Text
  import opened Collections

  /** A calendar date written YYYY-MM-DD, as `date.isoformat()` produces it. */
  predicate IsIsoDate(s: string)
  {
    |s| == 10 && s[4] == '-' && s[7] == '-'
    && forall i :: 0 <= i < 10 && i != 4 && i != 7 ==> IsAsciiDigit(s[i])
  }

  type IsoDate = s: string | IsIsoDate(s) witness "1970-01-01"

  datatype Metrics = Metrics(likes: int, reposts: int, replies: int, views: int)

  /**
   * An author.  `createdSeconds` is the account creation time in UTC seconds, or
   * None when `created_at` is empty or does not parse as an ISO timestamp.
   */
  datatype Author = Author(
    userId: string,
    handle: string,
    createdAt: string,
    createdSeconds: Option<int>,
    followers: int,
    following: int,
    verified: bool)

  /**
   * A link as `urlparse` splits it: the raw text, its network location and its path.
   */
  datatype Link = Link(raw: string, netloc: string, path: string)

  /**
   * A normalized post.  `createdSeconds` and `createdDate` are the UTC instant and UTC
   * calendar date that `created_at` parses to.
   */
  datatype Post = Post(
    tweetId: string,
    createdAt: string,
    createdSeconds: int,
    createdDate: IsoDate,
    text: string,
    lang: string,
    mediaUrls: seq<string>,
    metrics: Metrics,
    author: Author,
    replyTo: Option<string>,
    quotedTweetId: Option<string>,
    urls: seq<Link>,
    hashtags: seq<string>,
    mentions: seq<string>)

  /** The author handle as the engine keys accounts: lower-cased. */
  function HandleKey(p: Post): string
  {
    Lower(p.author.handle)
  }

  function Engagement(p: Post): int
  {
    p.metrics.likes + p.metrics.reposts + p.metrics.replies
  }

  /** The raw text of each link of a post. */
  function RawUrls(p: Post): seq<string>
  {
    MapSeq(p.urls, (l: Link) => l.raw)
  }

  const Stopwords: set<string> := {
    "the", "and", "for", "that", "this", "with", "from", "your", "you", "are", "about",
    "have", "will", "into", "more", "just", "https", "http", "bir", "ve", "için", "ile",
    "çok", "daha", "gibi", "ama", "şu", "bu", "de", "da"
  }

  /** `_normalize_handle`: trim, drop one leading '@', lower-case. */
  function NormalizeHandle(handle: string): (r: string)
    ensures forall i :: 0 <= i < |r| ==> !IsUpper(r[i])
    ensures var t := Strip(handle); var body := if StartsWith(t, "@") then t[1..] else t;
      |r| == |body| && forall i :: 0 <= i < |r| ==> r[i] == LowerChar(body[i])
  {
    var cleaned := Strip(handle);
    var body := if StartsWith(cleaned, "@") then cleaned[1..] else cleaned;
    Lower(body)
  }

  /** A handle that is already trimmed, lower-case and without '@' is left unchanged. */
  lemma NormalizeHandleOfNormal(h: string)
    requires h != [] ==> !IsSpace(h[0]) && !IsSpace(h[|h| - 1]) && h[0] != '@'
    requires forall i :: 0 <= i < |h| ==> !IsUpper(h[i])
    ensures NormalizeHandle(h) == h
  {
    StripOfTrimmed(h);
    if h != [] {
      assert h[..1][0] == h[0];
    }
    assert !StartsWith(h, "@");
    LowerOfLower(h);
  }

  /** Text without upper-case letters is its own lower case. */
  lemma LowerOfLower(h: string)
    requires forall i :: 0 <= i < |h| ==> !IsUpper(h[i])
    ensures Lower(h) == h
  {
  }

  /** `_canonical_url`: lower-cased host followed by the path without trailing '/'. */
  function CanonicalUrl(l: Link): (r: string)
    ensures |r| >= |l.netloc| && r[..|l.netloc|] == Lower(l.netloc)
    ensures r[|l.netloc|..] == RStripChar(l.path, '/')
  {
    Lower(l.netloc) + RStripChar(l.path, '/')
  }

  /** Two links that differ only in host case and trailing slashes share a canonical URL. */
  lemma CanonicalUrlIgnoresCaseAndSlash(a: Link, b: Link)
    requires Lower(a.netloc) == Lower(b.netloc)
    requires a.path == b.path + "/"
    ensures CanonicalUrl(a) == CanonicalUrl(b)
  {
    assert a.path[..|a.path| - 1] == b.path;
  }

  // ---------------------------------------------------------------- regex scanners

  /** Python's `\w` on the simplified character class. */
  predicate IsWordChar(c: char)
  {
    IsAlnum(c) || c == '_'
    || c == '\U{AA}' || c == '\U{B2}' || c == '\U{B3}' || c == '\U{B5}' || c == '\U{B9}'
    || c == '\U{BA}' || ('\U{BC}' <= c <= '\U{BE}')
    || ('\U{C0}' <= c <= '\U{FF}' && c != '\U{D7}' && c != '\U{F7}')
    || ('\U{100}' <= c && !IsSpace(c) && !('\U{2000}' <= c <= '\U{2BFF}')
        && !('\U{3000}' <= c <= '\U{303F}') && !('\U{1F000}' <= c <= '\U{1FAFF}'))
  }

  /** The two schemes a link starts with. */
  const HttpsScheme := "https://"
  const HttpScheme := "http://"

  /** s starts with "https://", tested character by character. */
  predicate HttpsAt(s: string)
  {
    |s| >= 8 && s[0] == 'h' && s[1] == 't' && s[2] == 't' && s[3] == 'p' && s[4] == 's'
    && s[5] == ':' && s[6] == '/' && s[7] == '/'
  }

  /** s starts with "http://", tested character by character. */
  predicate HttpAt(s: string)
  {
    |s| >= 7 && s[0] == 'h' && s[1] == 't' && s[2] == 't' && s[3] == 'p' && s[4] == ':'
    && s[5] == '/' && s[6] == '/'
  }

  /** The character tests are the two scheme prefixes. */
  lemma SchemesAre(s: string)
    ensures HttpsAt(s) <==> StartsWith(s, HttpsScheme)
    ensures HttpAt(s) <==> StartsWith(s, HttpScheme)
  {
    if |s| >= 8 && HttpsAt(s) {
      assert s[..8] == HttpsScheme;
    }
    if |s| >= 7 && HttpAt(s) {
      assert s[..7] == HttpScheme;
    }
    if StartsWith(s, HttpsScheme) {
      assert forall j :: 0 <= j < 8 ==> s[j] == s[..8][j];
    }
    if StartsWith(s, HttpScheme) {
      assert forall j :: 0 <= j < 7 ==> s[j] == s[..7][j];
    }
  }

  /** Length of the `https?://\S+` match at the start of s, or 0 when there is none. */
  function UrlMatch(s: string): (n: nat)
    ensures n <= |s|
    ensures n > 0 ==> n >= 8 && (HttpsAt(s) || HttpAt(s))
  {
    if HttpsAt(s) && |s| > 8 && !IsSpace(s[8]) then 8 + NonSpaceRun(s[8..])
    else if HttpAt(s) && |s| > 7 && !IsSpace(s[7]) then 7 + NonSpaceRun(s[7..])
    else 0
  }

  /**
   * A link is matched exactly when the text starts with "https://" or "http://" and a
   * non-space character follows; the match then runs up to the first whitespace.
   */
  lemma UrlMatchMeaning(s: string)
    ensures var n := UrlMatch(s);
      (n == 0 <==> !(StartsWith(s, HttpsScheme) && |s| > 8 && !IsSpace(s[8]))
                   && !(StartsWith(s, HttpScheme) && |s| > 7 && !IsSpace(s[7])))
      && (n > 0 ==> (forall i :: 0 <= i < n ==> !IsSpace(s[i])) && (n == |s| || IsSpace(s[n])))
  {
    SchemesAre(s);
  }

  /** `URL_RE.sub(" ", s)`: every link becomes one space. */
  function StripUrls(s: string): (r: string)
    ensures forall i :: 0 <= i < |r| ==> r[i] == ' ' || r[i] in s
    decreases |s|
  {
    if s == [] then []
    else
      var n := UrlMatch(s);
      if n > 0 then " " + StripUrls(s[n..])
      else [s[0]] + StripUrls(s[1..])
  }

  /** No link starts anywhere in s. */
  predicate LinkFree(s: string)
  {
    forall i :: 0 <= i < |s| ==> UrlMatch(s[i..]) == 0
  }

  /** The head of the result: a space for a link, otherwise the input's first character. */
  lemma StripUrlsHead(s: string)
    requires s != []
    ensures UrlMatch(s) > 0 ==> StripUrls(s) == [' '] + StripUrls(s[UrlMatch(s)..])
    ensures UrlMatch(s) == 0 ==> StripUrls(s) == [s[0]] + StripUrls(s[1..])
    ensures StripUrls(s)[0] == (if UrlMatch(s) > 0 then ' ' else s[0])
  {
  }

  /** As long as the result shows no whitespace it repeats the input: a link leaves a space. */
  lemma {:induction false} StripUrlsPrefix(s: string, k: nat)
    requires k <= |StripUrls(s)| && forall j :: 0 <= j < k ==> !IsSpace(StripUrls(s)[j])
    ensures k <= |s| && StripUrls(s)[..k] == s[..k]
    decreases k
  {
    if k > 0 {
      StripUrlsHead(s);
      assert !IsSpace(StripUrls(s)[0]);
      var rest := StripUrls(s[1..]);
      assert forall j :: 0 <= j < k - 1 ==> rest[j] == StripUrls(s)[j + 1];
      StripUrlsPrefix(s[1..], k - 1);
    }
  }

  /** No link is left after `URL_RE.sub(" ", s)`. */
  lemma {:induction false} StripUrlsLeavesNoLink(s: string)
    ensures LinkFree(StripUrls(s))
    decreases |s|
  {
    if s != [] {
      var r := StripUrls(s);
      StripUrlsHead(s);
      var next := if UrlMatch(s) > 0 then UrlMatch(s) else 1;
      var rest := StripUrls(s[next..]);
      StripUrlsLeavesNoLink(s[next..]);
      assert r[1..] == rest;
      if UrlMatch(s) == 0 {
        NoLinkAtHead(s, rest);
      }
      assert UrlMatch(r) == 0;
      forall i | 0 <= i < |r| ensures UrlMatch(r[i..]) == 0 {
        if i > 0 {
          assert r[i..] == rest[i - 1..];
        }
      }
    }
  }

  /** A character kept at the head, in front of what the rest becomes, does not start a link. */
  lemma NoLinkAtHead(s: string, rest: string)
    requires s != [] && UrlMatch(s) == 0 && rest == StripUrls(s[1..])
    ensures UrlMatch([s[0]] + rest) == 0
  {
    var r := [s[0]] + rest;
    if UrlMatch(r) > 0 {
      var m := MatchWidth(r);
      MatchHead(r);
      forall j | 0 <= j < m - 1 ensures !IsSpace(rest[j]) {
        assert rest[j] == r[j + 1];
      }
      StripUrlsPrefix(s[1..], m - 1);
      forall j | 0 <= j < m ensures r[j] == s[j] {
        if j > 0 {
          assert r[j] == rest[..m - 1][j - 1];
          assert s[j] == s[1..][..m - 1][j - 1];
        }
      }
      MatchLocal(r, s);
      assert false;
    }
  }

  /** How many characters decide a match: the scheme and the first character after it. */
  function MatchWidth(s: string): nat
  {
    if HttpsAt(s) && |s| > 8 && !IsSpace(s[8]) then 9 else 8
  }

  /** A match is no shorter than its deciding characters, and none of them is whitespace. */
  lemma MatchHead(s: string)
    requires UrlMatch(s) > 0
    ensures MatchWidth(s) <= UrlMatch(s) && forall i :: 0 <= i < UrlMatch(s) ==> !IsSpace(s[i])
  {
  }

  /** Whether a link starts depends only on the deciding characters. */
  lemma MatchLocal(a: string, b: string)
    requires UrlMatch(a) > 0 && MatchWidth(a) <= |b|
    requires forall j :: 0 <= j < MatchWidth(a) ==> a[j] == b[j]
    ensures UrlMatch(b) > 0
  {
  }

  /** Text with no link in it comes through `URL_RE.sub` unchanged. */
  lemma {:induction false} StripUrlsOfLinkFree(s: string)
    requires LinkFree(s)
    ensures StripUrls(s) == s
    decreases |s|
  {
    if s != [] {
      assert UrlMatch(s[0..]) == 0;
      assert s[0..] == s;
      forall i | 0 <= i < |s| - 1 ensures UrlMatch(s[1..][i..]) == 0 {
        assert s[1..][i..] == s[i + 1..];
      }
      StripUrlsOfLinkFree(s[1..]);
      assert s == [s[0]] + s[1..];
    }
  }

  /** Stripping links twice is stripping them once. */
  lemma StripUrlsIdempotent(s: string)
    ensures StripUrls(StripUrls(s)) == StripUrls(s)
  {
    StripUrlsLeavesNoLink(s);
    StripUrlsOfLinkFree(StripUrls(s));
  }

  /** Length of the run of word characters at the start of s. */
  function WordRun(s: string): (n: nat)
    ensures n <= |s|
    ensures forall i :: 0 <= i < n ==> IsWordChar(s[i])
  {
    if s == [] || !IsWordChar(s[0]) then 0 else 1 + WordRun(s[1..])
  }

  /** `MENTION_RE.sub(" ", s)`: every '@' followed by word characters becomes one space. */
  function StripMentions(s: string): (r: string)
    ensures forall i :: 0 <= i < |r| ==> r[i] == ' ' || r[i] in s
    decreases |s|
  {
    if s == [] then []
    else if s[0] == '@' && WordRun(s[1..]) > 0 then " " + StripMentions(s[1 + WordRun(s[1..])..])
    else [s[0]] + StripMentions(s[1..])
  }

  /** s starts with a mention: '@' followed by at least one word character. */
  predicate MentionAt(s: string)
  {
    s != [] && s[0] == '@' && WordRun(s[1..]) > 0
  }

  /** No mention starts anywhere in s. */
  predicate MentionFree(s: string)
  {
    forall i :: 0 <= i < |s| ==> !MentionAt(s[i..])
  }

  /** The head of the result: a space for a mention, otherwise the input's first character. */
  lemma StripMentionsHead(s: string)
    requires s != []
    ensures MentionAt(s) ==> StripMentions(s) == [' '] + StripMentions(s[1 + WordRun(s[1..])..])
    ensures !MentionAt(s) ==> StripMentions(s) == [s[0]] + StripMentions(s[1..])
    ensures StripMentions(s) != [] && StripMentions(s)[0] == (if MentionAt(s) then ' ' else s[0])
  {
  }

  /** No mention is left after `MENTION_RE.sub(" ", s)`. */
  lemma {:induction false} StripMentionsLeavesNoMention(s: string)
    ensures MentionFree(StripMentions(s))
    decreases |s|
  {
    if s != [] {
      var r := StripMentions(s);
      StripMentionsHead(s);
      var next := if MentionAt(s) then 1 + WordRun(s[1..]) else 1;
      var rest := StripMentions(s[next..]);
      StripMentionsLeavesNoMention(s[next..]);
      assert r[1..] == rest;
      if !MentionAt(s) && s[0] == '@' && rest != [] {
        StripMentionsHead(s[1..]);
        assert !IsWordChar(rest[0]);
      }
      assert !MentionAt(r);
      forall i | 0 <= i < |r| ensures !MentionAt(r[i..]) {
        if i > 0 {
          assert r[i..] == rest[i - 1..];
        }
      }
    }
  }

  /** Text with no mention in it comes through `MENTION_RE.sub` unchanged. */
  lemma {:induction false} StripMentionsOfFree(s: string)
    requires MentionFree(s)
    ensures StripMentions(s) == s
    decreases |s|
  {
    if s != [] {
      assert s[0..] == s;
      assert !MentionAt(s[0..]);
      forall i | 0 <= i < |s| - 1 ensures !MentionAt(s[1..][i..]) {
        assert s[1..][i..] == s[i + 1..];
      }
      StripMentionsOfFree(s[1..]);
      assert s == [s[0]] + s[1..];
    }
  }

  /** Stripping mentions twice is stripping them once. */
  lemma StripMentionsIdempotent(s: string)
    ensures StripMentions(StripMentions(s)) == StripMentions(s)
  {
    StripMentionsLeavesNoMention(s);
    StripMentionsOfFree(StripMentions(s));
  }

  /** Characters that `NON_WORD_RE` keeps: word characters, '#' and whitespace. */
  predicate Kept(c: char) { IsWordChar(c) || c == '#' || IsSpace(c) }

  /** `NON_WORD_RE.sub(" ", s)`: every other character becomes a space. */
  function PunctuationToSpace(s: string): (r: string)
    ensures |r| == |s|
    ensures forall i :: 0 <= i < |s| ==> r[i] == (if Kept(s[i]) then s[i] else ' ')
  {
    seq(|s|, i requires 0 <= i < |s| => if Kept(s[i]) then s[i] else ' ')
  }

  /** `_normalize_text`. */
  function NormalizeText(text: string): (r: string)
    ensures SingleSpaced(r)
    ensures forall i :: 0 <= i < |r| ==> (IsWordChar(r[i]) || r[i] == '#' || r[i] == ' ') && !IsUpper(r[i])
  {
    NormalizedShape(text);
    CollapseAndStrip(PunctuationToSpace(StripMentions(StripUrls(Lower(text)))))
  }

  lemma NormalizedShape(text: string)
    ensures var r := CollapseAndStrip(PunctuationToSpace(StripMentions(StripUrls(Lower(text)))));
      SingleSpaced(r)
      && forall i :: 0 <= i < |r| ==> (IsWordChar(r[i]) || r[i] == '#' || r[i] == ' ') && !IsUpper(r[i])
  {
    var lowered := Lower(text);
    var a := StripUrls(lowered);
    var b := StripMentions(a);
    var c := PunctuationToSpace(b);
    var r := CollapseAndStrip(c);
    assert forall i :: 0 <= i < |c| ==> c[i] == ' ' || (Kept(c[i]) && c[i] in lowered) by {
      forall i | 0 <= i < |c| ensures c[i] == ' ' || (Kept(c[i]) && c[i] in lowered) {
        if c[i] != ' ' {
          assert b[i] in a;
          assert b[i] in lowered;
        }
      }
    }
    forall i | 0 <= i < |r| ensures (IsWordChar(r[i]) || r[i] == '#' || r[i] == ' ') && !IsUpper(r[i]) {
      if r[i] != ' ' {
        var j :| 0 <= j < |c| && c[j] == r[i];
        var k :| 0 <= k < |lowered| && lowered[k] == c[j];
      }
    }
  }

  /** A character that can appear in normalized text. */
  predicate NormalChar(c: char)
  {
    (IsWordChar(c) || c == '#' || c == ' ') && !IsUpper(c)
  }

  lemma NormalCharFacts(c: char)
    requires NormalChar(c)
    ensures c != ':' && c != '@' && LowerChar(c) == c && Kept(c)
  {
  }

  /** Text that normalisation leaves as it is. */
  predicate NormalForm(s: string)
  {
    SingleSpaced(s) && forall i :: 0 <= i < |s| ==> NormalChar(s[i])
  }

  lemma NormalizeTextNormal(text: string)
    ensures NormalForm(NormalizeText(text))
  {
  }

  lemma {:induction false} StripUrlsOfNormal(s: string)
    requires forall i :: 0 <= i < |s| ==> NormalChar(s[i])
    ensures StripUrls(s) == s
    decreases |s|
  {
    if s != [] {
      UrlMatchColon(s);
      if |s| >= 8 { NormalCharFacts(s[4]); NormalCharFacts(s[5]); }
      assert UrlMatch(s) == 0;
      StripUrlsOfNormal(s[1..]);
      assert s == [s[0]] + s[1..];
    }
  }

  /** A link has a ':' right after its scheme name, at position 4 or 5. */
  lemma UrlMatchColon(s: string)
    ensures UrlMatch(s) > 0 ==> s[4] == ':' || s[5] == ':'
  {
  }

  lemma {:induction false} StripMentionsOfNormal(s: string)
    requires forall i :: 0 <= i < |s| ==> NormalChar(s[i])
    ensures StripMentions(s) == s
    decreases |s|
  {
    if s != [] {
      NormalCharFacts(s[0]);
      StripMentionsOfNormal(s[1..]);
      assert s == [s[0]] + s[1..];
    }
  }

  lemma LowerOfNormal(s: string)
    requires forall i :: 0 <= i < |s| ==> NormalChar(s[i])
    ensures Lower(s) == s
  {
    forall i | 0 <= i < |s| ensures Lower(s)[i] == s[i] {
      NormalCharFacts(s[i]);
    }
  }

  lemma PunctuationToSpaceOfNormal(s: string)
    requires forall i :: 0 <= i < |s| ==> NormalChar(s[i])
    ensures PunctuationToSpace(s) == s
  {
    forall i | 0 <= i < |s| ensures PunctuationToSpace(s)[i] == s[i] {
      NormalCharFacts(s[i]);
    }
  }

  /** Normalizing twice gives the same text as normalizing once. */
  lemma NormalizeTextIdempotent(text: string)
    ensures NormalizeText(NormalizeText(text)) == NormalizeText(text)
  {
    var n := NormalizeText(text);
    NormalizeTextNormal(text);
    LowerOfNormal(n);
    StripUrlsOfNormal(n);
    StripMentionsOfNormal(n);
    PunctuationToSpaceOfNormal(n);
    CollapseAndStripOfSingle(n);
  }

  // ---------------------------------------------------------------- working posts

  /** The space-separated tokens of a normalized text. */
  function Tokens(normalized: string): seq<string>
  {
    Split(normalized, ' ')
  }

  /** The token set compared by text similarity: tokens longer than 2, not stopwords. */
  function TokenSet(normalized: string): (ts: set<string>)
    ensures forall t :: t in ts <==> t in Tokens(normalized) && |t| > 2 && t !in Stopwords
  {
    set t | t in Tokens(normalized) && t != [] && t !in Stopwords && |t| > 2
  }

  /** `_WorkingPost`: a post with its normalized text and token set. */
  datatype WorkingPost = WorkingPost(post: Post, created: int, normalizedText: string, tokens: set<string>)

  function ToWorkingPost(p: Post): (w: WorkingPost)
    ensures w.post == p && w.created == p.createdSeconds
    ensures w.normalizedText == NormalizeText(p.text)
    ensures forall t :: t in w.tokens ==> ' ' !in t && |t| > 2 && t !in Stopwords
  {
    var n := NormalizeText(p.text);
    WorkingPost(p, p.createdSeconds, n, TokenSet(n))
  }

  function ToWorking(posts: seq<Post>): (ws: seq<WorkingPost>)
    ensures |ws| == |posts|
    ensures forall i :: 0 <= i < |posts| ==> ws[i] == ToWorkingPost(posts[i])
  {
    MapSeq(posts, ToWorkingPost)
  }

  function WKey(w: WorkingPost): string { HandleKey(w.post) }

  function WId(w: WorkingPost): string { w.post.tweetId }
}
